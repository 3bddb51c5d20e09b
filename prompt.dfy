/**
 * Prompt assembly of the market analyst: `load_market_research`,
 * `format_market_context` and the user message built in `process_with_agent`.
 *
 * Every separator is written `\\n` in the Python source, so the prompt holds
 * the two characters backslash and `n`, not a line break; the Dafny literal
 * "\\n" below is that same two-character sequence.
 */
module Prompt {
  import opened Wrappers

  /** Returned in place of the research text when the research file does not exist. */
  const NoResearch := "No market research data available."

  const ResearchLead := "Current market research data:\\n"
  const FocusPrefix := "Focus on "
  const FocusSuffix := " market.\\n"
  const QuerySeparator := "\\n\\n"
  const ContextLead := "\\n\\nAdditional context:\\n"

  /**
   * The research text as `load_market_research` returns it. `file` is the
   * text `f.read()` returns for the research file opened in text mode (so
   * already decoded, with line endings translated), or `None` when opening
   * it raises `FileNotFoundError`.
   */
  function LoadMarketResearch(file: Option<string>): (r: string)
    ensures file.Some? ==> r == file.value
    ensures file.None? ==> r != "" && r == NoResearch
  {
    match file
    case Some(content) => content
    case None => NoResearch
  }

  /** The opening of every context block: the lead line, the research, a blank separator. */
  function Header(research: string): string
  {
    ResearchLead + research + QuerySeparator
  }

  /** The sentence that names the market to focus on. */
  function FocusLine(market: string): string
  {
    FocusPrefix + market + FocusSuffix
  }

  /**
   * `format_market_context`: the header, followed by the focus sentence only
   * when `market` is truthy; an absent or empty market leaves no trace.
   */
  function MarketContext(research: string, market: Option<string>): (r: string)
    ensures Header(research) <= r
    ensures r == Header(research) <==> !Truthy(market)
    ensures Truthy(market) ==> r[|Header(research)|..] == FocusLine(market.value)
  {
    var context := Header(research);
    if Truthy(market) then context + FocusLine(market.value) else context
  }

  /**
   * Reads the focus market back out of a context block built over `research`:
   * `None` when the block is the bare header (or is not a context block).
   */
  function FocusOf(research: string, block: string): Option<string>
  {
    var h := Header(research);
    if h <= block && |h| + |FocusPrefix| + |FocusSuffix| <= |block| then
      var rest := block[|h|..];
      if FocusPrefix <= rest && rest[|rest| - |FocusSuffix|..] == FocusSuffix then
        Some(rest[|FocusPrefix|..|rest| - |FocusSuffix|])
      else
        None
    else
      None
  }

  /** The context block records exactly the truthy market, and nothing for a falsy one. */
  lemma FocusRoundTrip(research: string, market: Option<string>)
    ensures FocusOf(research, MarketContext(research, market)) == Normalized(market)
  {
  }

  /** Two different truthy markets never produce the same context block. */
  lemma MarketContextInjective(research: string, m1: Option<string>, m2: Option<string>)
    requires Truthy(m1) && Truthy(m2)
    requires MarketContext(research, m1) == MarketContext(research, m2)
    ensures m1 == m2
  {
    FocusRoundTrip(research, m1);
    FocusRoundTrip(research, m2);
  }

  /** The part of the user message that every request has: context block, separator, query. */
  function MessageBody(research: string, query: string, market: Option<string>): string
  {
    MarketContext(research, market) + QuerySeparator + query
  }

  /** The `if context:` step: the additional-context section, appended only for a truthy context. */
  function AppendContext(message: string, context: Option<string>): string
  {
    if Truthy(context) then message + (ContextLead + context.value) else message
  }

  /**
   * The user message of `process_with_agent`: the context block, a separator
   * and the query, followed by the additional-context section exactly when
   * `context` is truthy.
   */
  function UserMessage(research: string, query: string, market: Option<string>, context: Option<string>): (r: string)
    ensures MarketContext(research, market) <= r
    ensures MessageBody(research, query, market) <= r
    ensures r == MessageBody(research, query, market) <==> !Truthy(context)
    ensures Truthy(context) ==>
      r[|MessageBody(research, query, market)|..] == ContextLead + context.value
  {
    var block := MarketContext(research, market);
    var message := block + QuerySeparator + query;
    assert message[..|block|] == block;
    assert Truthy(context) ==> AppendContext(message, context)[..|message|] == message;
    AppendContext(message, context)
  }

  /** The query sits right after the context block and its separator, unchanged. */
  lemma QueryFollowsContextBlock(research: string, query: string, market: Option<string>, context: Option<string>)
    ensures var r := UserMessage(research, query, market, context);
      var k := |MarketContext(research, market)| + |QuerySeparator|;
      k + |query| <= |r| && r[k..k + |query|] == query
  {
    var r := UserMessage(research, query, market, context);
    var body := MessageBody(research, query, market);
    var k := |MarketContext(research, market)| + |QuerySeparator|;
    assert body[k..] == query;
    assert r[..|body|] == body;
    assert r[k..k + |query|] == body[k..];
  }

  /** Reads the additional context back out of a message whose body is `body`. */
  function AdditionalContextOf(body: string, message: string): Option<string>
  {
    if body + ContextLead <= message then Some(message[|body + ContextLead|..]) else None
  }

  /**
   * The appended section records exactly the truthy additional context, and
   * nothing for a falsy one, whatever message it is appended to.
   */
  lemma AdditionalContextRoundTrip(body: string, context: Option<string>)
    ensures AdditionalContextOf(body, AppendContext(body, context)) == Normalized(context)
  {
    var r := AppendContext(body, context);
    var lead := body + ContextLead;
    if Truthy(context) {
      assert r == lead + context.value;
      assert r[..|lead|] == lead;
      assert r[|lead|..] == context.value;
    } else {
      assert |r| < |lead|;
    }
  }

  /** The user message records exactly the truthy additional context, and nothing for a falsy one. */
  lemma UserMessageContextRoundTrip(research: string, query: string, market: Option<string>, context: Option<string>)
    ensures AdditionalContextOf(MessageBody(research, query, market), UserMessage(research, query, market, context))
      == Normalized(context)
  {
    assert UserMessage(research, query, market, context) == AppendContext(MessageBody(research, query, market), context);
    AdditionalContextRoundTrip(MessageBody(research, query, market), context);
  }

  /**
   * With neither a market nor an additional context the message is the
   * header, the separator and the query, and nothing else: no placeholder
   * text stands in for the absent fields.
   */
  lemma AbsentFieldsLeaveNoTrace(research: string, query: string, market: Option<string>, context: Option<string>)
    requires !Truthy(market) && !Truthy(context)
    ensures UserMessage(research, query, market, context) == Header(research) + QuerySeparator + query
    ensures UserMessage(research, query, market, context) == UserMessage(research, query, None, None)
  {
  }
}
