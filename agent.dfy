/**
 * `process_with_agent`: build the user message, make the one call to the
 * messages API, and scan the returned blocks into the result record.
 *
 * The API call is not modelled: it is the parameter `api`, which maps the
 * user message to the response the service receives.
 */
module Agent {
  import opened Wrappers
  import opened Prompt
  import opened Blocks

  /**
   * The specification of `process_with_agent`'s result for one request,
   * given the API's behaviour; `ProcessWithAgent` is proved to compute it,
   * and the endpoints state their replies in its terms.
   */
  function Outcome(researchFile: Option<string>, query: string, market: Option<string>,
                   context: Option<string>, api: string -> Response): AgentResult
  {
    var response := api(UserMessage(LoadMarketResearch(researchFile), query, market, context));
    AgentResult(LastText(response.content), LastThinking(response.content), response.stopReason)
  }

  /**
   * The block-scan loop: each "thinking" block overwrites the thinking
   * process, each "text" block overwrites the analysis, other blocks are
   * skipped.
   */
  method ScanBlocks(blocks: seq<Block>) returns (analysisText: string, thinkingProcess: Option<string>)
    ensures analysisText == LastText(blocks)
    ensures thinkingProcess == LastThinking(blocks)
  {
    thinkingProcess := None;
    analysisText := "";
    var i := 0;
    while i < |blocks|
      invariant 0 <= i <= |blocks|
      invariant analysisText == LastText(blocks[..i])
      invariant thinkingProcess == LastThinking(blocks[..i])
    {
      var block := blocks[i];
      if block.Thinking? {
        thinkingProcess := Some(block.thinking);
      } else if block.Text? {
        analysisText := block.text;
      }
      assert blocks[..i + 1][..i] == blocks[..i];
      i := i + 1;
    }
    assert blocks[..|blocks|] == blocks;
  }

  /**
   * `process_with_agent`: the API sees the assembled user message; the
   * result holds the scanned analysis and thinking process and the API's
   * stop reason, copied unchanged.
   */
  method ProcessWithAgent(researchFile: Option<string>, query: string, market: Option<string>,
                          context: Option<string>, api: string -> Response) returns (result: AgentResult)
    ensures var response := api(UserMessage(LoadMarketResearch(researchFile), query, market, context));
      result.analysis == LastText(response.content) &&
      result.thinkingProcess == LastThinking(response.content) &&
      result.stopReason == response.stopReason
    ensures result == Outcome(researchFile, query, market, context, api)
  {
    var userMessage := UserMessage(LoadMarketResearch(researchFile), query, market, context);
    var response := api(userMessage);
    var analysisText, thinkingProcess := ScanBlocks(response.content);
    result := AgentResult(analysisText, thinkingProcess, response.stopReason);
  }

  /**
   * A response with a thinking block followed by a text block fills both
   * fields; one with text blocks only leaves the thinking process absent.
   */
  lemma ThinkingAndTextBothReported(thinking: string, text: string,
                                    researchFile: Option<string>, query: string, market: Option<string>,
                                    context: Option<string>, api: string -> Response)
    requires api(UserMessage(LoadMarketResearch(researchFile), query, market, context)).content
      == [Thinking(thinking), Text(text)]
    ensures Outcome(researchFile, query, market, context, api).analysis == text
    ensures Outcome(researchFile, query, market, context, api).thinkingProcess == Some(thinking)
  {
    var blocks := [Thinking(thinking), Text(text)];
    LastThinkingBlockWins(blocks, 0);
    LastTextBlockWins(blocks, 1);
  }

  /** Text blocks alone never produce a thinking process. */
  lemma {:induction false} TextOnlyLeavesThinkingAbsent(blocks: seq<Block>)
    requires forall i :: 0 <= i < |blocks| ==> blocks[i].Text?
    ensures LastThinking(blocks) == None
  {
    ThinkingAbsentIffNoThinkingBlock(blocks);
  }
}
