# VAIA market analyst: prompt assembly and response extraction

The VAIA Agentic AI Market Analyst is a small FastAPI service. It wraps each
user query in a prompt that carries locally stored market-research text. It
sends that prompt to the Anthropic messages API and relays the answer. This
project models the deterministic logic around that call:

- **Prompt assembly** (module `Prompt`). `load_market_research` falls back to a
  fixed sentence when the file is missing. `format_market_context` builds the
  context block, and `process_with_agent` builds the user message from it. Each
  optional field (`market`, `context`) is appended only when it is truthy,
  meaning neither `None` nor `""`. Each separator is written `\\n` in the
  source, so it is the two characters backslash and `n`. The Dafny literal
  `"\\n"` is that same pair.
- **Block scan** (modules `Blocks`, `Agent`). The response is an ordered
  sequence of content blocks. Within each kind, the last block wins: a
  "thinking" block sets the thinking process and a "text" block sets the
  analysis. Blocks of any other kind are skipped. The stop reason is copied
  unchanged. `Agent.ScanBlocks` is the loop. It is proved against the
  specification functions `LastText` and `LastThinking`, and lemmas in
  `Blocks` characterise those two functions on their own terms.
- **Endpoints** (module `Endpoints`). This covers the query each endpoint
  builds (competitor, market trend, strategic recommendation) and the reply
  record it returns, which copies request fields unchanged.

The messages API is the parameter `api: string -> Response`, which maps the
user message to the response blocks and stop reason. The research file is the
parameter `researchFile: Option<string>`: the text that reading the file in
text mode returns, or `None` when the file was not found. The reply timestamp is the parameter `now`.

Behaviour of the source worth noting:

- There is no pre-shared-key header check and no HTTP 401. The source
  authenticates nothing.
- The stop reason is copied as the API gives it, absent or not. No `"UNKNOWN"`
  sentinel is substituted.
- A response may hold several blocks of one kind. The last of each kind wins.

## Model

| member | source | states |
|---|---|---|
| Prompt.LoadMarketResearch | src/main.py:66-72 | The text read from the file (in text mode) is returned verbatim when the file exists. A missing file yields the non-empty fallback sentence instead of a failure. |
| Prompt.MarketContext | src/main.py:84-92 | The context block always begins with the research header. It equals that header exactly when the market is falsy. When the market is truthy, what follows the header is exactly `Focus on <market> market.\\n`. |
| Prompt.FocusRoundTrip | src/main.py:87-90 | Decoding the context block returns the market when it is truthy and nothing when it is `None` or `""`. So an absent market leaves no placeholder behind. |
| Prompt.MarketContextInjective | src/main.py:89-90 | Two different truthy markets never give the same context block. |
| Prompt.UserMessage | src/main.py:123-125 | The message begins with the context block, the separator and the query. It is exactly that when `context` is falsy. Otherwise `\\n\\nAdditional context:\\n` and the context follow. |
| Prompt.QueryFollowsContextBlock | src/main.py:123 | The query appears unchanged right after the context block and its 4-character separator. |
| Prompt.AdditionalContextRoundTrip | src/main.py:124-125 | Decoding the section appended to any message returns the additional context when it is truthy, and nothing otherwise. |
| Prompt.UserMessageContextRoundTrip | src/main.py:123-125 | Decoding the tail of the user message, after its context block, separator and query, returns the additional context when it is truthy, and nothing otherwise. |
| Prompt.AbsentFieldsLeaveNoTrace | src/main.py:84-125 | With a falsy market and a falsy context, the message is only header, separator and query. It equals the message built from `None, None`. |
| Blocks.LastTextBlockWins | src/main.py:147-151 | The analysis is the text of the "text" block that no later "text" block follows. |
| Blocks.NoTextBlockGivesEmpty | src/main.py:145-151 | With no "text" block, the analysis stays `""`. |
| Blocks.LastThinkingBlockWins | src/main.py:147-149 | The thinking process is the content of the last "thinking" block. |
| Blocks.ThinkingAbsentIffNoThinkingBlock | src/main.py:144-149 | The thinking process is `None` if and only if the response has no "thinking" block. |
| Blocks.ScanOfConcatenation | src/main.py:147-151 | Scanning `a + b` gives `b`'s value for each kind that `b` contains, and `a`'s value otherwise. |
| Blocks.OtherBlockSkipped | src/main.py:147-151 | Inserting one block of an unrecognised kind anywhere in the response changes neither the analysis nor the thinking process. |
| Blocks.OtherBlocksIgnored | src/main.py:147-151 | Removing every block of an unrecognised kind changes neither the analysis nor the thinking process. |
| Agent.ScanBlocks | src/main.py:143-151 | The loop leaves the analysis equal to the last text and the thinking process equal to the last thinking content. |
| Agent.ProcessWithAgent | src/main.py:95-157 | The API receives the assembled user message. The result carries the scanned analysis, the scanned thinking process and the API's stop reason, all unchanged. |
| Agent.ThinkingAndTextBothReported | src/main.py:144-157 | A response of a thinking block and then a text block fills both result fields with their contents. |
| Agent.TextOnlyLeavesThinkingAbsent | src/main.py:144-149 | A response made only of text blocks leaves the thinking process `None`. |
| Endpoints.CompetitorQuery | src/main.py:209-211 | The query names the competitor after the fixed lead. ` in the <market> market` follows exactly when the market is truthy. |
| Endpoints.TrendQuery | src/main.py:233-235 | The query names the market, even an empty one. ` over the <timeframe>` follows exactly when the timeframe is truthy. |
| Endpoints.RecommendationQuery | src/main.py:257-265 | The wrapped query starts with the fixed lead and ends with the fixed section list. Its length is the lead plus the query plus that trailer. |
| Endpoints.RecommendationRoundTrip | src/main.py:257-265 | The user's query can always be read back out of the wrapped query. |
| Endpoints.RecommendationQueryInjective | src/main.py:257-265 | Different user queries give different wrapped queries. |
| Endpoints.Analyze | src/main.py:180-198 | The reply copies `query` and `market` from the request unchanged. The analysis and thinking process are the agent's result for that request. The timestamp is the supplied time. |
| Endpoints.CompetitorAnalysis | src/main.py:202-222 | The reply echoes the competitor. Its analysis is the agent's answer to the competitor query, with the same market as focus and no extra context. |
| Endpoints.MarketTrend | src/main.py:226-247 | The reply echoes the market and timeframe. Its trend analysis is the agent's answer to the trend query, with the market as focus. |
| Endpoints.StrategicRecommendation | src/main.py:251-277 | The agent answers the wrapped query, with the request's market and context. The reply carries the caller's original query, not the wrapped one. |

## Left out

- The FastAPI application, CORS middleware, route decorators, Pydantic validation, the `/` and `/health` endpoints and the `uvicorn` startup. These are HTTP framework plumbing.
- The `client.messages.create` call: model name, token limits, thinking budget, temperature and the fixed system message. It is a foreign network API, so its behaviour is the parameter `api`, and only the user message is passed to it.
- Reading the research file. It is I/O; its outcome is the parameter `researchFile`. Read errors other than a missing file are not modelled.
- `extract_json_from_response`. It rests on regular-expression search and JSON parsing from libraries, and nothing calls it.
- The mapping of any exception to HTTP 500 with the exception text. The API is modelled as always answering, so no failure path exists in the model.
- `datetime.now().isoformat()`. It is a clock, and the timestamp is the parameter `now`.
- The `CompetitorAnalysis` Pydantic model. No code path uses it.
