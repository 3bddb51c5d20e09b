/**
 * The analysis endpoints: the query each one builds for the agent and the
 * reply record it returns. Routing, validation and the mapping of
 * exceptions to HTTP 500 are not modelled; the reply timestamp is the
 * parameter `now`.
 */
module Endpoints {
  import opened Wrappers
  import opened Blocks
  import opened Agent

  /** The body of POST /analyze and POST /strategic-recommendation. */
  datatype AnalysisRequest = AnalysisRequest(query: string, market: Option<string>, context: Option<string>)

  /** The reply of POST /analyze. */
  datatype AnalysisResponse = AnalysisResponse(
    query: string, analysis: string, market: Option<string>, timestamp: string, thinkingProcess: Option<string>)

  /** The reply of GET /competitor-analysis. */
  datatype CompetitorReply = CompetitorReply(competitor: string, analysis: string, timestamp: string)

  /** The reply of GET /market-trend. */
  datatype TrendReply = TrendReply(market: string, timeframe: Option<string>, trendAnalysis: string, timestamp: string)

  /** The reply of POST /strategic-recommendation. */
  datatype RecommendationReply = RecommendationReply(query: string, recommendations: string, timestamp: string)

  const CompetitorLead := "Provide a detailed competitive analysis of "
  const TrendLead := "Analyze current trends in the "
  const RecommendationLead := "Based on your analysis, provide strategic recommendations for: "
  /** The fixed tail of the recommendation prompt, a triple-quoted string with real line breaks. */
  const RecommendationTrailer :=
    "\n        \nStructure your response as:\n" +
    "1. Short-term actions (0-3 months)\n" +
    "2. Medium-term strategy (3-12 months)\n" +
    "3. Long-term positioning (1+ years)\n" +
    "4. Key success factors\n" +
    "5. Risks to monitor\n        "

  /**
   * The competitor query: names the competitor, and the market exactly when
   * `market` is truthy.
   */
  function CompetitorQuery(competitor: string, market: Option<string>): (q: string)
    ensures CompetitorLead + competitor <= q
    ensures q == CompetitorLead + competitor <==> !Truthy(market)
    ensures Truthy(market) ==> q[|CompetitorLead + competitor|..] == " in the " + market.value + " market"
  {
    var query := CompetitorLead + competitor;
    if Truthy(market) then
      var extended := query + (" in the " + market.value + " market");
      assert extended[..|query|] == query;
      extended
    else
      query
  }

  /**
   * The market-trend query: names the market (even an empty one), and the
   * timeframe exactly when `timeframe` is truthy.
   */
  function TrendQuery(market: string, timeframe: Option<string>): (q: string)
    ensures TrendLead + market + " market" <= q
    ensures q == TrendLead + market + " market" <==> !Truthy(timeframe)
    ensures Truthy(timeframe) ==> q[|TrendLead + market + " market"|..] == " over the " + timeframe.value
  {
    var query := TrendLead + market + " market";
    if Truthy(timeframe) then
      var extended := query + (" over the " + timeframe.value);
      assert extended[..|query|] == query;
      extended
    else
      query
  }

  /**
   * The query wrapped for a strategic recommendation: the lead, the user's
   * query, then the fixed list of sections to answer in.
   */
  function RecommendationQuery(query: string): (q: string)
    ensures RecommendationLead <= q
    ensures |q| == |RecommendationLead| + |query| + |RecommendationTrailer|
    ensures q[|q| - |RecommendationTrailer|..] == RecommendationTrailer
  {
    var q := RecommendationLead + query + RecommendationTrailer;
    assert q[..|RecommendationLead|] == RecommendationLead;
    q
  }

  /** Reads the user's query back out of a recommendation query. */
  function RecommendationSubject(q: string): Option<string>
  {
    if RecommendationLead <= q && |RecommendationLead| + |RecommendationTrailer| <= |q|
       && q[|q| - |RecommendationTrailer|..] == RecommendationTrailer
    then Some(q[|RecommendationLead|..|q| - |RecommendationTrailer|])
    else None
  }

  /** The wrapper keeps the user's query intact: it can always be read back. */
  lemma RecommendationRoundTrip(query: string)
    ensures RecommendationSubject(RecommendationQuery(query)) == Some(query)
  {
  }

  /** Two different queries never share a recommendation prompt. */
  lemma RecommendationQueryInjective(q1: string, q2: string)
    requires RecommendationQuery(q1) == RecommendationQuery(q2)
    ensures q1 == q2
  {
    RecommendationRoundTrip(q1);
    RecommendationRoundTrip(q2);
  }

  /** POST /analyze: the request's query and market come back unchanged beside the agent's result. */
  method Analyze(request: AnalysisRequest, researchFile: Option<string>, api: string -> Response, now: string)
    returns (reply: AnalysisResponse)
    ensures reply.query == request.query && reply.market == request.market && reply.timestamp == now
    ensures var result := Outcome(researchFile, request.query, request.market, request.context, api);
      reply.analysis == result.analysis && reply.thinkingProcess == result.thinkingProcess
  {
    var result := ProcessWithAgent(researchFile, request.query, request.market, request.context, api);
    reply := AnalysisResponse(request.query, result.analysis, request.market, now, result.thinkingProcess);
  }

  /** GET /competitor-analysis: the agent answers the competitor query, with the same market as focus. */
  method CompetitorAnalysis(competitor: string, market: Option<string>, researchFile: Option<string>,
                            api: string -> Response, now: string)
    returns (reply: CompetitorReply)
    ensures reply.competitor == competitor && reply.timestamp == now
    ensures reply.analysis == Outcome(researchFile, CompetitorQuery(competitor, market), market, None, api).analysis
  {
    var query := CompetitorQuery(competitor, market);
    var result := ProcessWithAgent(researchFile, query, market, None, api);
    reply := CompetitorReply(competitor, result.analysis, now);
  }

  /** GET /market-trend: the agent answers the trend query, with the market as focus. */
  method MarketTrend(market: string, timeframe: Option<string>, researchFile: Option<string>,
                     api: string -> Response, now: string)
    returns (reply: TrendReply)
    ensures reply.market == market && reply.timeframe == timeframe && reply.timestamp == now
    ensures reply.trendAnalysis == Outcome(researchFile, TrendQuery(market, timeframe), Some(market), None, api).analysis
  {
    var query := TrendQuery(market, timeframe);
    var result := ProcessWithAgent(researchFile, query, Some(market), None, api);
    reply := TrendReply(market, timeframe, result.analysis, now);
  }

  /**
   * POST /strategic-recommendation: the agent answers the wrapped query, but
   * the reply carries the caller's original query.
   */
  method StrategicRecommendation(request: AnalysisRequest, researchFile: Option<string>,
                                 api: string -> Response, now: string)
    returns (reply: RecommendationReply)
    ensures reply.query == request.query && reply.timestamp == now
    ensures reply.recommendations
      == Outcome(researchFile, RecommendationQuery(request.query), request.market, request.context, api).analysis
  {
    var enhancedQuery := RecommendationQuery(request.query);
    var result := ProcessWithAgent(researchFile, enhancedQuery, request.market, request.context, api);
    reply := RecommendationReply(request.query, result.analysis, now);
  }
}
