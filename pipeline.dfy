/** The page's analysis flow: build the search query from the topic, run the
    search tool, and go on to compose the prompt and ask the model only when
    the search output does not start with one of the two failure prefixes. */
module NewsPipeline {
  import opened Text
  import S = NewsSearch
  import P = AnalysisPrompt
  import C = Completion

  const QueryPrefix := "Latest news about "
  const QuerySuffix := " last 7 days"
  const MissingTopicWarning := "Please enter a news topic to analyze."

  /** The search query for a topic. */
  function SearchQuery(topic: string): (query: string)
    ensures StartsWith(query, QueryPrefix)
    ensures |query| == |QueryPrefix| + |topic| + |QuerySuffix|
    ensures query[|QueryPrefix|..|QueryPrefix| + |topic|] == topic
    ensures query[|QueryPrefix| + |topic|..] == QuerySuffix
  {
    var query := QueryPrefix + topic + QuerySuffix;
    assert query[..|QueryPrefix|] == QueryPrefix;
    assert query[|QueryPrefix|..|QueryPrefix| + |topic|] == topic;
    assert query[|QueryPrefix| + |topic|..] == QuerySuffix;
    query
  }

  /** The topic a query was built from, if it has the query's shape. */
  function TopicOf(query: string): (topic: Option<string>)
    ensures topic.Some? ==> SearchQuery(topic.value) == query
  {
    if |QueryPrefix| + |QuerySuffix| <= |query| && StartsWith(query, QueryPrefix)
       && query[|query| - |QuerySuffix|..] == QuerySuffix
    then
      var topic := query[|QueryPrefix|..|query| - |QuerySuffix|];
      assert query == query[..|QueryPrefix|] + topic + query[|query| - |QuerySuffix|..];
      Some(topic)
    else None
  }

  /** Round trip: the query determines the topic. */
  lemma QueryRoundTrip(topic: string)
    ensures TopicOf(SearchQuery(topic)) == Some(topic)
  {
    var q := SearchQuery(topic);
    assert q[|q| - |QuerySuffix|..] == QuerySuffix;
    assert q[|QueryPrefix|..|q| - |QuerySuffix|] == topic;
  }

  /** The stage gate: analysis goes ahead unless the search output starts with
      "Search error" or "No results". */
  predicate ShouldAnalyze(searchOutput: string)
    ensures ShouldAnalyze(searchOutput) ==> searchOutput != S.NoResultsMessage
    ensures ShouldAnalyze(searchOutput) ==> !StartsWith(searchOutput, S.SearchErrorPrefix)
  {
    S.NoResultsLeads();
    S.ErrorPrefixLeads(searchOutput);
    !StartsWith(searchOutput, S.SearchErrorLead) && !StartsWith(searchOutput, S.NoResultsLead)
  }

  /** The gate is exact: it lets through every formatted block and stops both
      failure outputs, so prefix sniffing tells success from failure. */
  lemma GateExact(response: S.SearchResponse)
    ensures ShouldAnalyze(S.SearchOutput(response)) <==> response.Results? && response.records != []
  {
  }

  /** What the page ends up showing for one click of the analyse button. */
  datatype PageOutcome =
    | TopicMissing(warning: string)
    | SearchReported(message: string)
    | AnalysisShown(prompt: string, report: string)

  /** The flow behind the analyse button for a topic and a result count. */
  method AnalyzeNews(topic: string, depth: int,
                     provider: S.NewsQuery -> S.SearchResponse,
                     endpoint: C.ChatRequest -> C.CompletionResponse)
    returns (outcome: PageOutcome)
    ensures topic == "" ==> outcome == TopicMissing(MissingTopicWarning)
    ensures topic != "" ==>
      var response := provider(S.NewsRequest(SearchQuery(topic), depth));
      if response.Results? && response.records != [] then
        var prompt := P.Compose(topic, S.FormatBlock(response.records));
        outcome == AnalysisShown(prompt, C.Complete(C.DefaultModel, prompt, endpoint))
      else
        outcome == SearchReported(S.SearchOutput(response))
  {
    if topic == "" {
      return TopicMissing(MissingTopicWarning);
    }
    var searchResults := S.Search(SearchQuery(topic), depth, provider);
    GateExact(provider(S.NewsRequest(SearchQuery(topic), depth)));
    if ShouldAnalyze(searchResults) {
      var prompt := P.Compose(topic, searchResults);
      var report := C.Complete(C.DefaultModel, prompt, endpoint);
      outcome := AnalysisShown(prompt, report);
    } else {
      outcome := SearchReported(searchResults);
    }
  }
}
