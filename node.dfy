/** The knowledge-retrieval node: `_run` (query checks, rate limit, error
    reporting) and `_fetch_dataset_retriever` (availability, metadata filter,
    retrieval plan, engine call, fusion). The database tables, the model
    manager, the language model's step (its parsed answer, or the error raised
    while the prompt was built), the template resolver, the
    retrieval engine and the record formatter are given as values. */
module Node {
  import opened Common
  import opened Records
  import opened ModelConfig
  import opened RetrievalConfig
  import opened MetadataFilter
  import opened Availability
  import opened RateLimit
  import opened Fusion

  /** The node's configuration. */
  datatype NodeData = NodeData(
    datasetIds: seq<string>,
    retrieval: RetrievalSettings,
    filtering: FilterSettings)

  /** One call of the retrieval engine. */
  datatype RetrievalRequest = RetrievalRequest(
    datasets: seq<Dataset>,
    query: string,
    plan: RetrievalPlan,
    documentIds: Option<map<string, seq<string>>>,
    condition: Option<MetadataCondition>)

  /** Everything outside the node that it reads. */
  datatype Environment = Environment(
    tenant: string,
    datasets: seq<Dataset>,
    documents: seq<Document>,
    fields: seq<DatasetMetadataField>,
    models: ModelRef -> ModelEnv,
    answer: ModelAnswer,
    resolve: string -> VariableSegment,
    engine: RetrievalRequest -> Result<seq<RetrievedItem>>,
    formatter: seq<RetrievedItem> -> seq<RetrievalRecord>)

  /** What the query selector points at in the variable pool. */
  datatype QueryVariable = StringQuery(text: string) | NotAString

  /** `NodeRunResult`: the status, the recorded query input (absent when no
      string query exists), and the result list or the error and its type. */
  datatype NodeRunResult =
    | Succeeded(query: string, result: seq<Source>)
    | Failed(inputQuery: Option<string>, error: string, errorType: Option<string>)

  const RateLimitMessage: string :=
    "Sorry, you have reached the knowledge base request rate limit of your subscription."

  function DatasetIds(datasets: seq<Dataset>): (r: seq<string>)
    ensures |r| == |datasets| && forall i :: 0 <= i < |r| ==> r[i] == datasets[i].id
  {
    seq(|datasets|, i requires 0 <= i < |datasets| => datasets[i].id)
  }

  /** `_fetch_dataset_retriever`: the first error raised, or the ranked list. */
  function Fetch(node: NodeData, query: string, env: Environment): Result<seq<Source>> {
    var available := AvailableDatasets(env.datasets, env.documents, env.tenant, node.datasetIds);
    var outcome :- FilterConditionOf(DatasetIds(available), node.filtering, env.fields, env.models,
                                     env.answer, env.resolve, env.documents);
    var plan :- ResolveRetrieval(node.retrieval, env.models);
    var items :- if plan.NoRetrieval? then Ok([])
                 else env.engine(RetrievalRequest(available, query, plan, outcome.documentIds, outcome.condition));
    Ok(Ranked(items, env.formatter, env.datasets, env.documents))
  }

  /** `_run` once the limiter has decided: the query checks, the rate-limit
      rejection, then the retrieval with its errors reported by class name. */
  function Outcome(variable: QueryVariable, admitted: bool, node: NodeData, env: Environment): NodeRunResult {
    if variable.NotAString? then Failed(None, "Query variable is not string type.", None)
    else if variable.text == "" then Failed(Some(variable.text), "Query is required.", None)
    else if !admitted then Failed(Some(variable.text), RateLimitMessage, Some("RateLimitExceeded"))
    else
      match Fetch(node, variable.text, env)
      case Ok(list) => Succeeded(variable.text, list)
      case Err(e) => Failed(Some(variable.text), e.message, Some(e.kind.Name()))
  }

  /** The node succeeds exactly when the query is a non-empty string, the
      request is admitted and retrieval raises nothing, and then it returns the
      retrieved list; any retrieval error is reported with its class name. */
  lemma OutcomeIff(variable: QueryVariable, admitted: bool, node: NodeData, env: Environment)
    ensures var r := Outcome(variable, admitted, node, env);
            && (r.Succeeded? <==>
                  variable.StringQuery? && variable.text != "" && admitted && Fetch(node, variable.text, env).Ok?)
            && (r.Succeeded? ==> r.result == Fetch(node, variable.text, env).value && r.query == variable.text)
            && (variable.StringQuery? && variable.text != "" && admitted && Fetch(node, variable.text, env).Err? ==>
                  r == Failed(Some(variable.text), Fetch(node, variable.text, env).error.message,
                              Some(Fetch(node, variable.text, env).error.kind.Name())))
            && (variable.StringQuery? && variable.text != "" && !admitted ==>
                  r == Failed(Some(variable.text), RateLimitMessage, Some("RateLimitExceeded")))
  {
  }

  /** The metadata filter is resolved before the retrieval settings, so its
      error wins; a mode outside single and multiple calls no engine and
      returns an empty list. */
  lemma FetchErrorOrder(node: NodeData, query: string, env: Environment)
    ensures var available := AvailableDatasets(env.datasets, env.documents, env.tenant, node.datasetIds);
            var f := FilterConditionOf(DatasetIds(available), node.filtering, env.fields, env.models,
                                       env.answer, env.resolve, env.documents);
            && (f.Err? ==> Fetch(node, query, env) == Err(f.error))
            && (f.Ok? && ResolveRetrieval(node.retrieval, env.models).Err? ==>
                  Fetch(node, query, env) == Err(ResolveRetrieval(node.retrieval, env.models).error))
            && (f.Ok? && ResolveRetrieval(node.retrieval, env.models) == Ok(NoRetrieval) ==>
                  Fetch(node, query, env) == Ok([]))
  {
    assert ProviderItems([], InternalProvider) == [] && ProviderItems([], ExternalProvider) == [];
    assert Collected([], env.formatter, env.datasets, env.documents) == [];
    assert ScoreSort.Sort([], ScoreKey) == [];
    assert Numbered([]) == [];
  }

  /** A successful retrieval is ranked: non-increasing scores, positions 1..N,
      and every internal entry resolves to a dataset and a live document. */
  lemma FetchRanked(node: NodeData, query: string, env: Environment)
    requires Fetch(node, query, env).Ok?
    ensures var r := Fetch(node, query, env).value;
            && (forall i, j :: 0 <= i < j < |r| ==> ScoreKey(r[i]) >= ScoreKey(r[j]))
            && (forall i :: 0 <= i < |r| ==> r[i].position == Some(i + 1))
            && (forall s :: s in r && s.segment.Some? ==>
                  && (exists d :: d in env.datasets && d.id == s.segment.value.datasetId)
                  && (exists d :: d in env.documents && d.id == s.segment.value.documentId && IsLive(d)))
  {
    var available := AvailableDatasets(env.datasets, env.documents, env.tenant, node.datasetIds);
    var outcome := FilterConditionOf(DatasetIds(available), node.filtering, env.fields, env.models,
                                     env.answer, env.resolve, env.documents).value;
    var plan := ResolveRetrieval(node.retrieval, env.models).value;
    var items := if plan.NoRetrieval? then []
                 else env.engine(RetrievalRequest(available, query, plan, outcome.documentIds, outcome.condition)).value;
    RankedOrderAndPositions(items, env.formatter, env.datasets, env.documents);
    RankedPermutation(items, env.formatter, env.datasets, env.documents);
  }

  /** `_fetch_dataset_retriever` with its imperative parts: the metadata filter
      loops and the fusion loops. */
  method FetchDatasetRetriever(node: NodeData, query: string, env: Environment) returns (r: Result<seq<Source>>)
    ensures r == Fetch(node, query, env)
  {
    var available := AvailableDatasets(env.datasets, env.documents, env.tenant, node.datasetIds);
    var outcome := GetMetadataFilterCondition(DatasetIds(available), node.filtering, env.fields, env.models,
                                              env.answer, env.resolve, env.documents);
    if outcome.Err? {
      return Err(outcome.error);
    }
    var plan := ResolveRetrieval(node.retrieval, env.models);
    if plan.Err? {
      return Err(plan.error);
    }
    var items: seq<RetrievedItem> := [];
    if !plan.value.NoRetrieval? {
      var retrieved := env.engine(RetrievalRequest(available, query, plan.value,
                                                   outcome.value.documentIds, outcome.value.condition));
      if retrieved.Err? {
        return Err(retrieved.error);
      }
      items := retrieved.value;
    }
    var list := FuseAndRank(items, env.formatter, env.datasets, env.documents);
    return Ok(list);
  }

  /** `_run`. The limiter is consulted only for a non-empty string query; a
      rejection leaves retrieval uncalled. */
  method Run(limiter: RateLimiter, variable: QueryVariable, policy: RateLimitPolicy, now: nat,
             node: NodeData, env: Environment) returns (r: NodeRunResult)
    modifies limiter
    ensures variable.NotAString? || variable.text == "" ==>
              limiter.windows == old(limiter.windows) && limiter.auditLog == old(limiter.auditLog)
    ensures variable.StringQuery? && variable.text != "" ==>
              limiter.windows == if policy.enabled
                                 then old(limiter.windows)[Key(env.tenant) := Slide(old(limiter.Window(env.tenant)), now)]
                                 else old(limiter.windows)
    ensures r == Outcome(variable,
                         !policy.enabled || Admits(old(limiter.Window(env.tenant)), now, policy.limit),
                         node, env)
    ensures var rejected := variable.StringQuery? && variable.text != "" && policy.enabled
                            && !Admits(old(limiter.Window(env.tenant)), now, policy.limit);
            limiter.auditLog == old(limiter.auditLog) +
              if rejected then [RateLimitLog(env.tenant, policy.subscriptionPlan, "knowledge")] else []
  {
    if variable.NotAString? {
      return Failed(None, "Query variable is not string type.", None);
    }
    var query := variable.text;
    if query == "" {
      return Failed(Some(query), "Query is required.", None);
    }
    var admitted := limiter.Check(env.tenant, policy, now);
    if !admitted {
      return Failed(Some(query), RateLimitMessage, Some("RateLimitExceeded"));
    }
    var fetched := FetchDatasetRetriever(node, query, env);
    match fetched {
      case Ok(list) =>
        r := Succeeded(query, list);
      case Err(e) =>
        r := Failed(Some(query), e.message, Some(e.kind.Name()));
    }
  }
}
