/** How `_fetch_dataset_retriever` turns the node's retrieval settings into one
    call of the retrieval engine: the single / multiple branch, the planning
    strategy, the reranking-model / weighted-score choice, the required-field
    errors and the score-threshold default. */
module RetrievalConfig {
  import opened Common
  import opened ModelConfig

  datatype PlanningStrategy = Router | ReactRouter

  datatype RerankingModelConfig = RerankingModelConfig(provider: string, model: string)

  datatype VectorSetting = VectorSetting(vectorWeight: real, embeddingProviderName: string, embeddingModelName: string)

  datatype WeightsConfig = WeightsConfig(vectorSetting: VectorSetting, keywordWeight: real)

  datatype SingleRetrievalConfig = SingleRetrievalConfig(model: ModelRef)

  datatype MultipleRetrievalConfig = MultipleRetrievalConfig(
    topK: int,
    scoreThreshold: Option<real>,
    rerankingMode: string,
    rerankingEnable: bool,
    rerankingModel: Option<RerankingModelConfig>,
    weights: Option<WeightsConfig>)

  datatype RetrievalSettings = RetrievalSettings(
    retrievalMode: string,
    single: Option<SingleRetrievalConfig>,
    multiple: Option<MultipleRetrievalConfig>)

  /** The engine call the settings select (its dataset, query and filter
      arguments are added by the caller), or no call at all. */
  datatype RetrievalPlan =
    | SinglePlan(modelConfig: ModelConfigWithCredentials, planning: PlanningStrategy)
    | MultiplePlan(
        topK: int,
        scoreThreshold: real,
        rerankingMode: string,
        rerankingModel: Option<RerankingModelConfig>,
        weights: Option<WeightsConfig>,
        rerankingEnable: bool)
    | NoRetrieval

  /** Tool-calling models route directly; the others use the ReAct router. */
  function PlanningStrategyFor(schema: ModelSchema): (s: PlanningStrategy)
    ensures s == Router <==> ToolCall in schema.features || MultiToolCall in schema.features
  {
    if ToolCall in schema.features || MultiToolCall in schema.features then Router else ReactRouter
  }

  /** The reranking-model and weights arguments of the multiple-retrieval call,
      or the error for weighted scoring without weights. */
  function RerankingArguments(c: MultipleRetrievalConfig)
    : (r: Result<(Option<RerankingModelConfig>, Option<WeightsConfig>)>)
    ensures r.Err? <==> c.rerankingMode == "weighted_score" && c.weights.None?
    ensures r.Ok? ==> r.value.1.Some? <==> c.rerankingMode == "weighted_score"
    ensures r.Ok? ==> r.value.0 == if c.rerankingMode == "reranking_model" then c.rerankingModel else None
    ensures r.Ok? && r.value.1.Some? ==> r.value.1 == c.weights
  {
    if c.rerankingMode == "reranking_model" then
      Ok((c.rerankingModel, None))
    else if c.rerankingMode == "weighted_score" then
      if c.weights.None? then Err(Error(ValueError, "weights is required"))
      else Ok((None, c.weights))
    else
      Ok((None, None))
  }

  /** The plan, or the first configuration error the branch raises. */
  function ResolveRetrieval(settings: RetrievalSettings, models: ModelRef -> ModelEnv): Result<RetrievalPlan> {
    if settings.retrievalMode == "single" then
      if settings.single.None? then Err(Error(ValueError, "single_retrieval_config is required"))
      else
        var modelRef := settings.single.value.model;
        var config :- GetModelConfig(modelRef, models(modelRef));
        Ok(SinglePlan(config, PlanningStrategyFor(config.schema)))
    else if settings.retrievalMode == "multiple" then
      if settings.multiple.None? then Err(Error(ValueError, "multiple_retrieval_config is required"))
      else
        var c := settings.multiple.value;
        var args :- RerankingArguments(c);
        Ok(MultiplePlan(
          c.topK,
          if c.scoreThreshold.Some? then c.scoreThreshold.value else 0.0,
          c.rerankingMode,
          args.0,
          args.1,
          c.rerankingEnable))
    else
      Ok(NoRetrieval)
  }

  /** A multiple-retrieval plan carries the configured top-k and reranking flag,
      the threshold or 0.0 when unset, and the reranking arguments. */
  lemma MultiplePlanArguments(settings: RetrievalSettings, models: ModelRef -> ModelEnv)
    requires settings.retrievalMode == "multiple" && settings.multiple.Some?
    ensures var c := settings.multiple.value;
            var r := ResolveRetrieval(settings, models);
            && (r.Ok? <==> RerankingArguments(c).Ok?)
            && (r.Ok? ==> r.value.MultiplePlan?
                          && r.value.topK == c.topK
                          && r.value.rerankingEnable == c.rerankingEnable
                          && r.value.rerankingMode == c.rerankingMode
                          && r.value.scoreThreshold == (if c.scoreThreshold.None? then 0.0 else c.scoreThreshold.value)
                          && (r.value.rerankingModel, r.value.weights) == RerankingArguments(c).value)
  {
  }

  /** Weighted scoring without weights is a configuration error, so no engine call is planned. */
  lemma WeightedScoreNeedsWeights(settings: RetrievalSettings, models: ModelRef -> ModelEnv)
    requires settings.retrievalMode == "multiple" && settings.multiple.Some?
    requires settings.multiple.value.rerankingMode == "weighted_score" && settings.multiple.value.weights.None?
    ensures ResolveRetrieval(settings, models) == Err(Error(ValueError, "weights is required"))
  {
  }

  /** A selected mode without its configuration raises before any model check. */
  lemma MissingConfigRaises(settings: RetrievalSettings, models: ModelRef -> ModelEnv)
    ensures settings.retrievalMode == "single" && settings.single.None? ==>
              ResolveRetrieval(settings, models) == Err(Error(ValueError, "single_retrieval_config is required"))
    ensures settings.retrievalMode == "multiple" && settings.multiple.None? ==>
              ResolveRetrieval(settings, models) == Err(Error(ValueError, "multiple_retrieval_config is required"))
  {
  }

  /** A single-retrieval plan exists exactly when its model passes the model
      checks, and then its strategy is Router iff the model can call tools. */
  lemma SinglePlanIff(settings: RetrievalSettings, models: ModelRef -> ModelEnv)
    requires settings.retrievalMode == "single"
    ensures var r := ResolveRetrieval(settings, models);
            && (r.Ok? <==> settings.single.Some? &&
                           GetModelConfig(settings.single.value.model, models(settings.single.value.model)).Ok?)
            && (r.Ok? ==> r.value.SinglePlan? &&
                          (r.value.planning == Router <==>
                             ToolCall in r.value.modelConfig.schema.features ||
                             MultiToolCall in r.value.modelConfig.schema.features))
  {
  }
}
