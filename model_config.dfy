/** The model checks of `get_model_config`: the provider's entry for the model
    and its status, the required mode, and the model schema, each failing with
    its own exception class. The model manager itself is a given lookup. */
module ModelConfig {
  import opened Common

  datatype ModelStatus = NoConfigure | NoPermission | QuotaExceeded | OtherStatus(name: string)

  /** The provider's configuration entry for a model. */
  datatype ProviderModel = ProviderModel(status: ModelStatus)

  datatype ModelFeature = ToolCall | MultiToolCall | OtherFeature(name: string)

  datatype ModelSchema = ModelSchema(features: seq<ModelFeature>)

  /** A model as the node's configuration names it. */
  datatype ModelRef = ModelRef(provider: string, name: string, mode: string)

  /** What the model manager reports about a model. */
  datatype ModelEnv = ModelEnv(providerModel: Option<ProviderModel>, schema: Option<ModelSchema>)

  /** The checked configuration handed on to the retrieval and LLM calls. */
  datatype ModelConfigWithCredentials = ModelConfigWithCredentials(
    provider: string, model: string, mode: string, schema: ModelSchema)

  function GetModelConfig(model: ModelRef, env: ModelEnv): (r: Result<ModelConfigWithCredentials>)
    ensures r.Ok? ==> r.value.provider == model.provider && r.value.model == model.name
                      && r.value.mode == model.mode && Some(r.value.schema) == env.schema
  {
    if env.providerModel.None? then
      Err(Error(ModelNotExistError, "Model " + model.name + " not exist."))
    else if env.providerModel.value.status == NoConfigure then
      Err(Error(ModelCredentialsNotInitializedError, "Model " + model.name + " credentials is not initialized."))
    else if env.providerModel.value.status == NoPermission then
      Err(Error(ModelNotSupportedError, "Dify Hosted OpenAI " + model.name + " currently not support."))
    else if env.providerModel.value.status == QuotaExceeded then
      Err(Error(ModelQuotaExceededError, "Model provider " + model.provider + " quota exceeded."))
    else if model.mode == "" then
      Err(Error(ModelNotExistError, "LLM mode is required."))
    else if env.schema.None? then
      Err(Error(ModelNotExistError, "Model " + model.name + " not exist."))
    else
      Ok(ModelConfigWithCredentials(model.provider, model.name, model.mode, env.schema.value))
  }

  /** The configuration is usable exactly when the provider knows the model, its
      status is none of the three blocking ones, a mode is set and a schema exists. */
  lemma ModelConfigOkIff(model: ModelRef, env: ModelEnv)
    ensures GetModelConfig(model, env).Ok? <==>
            && env.providerModel.Some?
            && env.providerModel.value.status !in {NoConfigure, NoPermission, QuotaExceeded}
            && model.mode != ""
            && env.schema.Some?
  {
  }

  /** Each blocking status is reported with its own error kind. */
  lemma StatusErrorKinds(model: ModelRef, env: ModelEnv)
    requires env.providerModel.Some?
    ensures var r := GetModelConfig(model, env);
            && (env.providerModel.value.status == NoConfigure ==>
                  r.Err? && r.error.kind == ModelCredentialsNotInitializedError)
            && (env.providerModel.value.status == NoPermission ==>
                  r.Err? && r.error.kind == ModelNotSupportedError)
            && (env.providerModel.value.status == QuotaExceeded ==>
                  r.Err? && r.error.kind == ModelQuotaExceededError)
  {
  }
}
