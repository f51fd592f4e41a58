/** Provider and prompt dispatch of resume-evaluator/src/evaluators/chains.py:
    `get_model` looks a lower-cased provider name up in a registry of four chat-model
    classes, and `get_eval_chain` pairs that model with the JD or the CV prompt.
    The chat-model classes, prompt templates and JSON parser are foreign; a chain is
    represented by the arguments it is built from. */
module Chains {
  import opened Wrappers
  import opened PyText
  import opened PyJson
  import Evaluators

  /** The four chat-model classes of the registry. */
  datatype Provider = Groq | OpenAI | Anthropic | Ollama

  /** The registry key of each class. */
  function ProviderName(p: Provider): string {
    match p
    case Groq => "groq"
    case OpenAI => "openai"
    case Anthropic => "anthropic"
    case Ollama => "ollama"
  }

  /** `model_classes.get(key)` on the registry. */
  function Registry(key: string): (r: Option<Provider>)
    ensures r.Some? ==> ProviderName(r.value) == key
    ensures r.None? ==> forall p: Provider :: ProviderName(p) != key
  {
    if key == "groq" then Some(Groq)
    else if key == "openai" then Some(OpenAI)
    else if key == "anthropic" then Some(Anthropic)
    else if key == "ollama" then Some(Ollama)
    else None
  }

  /** `model_class(model=model_id, temperature=..., max_tokens=..., api_key=...)`. */
  datatype ChatModel = ChatModel(provider: Provider, modelId: string, temperature: real, maxTokens: int, apiKey: Option<string>)

  /** `get_model(model_text, model_id, temperature, max_tokens, api_key)`: the name is
      lower-cased, then looked up; an unknown name raises
      `ValueError(f"Invalid model text: {model_text}")` with the lower-cased text.
      The source's defaults are `temperature=0`, `max_tokens=2048`, `api_key=None`. */
  function GetModel(modelText: string, modelId: string, temperature: real, maxTokens: int, apiKey: Option<string>): (r: Result<ChatModel, PyError>)
    ensures r.Ok? <==> exists p: Provider :: ProviderName(p) == Lower(modelText)
    ensures r.Ok? ==> ProviderName(r.value.provider) == Lower(modelText)
    ensures r.Ok? ==> r.value == ChatModel(r.value.provider, modelId, temperature, maxTokens, apiKey)
    ensures r.Err? ==> r.error == ValueError("Invalid model text: " + Lower(modelText))
  {
    var key := Lower(modelText);
    match Registry(key)
    case None => Err(ValueError("Invalid model text: " + key))
    case Some(p) => assert ProviderName(p) == key; Ok(ChatModel(p, modelId, temperature, maxTokens, apiKey))
  }

  /** `config.TEMPERATURE` and `config.MAX_TOKENS`, read from the environment with the
      defaults 0.0 and 8192. */
  datatype Settings = Settings(temperature: real, maxTokens: int)

  const DefaultSettings := Settings(0.0, 8192)

  /** The two prompt templates; their text is constant and not part of this model. */
  datatype Template = JdTemplate | CvTemplate

  datatype Prompt = Prompt(inputVariables: seq<string>, template: Template)

  /** `eval_prompts.get(eval_type)`. */
  function EvalPrompt(evalType: string): (r: Option<Prompt>)
    ensures r.Some? <==> evalType == "jd" || evalType == "cv"
  {
    if evalType == "jd" then Some(Prompt(["job_description"], JdTemplate))
    else if evalType == "cv" then Some(Prompt(["job_requirements", "resume"], CvTemplate))
    else None
  }

  /** `eval_prompt | model | JsonOutputParser()`. */
  datatype Grader = Grader(prompt: Prompt, model: ChatModel)

  /** `get_eval_chain(model_text, model_id, api_key, eval_type)`: the model is built
      first, so an unknown provider is reported even when `eval_type` is unknown too;
      the returned name is the lower-cased provider name, not `model_id`. */
  function GetEvalChain(modelText: string, modelId: string, apiKey: Option<string>, evalType: string, settings: Settings): (r: Result<(string, Grader), PyError>)
    ensures r.Ok? <==> (exists p: Provider :: ProviderName(p) == Lower(modelText)) && (evalType == "jd" || evalType == "cv")
    ensures r.Err? && !(exists p: Provider :: ProviderName(p) == Lower(modelText)) ==>
      r.error == ValueError("Invalid model text: " + Lower(modelText))
    ensures r.Err? && (exists p: Provider :: ProviderName(p) == Lower(modelText)) ==>
      r.error == ValueError("Invalid type")
    ensures r.Ok? ==> r.value.0 == Lower(modelText) && ProviderName(r.value.1.model.provider) == r.value.0
    ensures r.Ok? ==> r.value.1.model == ChatModel(r.value.1.model.provider, modelId, settings.temperature, settings.maxTokens, apiKey)
    ensures r.Ok? ==> (r.value.1.prompt.template == JdTemplate <==> evalType == "jd")
  {
    var name := Lower(modelText);
    LowerIdempotent(modelText);
    var model :- GetModel(name, modelId, settings.temperature, settings.maxTokens, apiKey);
    match EvalPrompt(evalType)
    case None => Err(ValueError("Invalid type"))
    case Some(prompt) => Ok((name, Grader(prompt, model)))
  }

  /** The provider name is case-insensitive: names that lower-case alike build the same chain. */
  lemma {:induction false} GetEvalChainCaseInsensitive(a: string, b: string, modelId: string, apiKey: Option<string>, evalType: string, settings: Settings)
    requires |a| == |b| && forall i :: 0 <= i < |a| ==> LowerChar(a[i]) == LowerChar(b[i])
    ensures GetEvalChain(a, modelId, apiKey, evalType, settings) == GetEvalChain(b, modelId, apiKey, evalType, settings)
  {
    assert Lower(a) == Lower(b);
  }

  /** Every registry key is accepted and selects its own provider, and so is any text
      that lower-cases to it ("GROQ", "OpenAI"). */
  lemma ProviderNameAccepted(p: Provider, s: string, modelId: string, temperature: real, maxTokens: int, apiKey: Option<string>)
    ensures GetModel(ProviderName(p), modelId, temperature, maxTokens, apiKey).Ok?
    ensures GetModel(ProviderName(p), modelId, temperature, maxTokens, apiKey).value.provider == p
    ensures Lower(s) == ProviderName(p) ==>
      (GetModel(s, modelId, temperature, maxTokens, apiKey).Ok? &&
       GetModel(s, modelId, temperature, maxTokens, apiKey).value.provider == p)
  {
    assert Lower(ProviderName(p)) == ProviderName(p);
  }

  /** The prompt's input variables are exactly the keys of the payload the matching
      evaluator stage sends to its chain. */
  function PayloadKeys(p: Evaluators.Payload): seq<string> {
    match p
    case JdPayload(_) => ["job_description"]
    case CvPayload(_, _) => ["job_requirements", "resume"]
  }

  lemma PromptMatchesPayload(evalType: string, stage: Evaluators.Stage)
    requires evalType == (if stage.JdStage? then "jd" else "cv")
    ensures EvalPrompt(evalType).Some?
    ensures EvalPrompt(evalType).value.inputVariables == PayloadKeys(Evaluators.StagePayload(stage))
  {
  }
}
