/** `get_llm_response_stream`: how a completion request is put together
    from the model name and the session's API keys, and in what order the
    resulting stream items are passed on. The provider SDK itself is a
    parameter: a function from the request to what the provider does. */
module Llm {
  import opened Common
  import opened Protocol

  const DefaultTemperature: real := 0.7
  const OllamaApiBase: string := "http://localhost:11434"

  /** The keyword arguments of the SDK call (the tool schemas, `tool_choice`
      "auto", `stream` and `stream_options` are the same on every call and
      are left implicit). */
  datatype StreamRequest = StreamRequest(
    model: string,
    messages: seq<Message>,
    temperature: real,
    maxTokens: Option<int>,
    apiBase: Option<string>,
    apiKey: Option<string>)

  /** Python truthiness of an optional key dict: present and non-empty. */
  predicate HasKeys(keys: Option<map<string, string>>)
  {
    keys.Some? && keys.value != map[]
  }

  /** `api_keys.get(provider)` */
  function KeyFor(keys: map<string, string>, provider: string): Option<string>
  {
    if provider in keys then Some(keys[provider]) else None
  }

  /** The session key: chosen by the first matching rule among OpenAI
      ("gpt-" anywhere or an "openai/" prefix), Anthropic ("claude-" anywhere
      or an "anthropic/" prefix) and Groq ("groq/" anywhere), and `None`
      when no rule matches or no keys were given. */
  function SessionApiKey(model: string, keys: Option<map<string, string>>): (k: Option<string>)
    ensures !HasKeys(keys) ==> k == None
    ensures HasKeys(keys) && (Contains(model, "gpt-") || StartsWith(model, "openai/")) ==>
              k == KeyFor(keys.value, "openai")
    ensures HasKeys(keys) && !(Contains(model, "gpt-") || StartsWith(model, "openai/")) &&
            (Contains(model, "claude-") || StartsWith(model, "anthropic/")) ==>
              k == KeyFor(keys.value, "anthropic")
    ensures HasKeys(keys) && !(Contains(model, "gpt-") || StartsWith(model, "openai/")) &&
            !(Contains(model, "claude-") || StartsWith(model, "anthropic/")) && Contains(model, "groq/") ==>
              k == KeyFor(keys.value, "groq")
    ensures k.Some? ==> exists p :: p in {"openai", "anthropic", "groq"} && k == KeyFor(keys.value, p)
  {
    if !HasKeys(keys) then None
    else if Contains(model, "gpt-") || StartsWith(model, "openai/") then KeyFor(keys.value, "openai")
    else if Contains(model, "claude-") || StartsWith(model, "anthropic/") then KeyFor(keys.value, "anthropic")
    else if Contains(model, "groq/") then KeyFor(keys.value, "groq")
    else None
  }

  /** `model.split('/')[0] if '/' in model else model`: the longest prefix
      of the model name without a '/'. */
  function ProviderName(model: string): (p: string)
    ensures StartsWith(model, p)
    ensures '/' !in p
    ensures p == model || model[|p|] == '/'
  {
    if model == [] || model[0] == '/' then [] else [model[0]] + ProviderName(model[1..])
  }

  /** Only Ollama models are pointed at the local server. */
  function ApiBase(model: string): (b: Option<string>)
    ensures b.Some? <==> StartsWith(model, "ollama/")
    ensures b.Some? ==> b.value == OllamaApiBase
  {
    if StartsWith(model, "ollama/") then Some(OllamaApiBase) else None
  }

  function BuildRequest(model: string, messages: seq<Message>, maxTokens: Option<int>, keys: Option<map<string, string>>): (r: StreamRequest)
    ensures r.model == model && r.messages == messages && r.temperature == DefaultTemperature
    ensures r.maxTokens.Some? <==> maxTokens.Some? && maxTokens.value != 0
    ensures r.maxTokens.Some? ==> r.maxTokens == maxTokens
    ensures r.apiBase == ApiBase(model) && r.apiKey == SessionApiKey(model, keys)
  {
    StreamRequest(model, messages, DefaultTemperature,
                  if maxTokens.Some? && maxTokens.value != 0 then maxTokens else None,
                  ApiBase(model), SessionApiKey(model, keys))
  }

  /** Why the provider call raised. */
  datatype Failure = AuthenticationError | OtherError(message: string)

  /** What the provider does with a request: stream some chunks and finish,
      its cost known (`None` when the post-stream cost calculation raised);
      or stream some chunks (possibly none: the call itself failed) and
      then raise. */
  datatype ProviderRun =
    | Completed(chunks: seq<Chunk>, cost: Option<real>)
    | Failed(chunks: seq<Chunk>, failure: Failure)

  /** The error dict's content for a failure. */
  function FailureMessage(model: string, f: Failure): string
  {
    match f
    case AuthenticationError => "Authentication failed for " + ProviderName(model) + ". Please set a valid API key in Settings."
    case OtherError(m) => "LLM Call Error: " + m
  }

  /** The items the generator yields for a provider run: every chunk,
      unchanged and in order; one error dict if and only if the provider
      raised; and last, always, one cost tuple, 0.0 on failure. */
  function ResponseItems(model: string, run: ProviderRun): (items: seq<StreamItem>)
    ensures |items| >= |run.chunks| + 1
    ensures forall k :: 0 <= k < |run.chunks| ==> items[k] == ChunkItem(run.chunks[k])
    ensures items[|items| - 1].CostItem?
    ensures forall k :: 0 <= k < |items| - 1 ==> !items[k].CostItem?
    ensures run.Failed? <==> exists k :: 0 <= k < |items| && items[k].ErrorItem?
    ensures run.Failed? ==> items[|items| - 2] == ErrorItem(FailureMessage(model, run.failure)) && items[|items| - 1] == CostItem(0.0)
    ensures run.Completed? ==> items[|items| - 1] == CostItem(if run.cost.Some? then run.cost.value else 0.0)
  {
    var chunks := seq(|run.chunks|, k requires 0 <= k < |run.chunks| => ChunkItem(run.chunks[k]));
    match run
    case Completed(_, cost) => chunks + [CostItem(if cost.Some? then cost.value else 0.0)]
    case Failed(_, f) =>
      var r := chunks + [ErrorItem(FailureMessage(model, f)), CostItem(0.0)];
      assert r[|r| - 2].ErrorItem?;
      r
  }

  /** The generator itself: builds the request, runs the provider, passes
      each chunk on as it arrives, then the error dict if the provider
      raised, then the cost. */
  method GetLlmResponseStream(model: string, messages: seq<Message>, maxTokens: Option<int>,
                              keys: Option<map<string, string>>, provider: StreamRequest -> ProviderRun)
    returns (items: seq<StreamItem>)
    ensures items == ResponseItems(model, provider(BuildRequest(model, messages, maxTokens, keys)))
  {
    var run := provider(BuildRequest(model, messages, maxTokens, keys));
    items := [];
    var i := 0;
    while i < |run.chunks|
      invariant 0 <= i <= |run.chunks|
      invariant items == seq(i, k requires 0 <= k < i => ChunkItem(run.chunks[k]))
    {
      items := items + [ChunkItem(run.chunks[i])];
      i := i + 1;
    }
    var cost := 0.0;
    if run.Failed? {
      items := items + [ErrorItem(FailureMessage(model, run.failure))];
    } else if run.cost.Some? {
      cost := run.cost.value;
    }
    items := items + [CostItem(cost)];
  }
}
