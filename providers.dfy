/** The provider clients: choosing one from a provider ID, the completion call, and OpenAI pricing. */
module Providers {
  import opened Wrappers
  import opened Text
  import opened Values
  import Config

  datatype Response = Response(text: string, cost: real, tokens: int, provider: string, model: string)

  /** The four vendors NewClient knows. */
  datatype Vendor = OpenAI | Anthropic | Mistral | Ollama
  {
    /** The vendor part of a provider ID, which is also what GetName returns. */
    function Name(): string {
      match this
      case OpenAI => "openai"
      case Anthropic => "anthropic"
      case Mistral => "mistral"
      case Ollama => "ollama"
    }

    /** The environment variable that must hold the vendor's API key. */
    function KeyVariable(): string {
      match this
      case OpenAI => "OPENAI_API_KEY"
      case Anthropic => "ANTHROPIC_API_KEY"
      case Mistral => "MISTRAL_API_KEY"
      case Ollama => "OLLAMA_API_KEY"
    }
  }

  /** A constructed client. Only the OpenAI one uses its key, to build the SDK client. */
  datatype Client = Client(vendor: Vendor, model: string, config: map<string, Value>, apiKey: string)
  {
    function GetName(): string {
      vendor.Name()
    }

    function GetModel(): string {
      model
    }
  }

  /** The vendor whose name is `name`, if any. */
  function VendorNamed(name: string): (r: Option<Vendor>)
    ensures r.Some? ==> r.value.Name() == name
    ensures r.None? ==> forall v: Vendor :: v.Name() != name
  {
    if name == "openai" then Some(OpenAI)
    else if name == "anthropic" then Some(Anthropic)
    else if name == "mistral" then Some(Mistral)
    else if name == "ollama" then Some(Ollama)
    else None
  }

  /** NewOpenAIClient, NewAnthropicClient, NewMistralClient and NewOllamaClient: each refuses to
      build a client when its key variable is unset or empty. `getenv` is os.Getenv. */
  function NewVendorClient(vendor: Vendor, model: string, config: map<string, Value>,
                           getenv: string -> string): (r: Result<Client, string>)
    ensures r.Ok? <==> getenv(vendor.KeyVariable()) != ""
    ensures r.Ok? ==> r.value == Client(vendor, model, config, getenv(vendor.KeyVariable()))
    ensures r.Err? ==> r.error == vendor.KeyVariable() + " environment variable not set"
  {
    var apiKey := getenv(vendor.KeyVariable());
    if apiKey == "" then Err(vendor.KeyVariable() + " environment variable not set")
    else Ok(Client(vendor, model, config, apiKey))
  }

  /** NewClient: split the ID at its first ':' into vendor and model and build that vendor's client. */
  function NewClient(p: Config.Provider, getenv: string -> string): (r: Result<Client, string>)
    ensures ':' !in p.id ==> r == Err("invalid provider ID format: " + p.id + " (expected provider:model)")
    ensures r.Ok? ==> r.value.GetName() + ":" + r.value.GetModel() == p.id
    ensures r.Ok? ==> r.value.config == p.config && getenv(r.value.vendor.KeyVariable()) != ""
  {
    match Cut(p.id, ':')
    case None => Err("invalid provider ID format: " + p.id + " (expected provider:model)")
    case Some((name, model)) =>
      match VendorNamed(name)
      case None => Err("unsupported provider: " + name)
      case Some(vendor) => NewVendorClient(vendor, model, p.config, getenv)
  }

  /** A provider ID written as vendor ':' model gives back that vendor and model whenever the
      key is set, whatever the model contains; with the key unset NewClient says which variable. */
  lemma NewClientOfId(vendor: Vendor, model: string, config: map<string, Value>, getenv: string -> string)
    ensures var r := NewClient(Config.Provider(vendor.Name() + ":" + model, config), getenv);
      && (getenv(vendor.KeyVariable()) != "" ==>
            r == Ok(Client(vendor, model, config, getenv(vendor.KeyVariable()))))
      && (getenv(vendor.KeyVariable()) == "" ==>
            r == Err(vendor.KeyVariable() + " environment variable not set"))
  {
    NameHasNoColon(vendor);
    CutAtFirst(vendor.Name(), ':', model);
  }

  lemma NameHasNoColon(vendor: Vendor)
    ensures ':' !in vendor.Name()
    ensures VendorNamed(vendor.Name()) == Some(vendor)
  {
  }

  /** An ID with a ':' whose vendor part is none of the four is reported as unsupported. */
  lemma NewClientUnsupported(p: Config.Provider, getenv: string -> string)
    requires ':' in p.id
    requires forall v: Vendor :: !HasPrefix(p.id, v.Name() + ":")
    ensures NewClient(p, getenv).Err?
    ensures exists name :: NewClient(p, getenv) == Err("unsupported provider: " + name) && ':' !in name
  {
    var c := Cut(p.id, ':');
    var name := c.value.0;
    assert p.id == name + [':'] + c.value.1;
    assert p.id[..|name| + 1] == name + ":";
  }

  // ---------------------------------------------------------------------------
  // Complete

  /** The chat request OpenAIClient.Complete sends. */
  datatype ChatRequest = ChatRequest(model: string, temperature: real, maxTokens: int, prompt: string)

  /** The parts of a chat completion response the client reads. */
  datatype ChatCompletion = ChatCompletion(
    choices: seq<string>,
    promptTokens: int,
    completionTokens: int,
    totalTokens: int)

  /** The request for `prompt`: temperature from a float `temperature` entry (default 0) and the
      token limit from an integer `max_tokens` entry (default 1000); entries of other types are ignored. */
  function RequestFor(c: Client, prompt: string): (req: ChatRequest)
    ensures req.model == c.model && req.prompt == prompt
    ensures req.temperature == (if "temperature" in c.config && c.config["temperature"].Float?
                                then c.config["temperature"].f else 0.0)
    ensures req.maxTokens == (if "max_tokens" in c.config && c.config["max_tokens"].Int?
                              then c.config["max_tokens"].i else 1000)
  {
    var temperature :=
      if "temperature" in c.config then
        match c.config["temperature"]
        case Float(f) => f
        case _ => 0.0
      else 0.0;
    var maxTokens :=
      if "max_tokens" in c.config then
        match c.config["max_tokens"]
        case Int(i) => i
        case _ => 1000
      else 1000;
    ChatRequest(c.model, temperature, maxTokens, prompt)
  }

  /** Complete. `chat` is the OpenAI chat-completion endpoint, called with the client's key;
      the other three vendors are not implemented and always fail. */
  function Complete(c: Client, prompt: string, chat: (string, ChatRequest) -> Result<ChatCompletion, string>)
    : (r: Result<Response, string>)
    ensures c.vendor == Anthropic ==> r == Err("Anthropic provider not yet implemented")
    ensures c.vendor == Mistral ==> r == Err("Mistral provider not yet implemented")
    ensures c.vendor == Ollama ==> r == Err("Ollama provider not yet implemented")
    ensures r.Ok? ==> c.vendor == OpenAI
    ensures r.Ok? ==>
      var answer := chat(c.apiKey, RequestFor(c, prompt));
      && answer.Ok? && |answer.value.choices| > 0
      && r.value.text == answer.value.choices[0]
      && r.value.cost == OpenAICost(c.model, answer.value.promptTokens, answer.value.completionTokens)
      && r.value.tokens == answer.value.totalTokens
      && r.value.provider == c.GetName() && r.value.model == c.GetModel()
    ensures c.vendor == OpenAI && r.Err? ==>
      var answer := chat(c.apiKey, RequestFor(c, prompt));
      if answer.Err? then r.error == "OpenAI API error: " + answer.error
      else answer.value.choices == [] && r.error == "no completion choices returned"
  {
    match c.vendor
    case Anthropic => Err("Anthropic provider not yet implemented")
    case Mistral => Err("Mistral provider not yet implemented")
    case Ollama => Err("Ollama provider not yet implemented")
    case OpenAI =>
      match chat(c.apiKey, RequestFor(c, prompt))
      case Err(e) => Err("OpenAI API error: " + e)
      case Ok(resp) =>
        if |resp.choices| == 0 then Err("no completion choices returned")
        else
          var cost := OpenAICost(c.model, resp.promptTokens, resp.completionTokens);
          Ok(Response(resp.choices[0], cost, resp.totalTokens, "openai", c.model))
  }

  // ---------------------------------------------------------------------------
  // calculateOpenAICost

  /** Dollars per prompt token and per completion token; models not listed pay gpt-3.5-turbo rates. */
  function Rates(model: string): (real, real) {
    if model == "gpt-4o" then (0.005 / 1000.0, 0.015 / 1000.0)
    else if model == "gpt-4" then (0.03 / 1000.0, 0.06 / 1000.0)
    else if model == "gpt-3.5-turbo" then (0.0005 / 1000.0, 0.0015 / 1000.0)
    else (0.0005 / 1000.0, 0.0015 / 1000.0)
  }

  /** calculateOpenAICost, on exact reals. */
  function OpenAICost(model: string, promptTokens: int, completionTokens: int): real {
    var (promptRate, completionRate) := Rates(model);
    promptTokens as real * promptRate + completionTokens as real * completionRate
  }

  /** Unknown models are priced exactly like gpt-3.5-turbo. */
  lemma UnknownModelPricedAsTurbo(model: string, promptTokens: int, completionTokens: int)
    requires model !in {"gpt-4o", "gpt-4", "gpt-3.5-turbo"}
    ensures OpenAICost(model, promptTokens, completionTokens) == OpenAICost("gpt-3.5-turbo", promptTokens, completionTokens)
  {
  }

  /** Every rate is positive, so the cost of a call never goes down as it uses more tokens. */
  lemma CostMonotone(model: string, p1: int, c1: int, p2: int, c2: int)
    requires p1 <= p2 && c1 <= c2
    ensures OpenAICost(model, p1, c1) <= OpenAICost(model, p2, c2)
  {
    var (pr, cr) := Rates(model);
    assert pr > 0.0 && cr > 0.0;
    assert p1 as real * pr <= p2 as real * pr;
    assert c1 as real * cr <= c2 as real * cr;
  }

  /** A call never costs less than nothing when its token counts are not negative. */
  lemma CostNonNegative(model: string, promptTokens: int, completionTokens: int)
    requires promptTokens >= 0 && completionTokens >= 0
    ensures OpenAICost(model, promptTokens, completionTokens) >= 0.0
  {
    CostMonotone(model, 0, 0, promptTokens, completionTokens);
    CostAdditive(model, 0, 0, 0, 0);
  }

  /** The cost of a call with no tokens is zero, and costs add up over token counts. */
  lemma CostAdditive(model: string, p1: int, c1: int, p2: int, c2: int)
    ensures OpenAICost(model, 0, 0) == 0.0
    ensures OpenAICost(model, p1 + p2, c1 + c2) == OpenAICost(model, p1, c1) + OpenAICost(model, p2, c2)
  {
    var (pr, cr) := Rates(model);
    assert (p1 + p2) as real * pr == p1 as real * pr + p2 as real * pr;
    assert (c1 + c2) as real * cr == c1 as real * cr + c2 as real * cr;
  }

  /** A thousand prompt and a thousand completion tokens on gpt-4 cost nine cents. */
  lemma Gpt4ThousandTokens()
    ensures OpenAICost("gpt-4", 1000, 1000) == 0.09
  {
  }
}
