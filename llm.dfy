/**
 The report-generation front end of GitHubSentinel (src/llm.py): the `LLM`
 class picks one of two text-generation backends, "openai" (a cloud chat
 completion API) or "ollama" (a local HTTP inference server), once, at
 construction, and `generate_report` sends a two-message chat request to that
 backend and extracts the report from its reply.

 The two transports are foreign and appear here as function parameters:
 `create` stands for `client.chat.completions.create(model=..., messages=...)`
 and `post` for `requests.post(url, json=payload)` followed by `.json()`.
 Every report generation returns an `Outcome`: the result the Python code
 returns or raises, and the trace of outbound calls it made.
 */
module Llm {
  import opened Wrappers
  import opened Json
  import opened Text

  const OpenAIKind := "openai"
  const OllamaKind := "ollama"
  /** The fixed generation parameters of the Ollama payload. */
  const MaxTokens := 4000
  const Temperature := JNumber(7, -1)

  /** The configuration attributes the class reads. */
  datatype Config = Config(
    llmModelType: string,
    openaiModelName: string,
    ollamaModelName: string,
    ollamaApiUrl: string)

  /** One `{"role": ..., "content": ...}` chat message. */
  datatype Message = Message(role: string, content: string)

  /** What a transport library raised (a refused connection, an HTTP or API
      error), carried to the caller unchanged. */
  datatype TransportError = TransportError(description: string)

  /** The exceptions the class raises or lets through. */
  datatype Error =
    | UnsupportedModel(model: string)   // ValueError: unsupported model type
    | InvalidResponse                   // ValueError: no truthy message.content in the Ollama reply
    | NotAnObject                       // AttributeError: `.get` applied to a decoded non-dict
    | MalformedJson                     // the Ollama reply body is not JSON
    | NoChoices                         // IndexError: `response.choices[0]` on no choices
    | Transport(cause: TransportError)  // raised by the SDK or by requests, re-raised as is

  /** The OpenAI client handle; the SDK object itself is foreign. */
  datatype OpenAIClient = OpenAIClient

  /** The part of a chat completion the class reads: `choices[i].message.content`,
      which the SDK types as an optional string. */
  datatype ChatMessage = ChatMessage(content: Option<string>)
  datatype Choice = Choice(message: ChatMessage)
  datatype Completion = Completion(choices: seq<Choice>)

  /** An HTTP reply from the Ollama server: its status code and its body as
      `response.json()` decodes it (`None` when the body is not JSON). */
  datatype HttpReply = HttpReply(status: int, body: Option<Json>)

  /** An outbound call: a chat completion request, or an HTTP POST. */
  datatype Call =
    | ChatCompletion(model: string, messages: seq<Message>)
    | HttpPost(url: string, payload: Json)

  datatype Outcome = Outcome(result: Result<Json, Error>, calls: seq<Call>)

  predicate Supported(model: string) {
    model == OpenAIKind || model == OllamaKind
  }

  /** The kind check of `__init__`: the configured type, lower-cased, must be
      "openai" or "ollama", in any mix of letter case. */
  function ResolveModel(llmModelType: string): (r: Result<string, Error>)
    ensures r.Ok? <==> CaseVariant(llmModelType, OpenAIKind) || CaseVariant(llmModelType, OllamaKind)
    ensures r.Ok? ==> r.value == Lower(llmModelType) && Supported(r.value)
    ensures r.Err? ==> r.error == UnsupportedModel(Lower(llmModelType)) && !Supported(Lower(llmModelType))
  {
    LowerIsIff(llmModelType, OpenAIKind);
    LowerIsIff(llmModelType, OllamaKind);
    var model := Lower(llmModelType);
    if Supported(model) then Ok(model) else Err(UnsupportedModel(model))
  }

  /** The request of `generate_report`: the system prompt, then the user content. */
  function BuildMessages(systemPrompt: string, userContent: string): (ms: seq<Message>)
    ensures |ms| == 2
    ensures ms[0].role == "system" && ms[0].content == systemPrompt
    ensures ms[1].role == "user" && ms[1].content == userContent
  {
    [Message("system", systemPrompt), Message("user", userContent)]
  }

  // ----- JSON encoding of the request, and the server's reading of it -----

  function MessageToJson(m: Message): Json {
    JObject(map["role" := JString(m.role), "content" := JString(m.content)])
  }

  function MessagesToJson(ms: seq<Message>): (items: seq<Json>)
    ensures |items| == |ms|
    ensures forall i :: 0 <= i < |ms| ==> items[i] == MessageToJson(ms[i])
  {
    if ms == [] then [] else [MessageToJson(ms[0])] + MessagesToJson(ms[1..])
  }

  /** The payload of `_generate_report_ollama`. */
  function OllamaPayload(modelName: string, messages: seq<Message>): (p: Json)
    ensures p.JObject? && p.fields.Keys == {"model", "messages", "max_tokens", "temperature", "stream"}
  {
    JObject(map[
      "model" := JString(modelName),
      "messages" := JArray(MessagesToJson(messages)),
      "max_tokens" := JNumber(MaxTokens, 0),
      "temperature" := Temperature,
      "stream" := JBool(false)])
  }

  /** What a server reads out of a chat request body. */
  datatype OllamaRequest = OllamaRequest(
    model: string,
    messages: seq<Message>,
    maxTokens: int,
    temperature: Json,
    stream: bool)

  function MessageFromJson(j: Json): Option<Message> {
    if j.JObject? && "role" in j.fields && j.fields["role"].JString?
       && "content" in j.fields && j.fields["content"].JString?
    then Some(Message(j.fields["role"].s, j.fields["content"].s))
    else None
  }

  function MessagesFromJson(items: seq<Json>): Option<seq<Message>> {
    if items == [] then Some([])
    else match (MessageFromJson(items[0]), MessagesFromJson(items[1..]))
      case (Some(m), Some(rest)) => Some([m] + rest)
      case _ => None
  }

  function ReadOllamaRequest(p: Json): Option<OllamaRequest> {
    if p.JObject?
       && "model" in p.fields && p.fields["model"].JString?
       && "messages" in p.fields && p.fields["messages"].JArray?
       && MessagesFromJson(p.fields["messages"].items).Some?
       && "max_tokens" in p.fields && p.fields["max_tokens"].JNumber?
       && p.fields["max_tokens"].exponent == 0
       && "temperature" in p.fields
       && "stream" in p.fields && p.fields["stream"].JBool?
    then Some(OllamaRequest(
      p.fields["model"].s,
      MessagesFromJson(p.fields["messages"].items).value,
      p.fields["max_tokens"].mantissa,
      p.fields["temperature"],
      p.fields["stream"].b))
    else None
  }

  /** The messages survive their JSON encoding unchanged and in order. */
  lemma {:induction false} MessagesRoundTrip(ms: seq<Message>)
    ensures MessagesFromJson(MessagesToJson(ms)) == Some(ms)
  {
    if ms != [] {
      MessagesRoundTrip(ms[1..]);
      assert MessagesToJson(ms)[1..] == MessagesToJson(ms[1..]);
      assert ms == [ms[0]] + ms[1..];
    }
  }

  /** A server reading the Ollama payload finds the configured model name,
      the very messages, 4000 output tokens, temperature 0.7 and no streaming. */
  lemma OllamaPayloadRoundTrip(modelName: string, messages: seq<Message>)
    ensures ReadOllamaRequest(OllamaPayload(modelName, messages))
            == Some(OllamaRequest(modelName, messages, 4000, JNumber(7, -1), false))
  {
    MessagesRoundTrip(messages);
  }

  // ----- Reading the replies -----

  /** The reply shape the Ollama extraction accepts: a dict whose "message" is
      a dict whose "content" is truthy. */
  predicate HasTruthyContent(body: Json) {
    && body.JObject?
    && "message" in body.fields
    && body.fields["message"].JObject?
    && "content" in body.fields["message"].fields
    && Truthy(body.fields["message"].fields["content"])
  }

  /** `response_data.get("message", {}).get("content", None)` followed by the
      truthiness test. */
  function ExtractMessageContent(body: Json): (r: Result<Json, Error>)
    ensures r.Ok? <==> HasTruthyContent(body)
    ensures r.Ok? ==> r.value == body.fields["message"].fields["content"]
    ensures r.Err? ==> r.error == NotAnObject || r.error == InvalidResponse
    ensures r == Err(NotAnObject) <==>
              !body.JObject? || ("message" in body.fields && !body.fields["message"].JObject?)
  {
    if !body.JObject? then Err(NotAnObject)
    else
      var message := Get(body.fields, "message", JObject(map[]));
      if !message.JObject? then Err(NotAnObject)
      else
        var content := Get(message.fields, "content", JNull);
        if Truthy(content) then Ok(content) else Err(InvalidResponse)
  }

  /** The reply body an Ollama server sends for a chat answer `content`. */
  function OllamaReplyBody(content: Json): Json {
    JObject(map["message" := JObject(map["role" := JString("assistant"), "content" := content])])
  }

  /** An answer comes back out of its reply body exactly when it is truthy. */
  lemma ExtractReplyRoundTrip(content: Json)
    ensures Truthy(content) ==> ExtractMessageContent(OllamaReplyBody(content)) == Ok(content)
    ensures !Truthy(content) ==> ExtractMessageContent(OllamaReplyBody(content)) == Err(InvalidResponse)
  {
  }

  /** Each way of lacking a usable content is the "invalid response" error,
      whatever other keys the reply and its message carry. */
  lemma ExtractionFailures(other: map<string, Json>, mf: map<string, Json>)
    ensures "message" !in other ==> ExtractMessageContent(JObject(other)) == Err(InvalidResponse)
    ensures "content" !in mf ==>
              ExtractMessageContent(JObject(other["message" := JObject(mf)])) == Err(InvalidResponse)
    ensures ExtractMessageContent(JObject(other["message" := JObject(mf["content" := JNull])]))
            == Err(InvalidResponse)
    ensures ExtractMessageContent(JObject(other["message" := JObject(mf["content" := JString("")])]))
            == Err(InvalidResponse)
  {
  }

  /** `response.choices[0].message.content`: the SDK's `None` content is
      returned as `None`. */
  function ContentValue(content: Option<string>): Json {
    match content
    case Some(s) => JString(s)
    case None => JNull
  }

  function ReadCompletion(c: Completion): (r: Result<Json, Error>)
    ensures r.Ok? <==> c.choices != []
    ensures r.Ok? ==> r.value == ContentValue(c.choices[0].message.content)
    ensures r.Err? ==> r.error == NoChoices
  {
    if c.choices == [] then Err(NoChoices) else Ok(ContentValue(c.choices[0].message.content))
  }

  /** The first choice's content is the report, whatever follows it, and it is
      returned even when it is empty or missing. */
  lemma FirstChoiceWins(content: Option<string>, rest: seq<Choice>)
    ensures ReadCompletion(Completion([Choice(ChatMessage(content))] + rest)) == Ok(ContentValue(content))
    ensures ReadCompletion(Completion([Choice(ChatMessage(Some(""))), Choice(ChatMessage(Some("X")))]))
            == Ok(JString(""))
  {
  }

  // ----- The class -----

  class LLM {
    const config: Config
    /** The lower-cased configured kind. */
    const model: string
    /** Set by the "openai" branch of the constructor only. */
    const client: Option<OpenAIClient>
    /** Set by the "ollama" branch of the constructor only. */
    const apiUrl: Option<string>

    /** What construction establishes: the model is the lower-cased kind, it
        is one of the two backends, and the handle of that backend alone is set. */
    ghost predicate Valid() {
      && ResolveModel(config.llmModelType) == Ok(model)
      && (model == OpenAIKind ==> client == Some(OpenAIClient) && apiUrl == None)
      && (model == OllamaKind ==> apiUrl == Some(config.ollamaApiUrl) && client == None)
    }

    constructor (config: Config)
      requires ResolveModel(config.llmModelType).Ok?
      ensures Valid() && this.config == config
    {
      this.config := config;
      model := Lower(config.llmModelType);
      if Lower(config.llmModelType) == OpenAIKind {
        client := Some(OpenAIClient);
        apiUrl := None;
      } else {
        client := None;
        apiUrl := Some(config.ollamaApiUrl);
      }
    }

    /** `LLM(config)`: builds the object, or raises the unsupported-model
        error, so that no object exists with any other kind. */
    static method New(config: Config) returns (r: Result<LLM, Error>)
      ensures r.Ok? <==> CaseVariant(config.llmModelType, OpenAIKind) || CaseVariant(config.llmModelType, OllamaKind)
      ensures r.Ok? ==> fresh(r.value) && r.value.Valid() && r.value.config == config
      ensures r.Ok? ==> r.value.model == Lower(config.llmModelType) && Supported(r.value.model)
      ensures r.Err? ==> r.error == UnsupportedModel(Lower(config.llmModelType))
    {
      var resolved := ResolveModel(config.llmModelType);
      if resolved.Ok? {
        var llm := new LLM(config);
        r := Ok(llm);
      } else {
        r := Err(resolved.error);
      }
    }

    /** `_generate_report_openai`: one completion request with the configured
        OpenAI model name; the first choice's content, or the error unchanged. */
    function GenerateReportOpenAI(messages: seq<Message>,
                                  create: (string, seq<Message>) -> Result<Completion, TransportError>): (r: Outcome)
      ensures r.calls == [ChatCompletion(config.openaiModelName, messages)]
      ensures var reply := create(config.openaiModelName, messages);
              && (reply.Err? ==> r.result == Err(Transport(reply.error)))
              && (reply.Ok? ==> r.result == ReadCompletion(reply.value))
    {
      var reply := create(config.openaiModelName, messages);
      match reply
      case Err(e) => Outcome(Err(Transport(e)), [ChatCompletion(config.openaiModelName, messages)])
      case Ok(completion) => Outcome(ReadCompletion(completion), [ChatCompletion(config.openaiModelName, messages)])
    }

    /** `_generate_report_ollama`: one POST of the payload to the configured
        URL; the reply's truthy `message.content`, or an error. The status code
        is never consulted. */
    function GenerateReportOllama(messages: seq<Message>,
                                  post: (string, Json) -> Result<HttpReply, TransportError>): (r: Outcome)
      requires apiUrl.Some?
      ensures r.calls == [HttpPost(apiUrl.value, OllamaPayload(config.ollamaModelName, messages))]
      ensures var reply := post(apiUrl.value, OllamaPayload(config.ollamaModelName, messages));
              && (reply.Err? ==> r.result == Err(Transport(reply.error)))
              && (reply.Ok? && reply.value.body.None? ==> r.result == Err(MalformedJson))
              && (reply.Ok? && reply.value.body.Some? ==> r.result == ExtractMessageContent(reply.value.body.value))
      ensures r.result.Ok? ==> Truthy(r.result.value)
    {
      var payload := OllamaPayload(config.ollamaModelName, messages);
      var call := HttpPost(apiUrl.value, payload);
      match post(apiUrl.value, payload)
      case Err(e) => Outcome(Err(Transport(e)), [call])
      case Ok(HttpReply(_, None)) => Outcome(Err(MalformedJson), [call])
      case Ok(HttpReply(_, Some(body))) => Outcome(ExtractMessageContent(body), [call])
    }

    /** `generate_report`: builds the two messages and hands them to the
        backend chosen at construction, and to it alone, exactly once. */
    function GenerateReport(systemPrompt: string, userContent: string,
                            create: (string, seq<Message>) -> Result<Completion, TransportError>,
                            post: (string, Json) -> Result<HttpReply, TransportError>): (r: Outcome)
      requires Valid()
      ensures |r.calls| == 1
      ensures model == OpenAIKind ==>
                r.calls[0] == ChatCompletion(config.openaiModelName, BuildMessages(systemPrompt, userContent))
      ensures model == OllamaKind ==>
                r.calls[0] == HttpPost(config.ollamaApiUrl, OllamaPayload(config.ollamaModelName, BuildMessages(systemPrompt, userContent)))
      ensures model == OpenAIKind ==> r == GenerateReportOpenAI(BuildMessages(systemPrompt, userContent), create)
      ensures model == OllamaKind ==> r == GenerateReportOllama(BuildMessages(systemPrompt, userContent), post)
      ensures r.result.Err? ==> !r.result.error.UnsupportedModel?
    {
      var messages := BuildMessages(systemPrompt, userContent);
      if model == OpenAIKind then GenerateReportOpenAI(messages, create)
      else if model == OllamaKind then GenerateReportOllama(messages, post)
      else Outcome(Err(UnsupportedModel(model)), [])
    }
  }

  // ----- Properties of report generation -----

  /** The backend not chosen at construction is never consulted: replacing its
      transport changes nothing, so there is no fallback to it. */
  lemma NoFallback(llm: LLM, systemPrompt: string, userContent: string,
                   create1: (string, seq<Message>) -> Result<Completion, TransportError>,
                   create2: (string, seq<Message>) -> Result<Completion, TransportError>,
                   post1: (string, Json) -> Result<HttpReply, TransportError>,
                   post2: (string, Json) -> Result<HttpReply, TransportError>)
    requires llm.Valid()
    ensures llm.model == OpenAIKind ==>
              llm.GenerateReport(systemPrompt, userContent, create1, post1)
              == llm.GenerateReport(systemPrompt, userContent, create1, post2)
    ensures llm.model == OllamaKind ==>
              llm.GenerateReport(systemPrompt, userContent, create1, post1)
              == llm.GenerateReport(systemPrompt, userContent, create2, post1)
  {
  }

  /** When the chosen backend's transport raises on the request, the caller
      gets that same error, never a report. */
  lemma ErrorsPropagate(llm: LLM, systemPrompt: string, userContent: string,
                        create: (string, seq<Message>) -> Result<Completion, TransportError>,
                        post: (string, Json) -> Result<HttpReply, TransportError>)
    requires llm.Valid()
    ensures var reply := create(llm.config.openaiModelName, BuildMessages(systemPrompt, userContent));
            llm.model == OpenAIKind && reply.Err? ==>
              llm.GenerateReport(systemPrompt, userContent, create, post).result == Err(Transport(reply.error))
    ensures var reply := post(llm.config.ollamaApiUrl,
                              OllamaPayload(llm.config.ollamaModelName, BuildMessages(systemPrompt, userContent)));
            llm.model == OllamaKind && reply.Err? ==>
              llm.GenerateReport(systemPrompt, userContent, create, post).result == Err(Transport(reply.error))
  {
  }

  /** The Ollama path does not look at the HTTP status: any reply body
      carrying a truthy `message.content`, next to whatever other keys, gives
      that content as the report whatever the status, 500 included. */
  lemma OllamaIgnoresStatus(llm: LLM, systemPrompt: string, userContent: string,
                            create: (string, seq<Message>) -> Result<Completion, TransportError>,
                            post: (string, Json) -> Result<HttpReply, TransportError>,
                            status: int, body: Json)
    requires llm.Valid() && llm.model == OllamaKind && HasTruthyContent(body)
    requires post(llm.config.ollamaApiUrl,
                  OllamaPayload(llm.config.ollamaModelName, BuildMessages(systemPrompt, userContent)))
             == Ok(HttpReply(status, Some(body)))
    ensures llm.GenerateReport(systemPrompt, userContent, create, post).result
            == Ok(body.fields["message"].fields["content"])
  {
  }

  /** A completion whose first choice holds a text yields exactly that text,
      whatever choices follow it. */
  lemma OpenAIReport(llm: LLM, systemPrompt: string, userContent: string,
                     create: (string, seq<Message>) -> Result<Completion, TransportError>,
                     post: (string, Json) -> Result<HttpReply, TransportError>,
                     report: string, rest: seq<Choice>)
    requires llm.Valid() && llm.model == OpenAIKind
    requires create(llm.config.openaiModelName, BuildMessages(systemPrompt, userContent))
             == Ok(Completion([Choice(ChatMessage(Some(report)))] + rest))
    ensures llm.GenerateReport(systemPrompt, userContent, create, post).result == Ok(JString(report))
  {
  }

  /** "OpenAI" and "OLLAMA" are accepted; other names are refused. */
  lemma KindExamples()
    ensures ResolveModel("OpenAI") == Ok("openai")
    ensures ResolveModel("OLLAMA") == Ok("ollama")
    ensures ResolveModel("gpt-4").Err?
    ensures ResolveModel("").Err?
    ensures ResolveModel("open ai").Err?
  {
    assert Lower("OpenAI") == "openai";
    assert Lower("OLLAMA") == "ollama";
  }
}
