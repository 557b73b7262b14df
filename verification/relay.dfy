/**
 * The serverless relay (netlify/functions/generate.js): one request handler
 * that validates the request, builds a chat-completion request from the
 * submitted words, and maps the upstream answer onto a response envelope.
 *
 * The handler is a function of the request event, the configured API key and
 * the upstream outcome. It returns the response together with the upstream
 * request it sent, if it got that far. JSON bodies are the values that
 * `JSON.parse` produces; a body that does not parse is an `Err` with the
 * parser's message.
 */
module Relay {
  import opened Wrappers
  import opened JsStrings
  import opened JsValues
  import opened Http

  const MethodNotAllowedMessage: string := "Method Not Allowed"
  const MissingKeyMessage: string := "OPENAI_API_KEY is missing"
  const MissingKeyDetail: string := "Please set OPENAI_API_KEY in your .env file"
  const InvalidWordsMessage: string := "Invalid input: words must be a non-empty array."
  const UpstreamFallbackMessage: string := "OpenAI API request failed"
  const GenericFailureMessage: string := "Failed to generate diary entry."

  const UpstreamUrl: string := "https://api.openai.com/v1/chat/completions"
  const ChatModel: string := "gpt-3.5-turbo"
  const SystemContent: string := "指定された単語を自然に使った日本語の日記を書くアシスタントです。"
  const MaxTokens: nat := 300
  const WordSeparator: char := '、'

  /** V8's TypeError for `const { words } = JSON.parse(...)` when the parsed value is null or undefined. */
  function DestructureError(parsed: JsValue): string
    requires IsNullish(parsed)
  {
    "Cannot destructure property 'words' of 'JSON.parse(...)' as it is " + Display(parsed) + "."
  }

  /** The incoming call: its method and the outcome of `JSON.parse(event.body)`. */
  datatype Event = Event(httpMethod: string, body: Result<JsValue, string>)

  datatype ChatMessage = ChatMessage(role: string, content: string)

  /** The POST the relay sends upstream (the sampling temperature is not modelled). */
  datatype ChatRequest = ChatRequest(
    url: string,
    authorization: string,
    model: string,
    messages: seq<ChatMessage>,
    maxTokens: nat)

  /**
   * What came back from upstream: `fetch` rejected with a message, or a reply
   * with its status and the outcome of `response.json()`.
   */
  datatype Upstream =
    | Unreachable(message: string)
    | Replied(status: int, data: Result<JsValue, string>)

  /** The handler's `{statusCode, headers, body}`; `body` is the value the JSON text encodes. */
  datatype Response = Response(statusCode: int, contentType: Option<string>, body: JsValue)

  /** A handler invocation: its response and the upstream request, if one was sent. */
  datatype Run = Run(response: Response, sent: Option<ChatRequest>)

  /** `if (!apiKey)` fails for an unset or empty variable. */
  predicate KeyPresent(apiKey: Option<string>) {
    apiKey.Some? && apiKey.value != ""
  }

  function ErrorEnvelope(error: JsValue): JsValue {
    Obj(map["error" := error])
  }

  function DetailedEnvelope(error: JsValue, detail: JsValue): JsValue {
    Obj(map["error" := error, "detail" := detail])
  }

  /** The 500 the catch block returns for any exception raised inside the try. */
  function Failure(message: string): Response {
    Response(500, None, DetailedEnvelope(Str(GenericFailureMessage), Str(message)))
  }

  /**
   * The user instruction: the word count, then the words joined by '、'. The
   * `join` throws on words without a primitive form, which `Try` checks first.
   */
  function Prompt(words: seq<JsValue>): string
    requires Convertible(Arr(words))
  {
    "以下の" + Display(Num(|words|)) + "個の単語を使って、自然な日本語の日記を書いてください。\n単語: "
    + JoinValues(words, [WordSeparator]) + "\n\n日記:"
  }

  function BuildRequest(apiKey: string, words: seq<JsValue>): ChatRequest
    requires Convertible(Arr(words))
  {
    ChatRequest(
      UpstreamUrl,
      "Bearer " + apiKey,
      ChatModel,
      [ChatMessage("system", SystemContent), ChatMessage("user", Prompt(words))],
      MaxTokens)
  }

  /** `x?.key || fallback` for a value `x` read from a parsed JSON body. */
  function FieldOr(x: JsValue, key: string, fallback: string): (r: JsValue)
    ensures Truthy(r)  || r == Str(fallback)
    ensures !IsNullish(x) && Truthy(Prop(x, key)) ==> r == Prop(x, key)
    ensures (IsNullish(x) || !Truthy(Prop(x, key))) ==> r == Str(fallback)
  {
    var v := if IsNullish(x) then Undefined else Prop(x, key);
    if Truthy(v) then v else Str(fallback)
  }

  /** The upstream error normalised: its status kept, `error.message` and `error.type` carried over. */
  function UpstreamError(status: int, data: JsValue): Result<Response, string> {
    match Get(data, "error")
    case Err(m) => Err(m)
    case Ok(e) =>
      Ok(Response(status, None,
        DetailedEnvelope(FieldOr(e, "message", UpstreamFallbackMessage), FieldOr(e, "type", ""))))
  }

  /** `content.trim()`: a TypeError when `content` is not a string. */
  function TrimContent(content: JsValue): Result<string, string> {
    match content
    case Str(s) => Ok(Trim(s))
    case Undefined => Err(ReadError(content, "trim"))
    case Null => Err(ReadError(content, "trim"))
    case _ => Err("data.choices[0].message.content.trim is not a function")
  }

  /** `choices[0].message.content.trim()`, or "" when choices, the first choice or its message is missing. */
  function ExtractText(data: JsValue): Result<string, string> {
    match Get(data, "choices")
    case Err(m) => Err(m)
    case Ok(choices) =>
      if !Truthy(choices) then Ok("")
      else
        var first := First(choices);
        if !Truthy(first) then Ok("")
        else
          var message := Prop(first, "message");
          if !Truthy(message) then Ok("")
          else TrimContent(Prop(message, "content"))
  }

  function Success(text: string): Response {
    Response(200, Some(JsonType), Obj(map["text" := Str(text)]))
  }

  /** The body of the try block: either a returned run or an exception message (with what was sent). */
  datatype Attempt = Returned(run: Run) | Threw(message: string, sent: Option<ChatRequest>)

  function Try(apiKey: string, body: Result<JsValue, string>, upstream: Upstream): Attempt {
    match body
    case Err(m) => Threw(m, None)
    case Ok(parsed) =>
      if IsNullish(parsed) then Threw(DestructureError(parsed), None)
      else
        var words := Prop(parsed, "words");
        if !words.Arr? || |words.items| == 0 then
          Returned(Run(Response(400, None, ErrorEnvelope(Str(InvalidWordsMessage))), None))
        else if !Convertible(words) then Threw(ConversionError, None)
        else Answer(BuildRequest(apiKey, words.items), upstream)
  }

  /** The part of the try block after the request went out: the upstream answer mapped onto a response. */
  function Answer(request: ChatRequest, upstream: Upstream): Attempt {
    match upstream
    case Unreachable(m) => Threw(m, Some(request))
    case Replied(status, Err(m)) => Threw(m, Some(request))
    case Replied(status, Ok(data)) =>
      var outcome :=
        if !IsOk(status) then UpstreamError(status, data)
        else match ExtractText(data)
          case Ok(text) => Ok(Success(text))
          case Err(m) => Err(m);
      match outcome
      case Ok(response) => Returned(Run(response, Some(request)))
      case Err(m) => Threw(m, Some(request))
  }

  /** `exports.handler`. */
  function Handle(event: Event, apiKey: Option<string>, upstream: Upstream): Run {
    if event.httpMethod != "POST" then
      Run(Response(405, None, ErrorEnvelope(Str(MethodNotAllowedMessage))), None)
    else if !KeyPresent(apiKey) then
      Run(Response(500, None, DetailedEnvelope(Str(MissingKeyMessage), Str(MissingKeyDetail))), None)
    else
      match Try(apiKey.value, event.body, upstream)
      case Returned(run) => run
      case Threw(m, sent) => Run(Failure(m), sent)
  }

  /** The `words` array of a parsed request body, when it is a non-empty array. */
  predicate HasWords(body: Result<JsValue, string>) {
    body.Ok? && !IsNullish(body.value)
    && Prop(body.value, "words").Arr? && |Prop(body.value, "words").items| > 0
  }

  function WordsOf(body: Result<JsValue, string>): seq<JsValue>
    requires HasWords(body)
  {
    Prop(body.value, "words").items
  }

  // ---------------------------------------------------------------------------
  // Validation order: method, then key, then body, then `words`.

  /** Any method but POST is refused with 405, whatever the key, body or upstream. */
  lemma NonPostIsRefused(event: Event, apiKey: Option<string>, upstream: Upstream)
    requires event.httpMethod != "POST"
    ensures Handle(event, apiKey, upstream)
      == Run(Response(405, None, Obj(map["error" := Str("Method Not Allowed")])), None)
  {
  }

  /** A POST without a usable key is a 500 with the fixed detail, whatever the body or upstream. */
  lemma MissingKeyIsRefused(event: Event, apiKey: Option<string>, upstream: Upstream)
    requires event.httpMethod == "POST" && (apiKey == None || apiKey == Some(""))
    ensures Handle(event, apiKey, upstream) == Run(Response(500, None, Obj(map[
      "error" := Str("OPENAI_API_KEY is missing"),
      "detail" := Str("Please set OPENAI_API_KEY in your .env file")])), None)
  {
  }

  /** A body that does not parse is a 500 carrying the parser's message; nothing is sent. */
  lemma UnparsableBodyFails(event: Event, apiKey: Option<string>, upstream: Upstream)
    requires event.httpMethod == "POST" && KeyPresent(apiKey) && event.body.Err?
    ensures Handle(event, apiKey, upstream) == Run(Response(500, None, Obj(map[
      "error" := Str("Failed to generate diary entry."),
      "detail" := Str(event.body.error)])), None)
  {
  }

  /** A body that parses to `null` cannot be destructured: a 500 with that TypeError, and nothing is sent. */
  lemma NullBodyFails(event: Event, apiKey: Option<string>, upstream: Upstream)
    requires event.httpMethod == "POST" && KeyPresent(apiKey)
    requires event.body.Ok? && IsNullish(event.body.value)
    ensures Handle(event, apiKey, upstream) == Run(Failure(DestructureError(event.body.value)), None)
    ensures Handle(event, apiKey, upstream).response.body.fields["detail"]
      == Str("Cannot destructure property 'words' of 'JSON.parse(...)' as it is "
             + (if event.body.value.Null? then "null" else "undefined") + ".")
  {
  }

  /** A parsed body whose `words` is not a non-empty array is a 400, and no request goes upstream. */
  lemma MissingWordsIsInvalid(event: Event, apiKey: Option<string>, upstream: Upstream)
    requires event.httpMethod == "POST" && KeyPresent(apiKey)
    requires event.body.Ok? && !IsNullish(event.body.value) && !HasWords(event.body)
    ensures Handle(event, apiKey, upstream) == Run(Response(400, None,
      Obj(map["error" := Str("Invalid input: words must be a non-empty array.")])), None)
  {
  }

  /** A request reaches upstream exactly when every check passed, and then it is built from the words. */
  lemma SentIffValid(event: Event, apiKey: Option<string>, upstream: Upstream)
    ensures Handle(event, apiKey, upstream).sent.Some?
      <==> event.httpMethod == "POST" && KeyPresent(apiKey) && HasWords(event.body)
           && Convertible(Arr(WordsOf(event.body)))
    ensures Handle(event, apiKey, upstream).sent.Some? ==>
      Handle(event, apiKey, upstream).sent.value == BuildRequest(apiKey.value, WordsOf(event.body))
  {
  }

  /**
   * A word with no primitive form makes the prompt's `join` throw before the
   * request is sent: a 500 with that TypeError, and nothing goes upstream.
   */
  lemma UnconvertibleWordFails(event: Event, apiKey: Option<string>, upstream: Upstream)
    requires event.httpMethod == "POST" && KeyPresent(apiKey) && HasWords(event.body)
    requires exists i :: 0 <= i < |WordsOf(event.body)| && !Convertible(WordsOf(event.body)[i])
    ensures Handle(event, apiKey, upstream) == Run(Response(500, None, Obj(map[
      "error" := Str("Failed to generate diary entry."),
      "detail" := Str("Cannot convert object to primitive value")])), None)
  {
  }

  /** `{"words": [{"toString": 1}]}` passes the array check and still sends nothing. */
  lemma ObjectWordExample(apiKey: string, upstream: Upstream)
    requires apiKey != ""
    ensures var body := Obj(map["words" := Arr([Obj(map["toString" := Num(1)])])]);
      Handle(Event("POST", Ok(body)), Some(apiKey), upstream).sent == None
  {
    var word := Obj(map["toString" := Num(1)]);
    var body := Obj(map["words" := Arr([word])]);
    assert Prop(body, "words") == Arr([word]);
    assert !Convertible(WordsOf(Ok(body))[0]);
    UnconvertibleWordFails(Event("POST", Ok(body)), Some(apiKey), upstream);
  }

  // ---------------------------------------------------------------------------
  // The upstream request.

  /** Two messages, system then user; the user message is the prompt; at most 300 tokens. */
  lemma RequestShape(apiKey: string, words: seq<JsValue>)
    requires Convertible(Arr(words))
    ensures var r := BuildRequest(apiKey, words);
      && r.url == "https://api.openai.com/v1/chat/completions"
      && r.authorization == "Bearer " + apiKey
      && |r.messages| == 2
      && r.messages[0].role == "system" && r.messages[1].role == "user"
      && r.messages[1].content == Prompt(words)
      && r.maxTokens == 300
  {
  }

  /** The prompt's word line, split at '、', gives back the words in order when none contains '、'. */
  lemma PromptListsWords(words: seq<JsValue>)
    requires |words| >= 1
    requires forall i :: 0 <= i < |words| ==> words[i].Str? && WordSeparator !in words[i].s
    ensures Prompt(words) == "以下の" + NatToString(|words|) + "個の単語を使って、自然な日本語の日記を書いてください。\n単語: "
      + Join(Texts(words), [WordSeparator]) + "\n\n日記:"
    ensures Split(Join(Texts(words), [WordSeparator]), WordSeparator) == Texts(words)
    ensures StringToNumber(NatToString(|words|)) == Integral(|words|)
  {
    JoinValuesOfStrings(words, [WordSeparator]);
    SplitJoin(Texts(words), WordSeparator);
    NumberOfDisplayedInteger(|words|);
  }

  // ---------------------------------------------------------------------------
  // Mapping the upstream answer.

  /** A non-ok upstream reply keeps its status; `error.message` and `error.type` become error and detail. */
  lemma UpstreamFailurePassesThrough(event: Event, apiKey: Option<string>, status: int, data: JsValue)
    requires event.httpMethod == "POST" && KeyPresent(apiKey) && HasWords(event.body)
    requires Convertible(Arr(WordsOf(event.body)))
    requires !IsOk(status) && !IsNullish(data)
    ensures var run := Handle(event, apiKey, Replied(status, Ok(data)));
      var e := Prop(data, "error");
      var message := if IsNullish(e) then Undefined else Prop(e, "message");
      var kind := if IsNullish(e) then Undefined else Prop(e, "type");
      && run.response.statusCode == status
      && run.response.body == Obj(map[
           "error" := if Truthy(message) then message else Str("OpenAI API request failed"),
           "detail" := if Truthy(kind) then kind else Str("")])
  {
  }

  /** Once every check passed, the handler's run is the upstream answer, an exception becoming the 500. */
  lemma Forwards(event: Event, apiKey: Option<string>, upstream: Upstream)
    requires event.httpMethod == "POST" && KeyPresent(apiKey) && HasWords(event.body)
    requires Convertible(Arr(WordsOf(event.body)))
    ensures Handle(event, apiKey, upstream)
      == match Answer(BuildRequest(apiKey.value, WordsOf(event.body)), upstream)
         case Returned(run) => run
         case Threw(m, sent) => Run(Failure(m), sent)
  {
  }

  /**
   * `data.choices[0].message.content` is the string `content`, whatever other
   * choices there are and whatever other fields the reply, its first choice
   * and that message carry (`index`, `finish_reason`, `role`, `usage`, ...).
   */
  predicate FirstContentIs(data: JsValue, content: string) {
    && data.Obj? && "choices" in data.fields
    && data.fields["choices"].Arr? && |data.fields["choices"].items| >= 1
    && var first := data.fields["choices"].items[0];
       && first.Obj? && "message" in first.fields
       && first.fields["message"].Obj? && "content" in first.fields["message"].fields
       && first.fields["message"].fields["content"] == Str(content)
  }

  /** The text of a reply whose first choice has string content is that content trimmed. */
  lemma FirstContentExtracted(data: JsValue, content: string)
    requires FirstContentIs(data, content)
    ensures ExtractText(data) == Ok(Trim(content))
  {
    var choices := data.fields["choices"];
    var first := choices.items[0];
    var message := first.fields["message"];
    assert Get(data, "choices") == Ok(choices);
    assert First(choices) == first;
    assert Prop(first, "message") == message;
    assert Prop(message, "content") == Str(content);
  }

  /** An ok reply whose first choice carries a string content yields 200 with that content trimmed. */
  lemma SuccessReturnsTrimmedContent(event: Event, apiKey: Option<string>, status: int, data: JsValue, content: string)
    requires event.httpMethod == "POST" && KeyPresent(apiKey) && HasWords(event.body)
    requires Convertible(Arr(WordsOf(event.body)))
    requires IsOk(status) && FirstContentIs(data, content)
    ensures Handle(event, apiKey, Replied(status, Ok(data))).response
      == Response(200, Some("application/json"), Obj(map["text" := Str(Trim(content))]))
  {
    FirstContentExtracted(data, content);
    var request := BuildRequest(apiKey.value, WordsOf(event.body));
    assert Answer(request, Replied(status, Ok(data))) == Returned(Run(Success(Trim(content)), Some(request)));
    Forwards(event, apiKey, Replied(status, Ok(data)));
  }

  /**
   * A chat-completions reply as the API sends it: two choices, each with
   * `index` and `finish_reason`, messages with a `role`, and `usage` beside.
   * Only the first choice's content is used.
   */
  lemma FullReplyExample(content: string, other: string)
    ensures var choice := (i: int, c: string) => Obj(map[
        "index" := Num(i),
        "message" := Obj(map["role" := Str("assistant"), "content" := Str(c)]),
        "finish_reason" := Str("stop")]);
      var data := Obj(map["id" := Str("chatcmpl-1"), "object" := Str("chat.completion"),
        "choices" := Arr([choice(0, content), choice(1, other)]),
        "usage" := Obj(map["total_tokens" := Num(120)])]);
      ExtractText(data) == Ok(Trim(content))
  {
    var message := Obj(map["role" := Str("assistant"), "content" := Str(content)]);
    var first := Obj(map["index" := Num(0), "message" := message, "finish_reason" := Str("stop")]);
    var second := Obj(map["index" := Num(1),
      "message" := Obj(map["role" := Str("assistant"), "content" := Str(other)]),
      "finish_reason" := Str("stop")]);
    var data := Obj(map["id" := Str("chatcmpl-1"), "object" := Str("chat.completion"),
      "choices" := Arr([first, second]), "usage" := Obj(map["total_tokens" := Num(120)])]);
    assert FirstContentIs(data, content);
    FirstContentExtracted(data, content);
  }

  /** An ok reply without choices, a first choice or its message yields 200 with empty text. */
  lemma MissingChoiceGivesEmptyText(event: Event, apiKey: Option<string>, status: int, data: JsValue)
    requires event.httpMethod == "POST" && KeyPresent(apiKey) && HasWords(event.body)
    requires Convertible(Arr(WordsOf(event.body)))
    requires IsOk(status) && !IsNullish(data)
    requires var c := Prop(data, "choices");
      !Truthy(c) || !Truthy(First(c)) || !Truthy(Prop(First(c), "message"))
    ensures Handle(event, apiKey, Replied(status, Ok(data))).response
      == Response(200, Some("application/json"), Obj(map["text" := Str("")]))
  {
  }

  /** Once every check passed, an exception in the upstream answer is the catch block's 500, after sending. */
  lemma ThrownAfterSending(event: Event, apiKey: Option<string>, upstream: Upstream, m: string)
    requires event.httpMethod == "POST" && KeyPresent(apiKey) && HasWords(event.body)
    requires Convertible(Arr(WordsOf(event.body)))
    requires Answer(BuildRequest(apiKey.value, WordsOf(event.body)), upstream).Threw?
    requires Answer(BuildRequest(apiKey.value, WordsOf(event.body)), upstream).message == m
    ensures Handle(event, apiKey, upstream).sent.Some?
    ensures Handle(event, apiKey, upstream).response == Failure(m)
  {
    Forwards(event, apiKey, upstream);
  }

  /** V8's message for reading a property off `null`. */
  lemma ReadNullMessage(key: string)
    ensures ReadError(Null, key) == "Cannot read properties of null (reading '" + key + "')"
  {
    assert Display(Null) == "null";
  }

  /** V8's messages for reading `trim`, `choices` and `error` off a nullish value. */
  lemma NullishReadMessages()
    ensures ReadError(Null, "trim") == "Cannot read properties of null (reading 'trim')"
    ensures ReadError(Undefined, "trim") == "Cannot read properties of undefined (reading 'trim')"
    ensures ReadError(Null, "choices") == "Cannot read properties of null (reading 'choices')"
    ensures ReadError(Null, "error") == "Cannot read properties of null (reading 'error')"
  {
    ReadNullMessage("trim");
    ReadNullMessage("choices");
    ReadNullMessage("error");
    assert Display(Undefined) == "undefined";
  }

  /**
   * An ok reply whose first choice has a message but no string `content`
   * (`"content": null`, say) makes `trim` throw after the request went out:
   * the catch block's 500 with that TypeError.
   */
  lemma NonStringContentFails(event: Event, apiKey: Option<string>, status: int, data: JsValue)
    requires event.httpMethod == "POST" && KeyPresent(apiKey) && HasWords(event.body)
    requires Convertible(Arr(WordsOf(event.body)))
    requires IsOk(status) && !IsNullish(data)
    requires var c := Prop(data, "choices");
      Truthy(c) && Truthy(First(c)) && Truthy(Prop(First(c), "message"))
      && !Prop(Prop(First(c), "message"), "content").Str?
    ensures var content := Prop(Prop(First(Prop(data, "choices")), "message"), "content");
      var run := Handle(event, apiKey, Replied(status, Ok(data)));
      && run.sent.Some?
      && run.response == Failure(
           if content.Null? then "Cannot read properties of null (reading 'trim')"
           else if content.Undefined? then "Cannot read properties of undefined (reading 'trim')"
           else "data.choices[0].message.content.trim is not a function")
  {
    var content := Prop(Prop(First(Prop(data, "choices")), "message"), "content");
    NullishReadMessages();
    var m := TrimContent(content).error;
    var request := BuildRequest(apiKey.value, WordsOf(event.body));
    assert Answer(request, Replied(status, Ok(data))) == Threw(m, Some(request)) by {
      assert ExtractText(data) == TrimContent(content);
    }
    ThrownAfterSending(event, apiKey, Replied(status, Ok(data)), m);
  }

  /**
   * An upstream body that parses to `null` cannot be read: `data.error` on a
   * non-ok reply and `data.choices` on an ok one throw, and the catch block
   * answers 500 with that TypeError.
   */
  lemma NullReplyFails(event: Event, apiKey: Option<string>, status: int)
    requires event.httpMethod == "POST" && KeyPresent(apiKey) && HasWords(event.body)
    requires Convertible(Arr(WordsOf(event.body)))
    ensures var run := Handle(event, apiKey, Replied(status, Ok(Null)));
      && run.sent.Some?
      && run.response == Failure(if IsOk(status)
           then "Cannot read properties of null (reading 'choices')"
           else "Cannot read properties of null (reading 'error')")
  {
    NullishReadMessages();
    var m := ReadError(Null, if IsOk(status) then "choices" else "error");
    var request := BuildRequest(apiKey.value, WordsOf(event.body));
    assert Answer(request, Replied(status, Ok(Null))) == Threw(m, Some(request));
    ThrownAfterSending(event, apiKey, Replied(status, Ok(Null)), m);
  }

  /** An exception after the request went out (network, bad JSON) is a 500 with its message. */
  lemma UpstreamExceptionFails(event: Event, apiKey: Option<string>, upstream: Upstream)
    requires event.httpMethod == "POST" && KeyPresent(apiKey) && HasWords(event.body)
    requires Convertible(Arr(WordsOf(event.body)))
    requires upstream.Unreachable? || upstream.data.Err?
    ensures Handle(event, apiKey, upstream).response == Failure(
      if upstream.Unreachable? then upstream.message else upstream.data.error)
  {
  }

  /**
   * A response in the relay's envelope: an ok status exactly when the body is
   * `{text}` with a string and a JSON content type; otherwise a non-ok status,
   * no content type and a truthy `error`.
   */
  predicate Enveloped(r: Response) {
    && r.body.Obj?
    && (IsOk(r.statusCode) <==> "text" in r.body.fields)
    && (IsOk(r.statusCode) ==>
          r.statusCode == 200 && r.contentType == Some(JsonType)
          && r.body.fields.Keys == {"text"} && r.body.fields["text"].Str?)
    && (!IsOk(r.statusCode) ==>
          r.contentType == None && "error" in r.body.fields && Truthy(r.body.fields["error"]))
  }

  /** Every path, the catch block included, ends in the envelope: no exception escapes the handler. */
  lemma EnvelopeShape(event: Event, apiKey: Option<string>, upstream: Upstream)
    ensures Enveloped(Handle(event, apiKey, upstream).response)
  {
    var r := Handle(event, apiKey, upstream).response;
    if event.httpMethod == "POST" && KeyPresent(apiKey) {
      var attempt := Try(apiKey.value, event.body, upstream);
      if attempt.Returned? && HasWords(event.body) && upstream.Replied? && upstream.data.Ok? {
        var data := upstream.data.value;
        if !IsOk(upstream.status) {
          var e := Prop(data, "error");
          assert Truthy(FieldOr(e, "message", UpstreamFallbackMessage));
        } else {
          assert r.body.fields.Keys == {"text"};
        }
      }
    }
  }
}
