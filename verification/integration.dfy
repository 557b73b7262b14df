/**
 * The client wrapper and the relay put together: the request `generateDiary`
 * sends is the event the relay handles, and the relay's response is the
 * reply the wrapper reads.
 *
 * The relay's error responses set no Content-Type header, so what the wrapper
 * sees for them depends on the type the hosting platform fills in; that type
 * is a parameter here. The JSON text of a body is abstracted: the reply's
 * `raw` text is a parameter and its parse is the body itself.
 */
module Integration {
  import opened Wrappers
  import opened JsStrings
  import opened JsValues
  import Http
  import Relay
  import Api

  /** The relay event for a client request. */
  function EventFor(q: Api.ClientRequest): Relay.Event {
    Relay.Event(q.httpMethod, Ok(q.body))
  }

  /** The reply the client receives for a relay response, with the platform's default content type. */
  function Deliver(r: Relay.Response, raw: string, platformType: Option<string>): Api.Reply {
    Api.Answered(r.statusCode, if r.contentType.Some? then r.contentType else platformType, raw, Ok(r.body))
  }

  /** The relay's answer to the client's request for `words`, as the client sees it. */
  function RoundTrip(words: seq<string>, apiKey: Option<string>, upstream: Relay.Upstream,
                     raw: string, platformType: Option<string>): Api.Call
  {
    var q := Api.RequestFor(words);
    var r := Relay.Handle(EventFor(q), apiKey, upstream).response;
    Api.GenerateDiary(words, Deliver(r, raw, platformType))
  }

  /**
   * The client's request passes the relay's method and body checks exactly
   * when there is at least one word, and the relay then prompts with those
   * words in order.
   */
  lemma ClientRequestPassesRelayChecks(words: seq<string>, apiKey: string, upstream: Relay.Upstream)
    requires apiKey != ""
    ensures var e := EventFor(Api.RequestFor(words));
      && e.httpMethod == "POST"
      && (Relay.HasWords(e.body) <==> words != [])
      && (words != [] ==> Texts(Relay.WordsOf(e.body)) == words)
      && (Relay.Handle(e, Some(apiKey), upstream).sent.Some? <==> words != [])
  {
    var e := EventFor(Api.RequestFor(words));
    var items := seq(|words|, i requires 0 <= i < |words| => Str(words[i]));
    assert e.body == Ok(Obj(map["words" := Arr(items)]));
    assert Prop(e.body.value, "words") == Arr(items);
    assert Texts(items) == words;
    Relay.SentIffValid(e, Some(apiKey), upstream);
  }

  /** An ok envelope reaches the caller as its text, whatever the platform's default type. */
  lemma SuccessDelivered(words: seq<string>, r: Relay.Response, raw: string, platformType: Option<string>)
    requires Relay.Enveloped(r) && Http.IsOk(r.statusCode)
    ensures Api.GenerateDiary(words, Deliver(r, raw, platformType)).result == Ok(r.body.fields["text"])
  {
    Api.ContainsJsonType("", "");
    assert "" + Http.JsonType + "" == Http.JsonType;
    assert Api.Envelope(r.contentType, raw, Ok(r.body)) == Ok(r.body);
  }

  /** A failure envelope without a JSON default type reaches the caller as the raw text. */
  lemma FailureDeliveredAsText(words: seq<string>, r: Relay.Response, raw: string, platformType: Option<string>)
    requires Relay.Enveloped(r) && !Http.IsOk(r.statusCode)
    requires platformType.None? || !Contains(platformType.value, "application/json")
    ensures Api.GenerateDiary(words, Deliver(r, raw, platformType)).result
      == Err(if raw != "" then raw else "エラーが発生しました")
  {
    Api.EnvelopeChoice(platformType, raw, Ok(r.body));
  }

  /**
   * A failure envelope under a JSON default type reaches the caller as the
   * composed message, which starts with the envelope's `error`; an `error` or
   * `detail` with no primitive form throws the conversion TypeError instead.
   */
  lemma FailureDeliveredAsJson(words: seq<string>, r: Relay.Response, raw: string, platformType: Option<string>)
    requires Relay.Enveloped(r) && !Http.IsOk(r.statusCode)
    requires platformType.Some? && Contains(platformType.value, "application/json")
    ensures var (error, detail) := (r.body.fields["error"], Prop(r.body, "detail"));
      Api.ErrorMessage(r.body).Ok? <==> Convertible(error) && (!Truthy(detail) || Convertible(detail))
    ensures var m := Api.ErrorMessage(r.body);
      Api.GenerateDiary(words, Deliver(r, raw, platformType)).result == Err(if m.Ok? then m.value else m.error)
    ensures Api.ErrorMessage(r.body).Ok? ==> Display(r.body.fields["error"]) <= Api.ErrorMessage(r.body).value
    ensures Api.ErrorMessage(r.body).Err? ==> Api.ErrorMessage(r.body).error == "Cannot convert object to primitive value"
  {
  }

  /** When the relay succeeds the client returns exactly the relay's text, even an empty one. */
  lemma RelaySuccessReachesClient(words: seq<string>, apiKey: Option<string>, upstream: Relay.Upstream,
                                  raw: string, platformType: Option<string>)
    requires Http.IsOk(Relay.Handle(EventFor(Api.RequestFor(words)), apiKey, upstream).response.statusCode)
    ensures var r := Relay.Handle(EventFor(Api.RequestFor(words)), apiKey, upstream).response;
      && r.body.Obj? && "text" in r.body.fields
      && RoundTrip(words, apiKey, upstream, raw, platformType).result == Ok(r.body.fields["text"])
  {
    var r := Relay.Handle(EventFor(Api.RequestFor(words)), apiKey, upstream).response;
    Relay.EnvelopeShape(EventFor(Api.RequestFor(words)), apiKey, upstream);
    SuccessDelivered(words, r, raw, platformType);
  }

  /**
   * When the relay fails and the platform does not declare its error bodies
   * as JSON, the client does not read the envelope: the thrown message is the
   * raw response text (the fallback message only when that text is empty).
   */
  lemma RelayFailureThrowsRawText(words: seq<string>, apiKey: Option<string>, upstream: Relay.Upstream,
                                 raw: string, platformType: Option<string>)
    requires !Http.IsOk(Relay.Handle(EventFor(Api.RequestFor(words)), apiKey, upstream).response.statusCode)
    requires platformType.None? || !Contains(platformType.value, "application/json")
    ensures RoundTrip(words, apiKey, upstream, raw, platformType).result
      == Err(if raw != "" then raw else "エラーが発生しました")
  {
    var r := Relay.Handle(EventFor(Api.RequestFor(words)), apiKey, upstream).response;
    Relay.EnvelopeShape(EventFor(Api.RequestFor(words)), apiKey, upstream);
    FailureDeliveredAsText(words, r, raw, platformType);
  }

  /**
   * When the platform does declare the error bodies as JSON, the thrown
   * message is composed from the relay's envelope: its `error`, then
   * " (detail)" when the detail is non-empty. An `error` or `detail` passed
   * through from upstream with no primitive form throws the TypeError instead.
   */
  lemma RelayFailureWithJsonDefault(words: seq<string>, apiKey: Option<string>, upstream: Relay.Upstream,
                                    raw: string, platformType: Option<string>)
    requires !Http.IsOk(Relay.Handle(EventFor(Api.RequestFor(words)), apiKey, upstream).response.statusCode)
    requires platformType.Some? && Contains(platformType.value, "application/json")
    ensures var body := Relay.Handle(EventFor(Api.RequestFor(words)), apiKey, upstream).response.body;
      var m := Api.ErrorMessage(body);
      && body.Obj? && "error" in body.fields
      && (m.Ok? <==> Convertible(body.fields["error"]) && (!Truthy(Prop(body, "detail")) || Convertible(Prop(body, "detail"))))
      && RoundTrip(words, apiKey, upstream, raw, platformType).result == Err(if m.Ok? then m.value else m.error)
      && (m.Ok? ==> Display(body.fields["error"]) <= m.value)
      && (m.Err? ==> m.error == "Cannot convert object to primitive value")
  {
    var r := Relay.Handle(EventFor(Api.RequestFor(words)), apiKey, upstream).response;
    Relay.EnvelopeShape(EventFor(Api.RequestFor(words)), apiKey, upstream);
    FailureDeliveredAsJson(words, r, raw, platformType);
  }

  /**
   * An upstream 400 whose `error.message` is `{"toString": 1}` is passed
   * through by the relay, and the client then throws the conversion TypeError.
   */
  lemma UpstreamObjectMessageExample(word: string, apiKey: string, raw: string)
    requires apiKey != ""
    ensures RoundTrip([word], Some(apiKey),
      Relay.Replied(400, Ok(Obj(map["error" := Obj(map["message" := Obj(map["toString" := Num(1)])])]))),
      raw, Some("application/json")).result == Err("Cannot convert object to primitive value")
  {
    var words := [word];
    var message := Obj(map["toString" := Num(1)]);
    var data := Obj(map["error" := Obj(map["message" := message])]);
    var e := EventFor(Api.RequestFor(words));
    ClientRequestPassesRelayChecks(words, apiKey, Relay.Replied(400, Ok(data)));
    assert Convertible(Arr(Relay.WordsOf(e.body)));
    Relay.UpstreamFailurePassesThrough(e, Some(apiKey), 400, data);
    var body := Relay.Handle(e, Some(apiKey), Relay.Replied(400, Ok(data))).response.body;
    assert Prop(body, "error") == message;
    RelayFailureWithJsonDefault(words, Some(apiKey), Relay.Replied(400, Ok(data)), raw, Some("application/json"));
  }

  /** A missing key, seen by the client with a JSON default: "OPENAI_API_KEY is missing (Please set ...)". */
  lemma MissingKeyMessageExample(words: seq<string>, upstream: Relay.Upstream, raw: string)
    ensures RoundTrip(words, None, upstream, raw, Some("application/json")).result
      == Err("OPENAI_API_KEY is missing" + " (" + "Please set OPENAI_API_KEY in your .env file" + ")")
  {
    Api.ContainsJsonType("", "");
    assert "" + Http.JsonType + "" == Http.JsonType;
    var q := Api.RequestFor(words);
    var body := Obj(map["error" := Str(Relay.MissingKeyMessage), "detail" := Str(Relay.MissingKeyDetail)]);
    assert Relay.Handle(EventFor(q), None, upstream).response == Relay.Response(500, None, body);
    assert Api.Envelope(Some(Http.JsonType), raw, Ok(body)) == Ok(body);
    assert Api.ErrorMessage(body) == Ok(Relay.MissingKeyMessage + " (" + Relay.MissingKeyDetail + ")");
  }
}
