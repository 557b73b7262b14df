/**
 * The client request wrapper (src/utils/api.js, `generateDiary`): it posts
 * the words to the relay and turns the reply into the diary text or one
 * thrown error whose message is composed from the reply's envelope.
 *
 * The reply is an input. When the relay answered, the reply carries both
 * views of its body: the raw text (`response.text()`) and what
 * `response.json()` makes of it; the wrapper reads exactly one of them,
 * chosen by the content type.
 */
module Api {
  import opened Wrappers
  import opened JsStrings
  import opened JsValues
  import opened Http

  const ApiUrl: string := "/.netlify/functions/generate"
  const FallbackMessage: string := "エラーが発生しました"

  /** The POST the wrapper sends. */
  datatype ClientRequest = ClientRequest(httpMethod: string, url: string, contentType: string, body: JsValue)

  /** `fetch` rejected with a message, or the relay answered. */
  datatype Reply =
    | Unreachable(message: string)
    | Answered(status: int, contentType: Option<string>, raw: string, parsed: Result<JsValue, string>)

  /** One call: the request sent and either the diary text or the message of the error thrown. */
  datatype Call = Call(request: ClientRequest, result: Result<JsValue, string>)

  function RequestFor(words: seq<string>): ClientRequest {
    ClientRequest("POST", ApiUrl, JsonType,
      Obj(map["words" := Arr(seq(|words|, i requires 0 <= i < |words| => Str(words[i])))]))
  }

  /** `data`: the parsed JSON when the content type says JSON, otherwise `{error: <raw text>}`. */
  function Envelope(contentType: Option<string>, raw: string, parsed: Result<JsValue, string>): Result<JsValue, string> {
    var declared := if contentType.Some? then contentType.value else "";
    if Contains(declared, JsonType) then parsed else Ok(Obj(map["error" := Str(raw)]))
  }

  /**
   * The message thrown for a non-ok reply: `data.error` (or the fallback) and,
   * when `data.detail` is truthy, " (detail)". Reading a property of a null
   * envelope is itself a TypeError, and so is converting a truthy `error` or
   * `detail` that has no primitive form (in `+` or in `new Error`).
   */
  function ErrorMessage(data: JsValue): Result<string, string> {
    match Get(data, "error")
    case Err(m) => Err(m)
    case Ok(error) =>
      var detail := Prop(data, "detail");
      if (Truthy(error) && !Convertible(error)) || (Truthy(detail) && !Convertible(detail)) then
        Err(ConversionError)
      else
        var base := if Truthy(error) then Display(error) else FallbackMessage;
        Ok(if Truthy(detail) then base + " (" + Display(detail) + ")" else base)
  }

  /** `data.text` when truthy, else "". */
  function SuccessText(data: JsValue): Result<JsValue, string> {
    match Get(data, "text")
    case Err(m) => Err(m)
    case Ok(text) => Ok(if Truthy(text) then text else Str(""))
  }

  /** `generateDiary(words)`; every failure surfaces as `Err`, none is swallowed. */
  function GenerateDiary(words: seq<string>, reply: Reply): Call {
    var result :=
      match reply
      case Unreachable(m) => Err(m)
      case Answered(status, contentType, raw, parsed) =>
        match Envelope(contentType, raw, parsed)
        case Err(m) => Err(m)
        case Ok(data) =>
          if !IsOk(status) then
            match ErrorMessage(data)
            case Ok(m) => Err(m)
            case Err(m) => Err(m)
          else SuccessText(data);
    Call(RequestFor(words), result)
  }

  /** A declared JSON content type: the text contains "application/json". */
  lemma ContainsJsonType(prefix: string, suffix: string)
    ensures Contains(prefix + JsonType + suffix, JsonType)
  {
    assert JsonType <= (prefix + JsonType + suffix)[|prefix|..];
  }

  /** The request is always a POST of `{words}` to the relay endpoint. */
  lemma RequestIsPostOfWords(words: seq<string>, reply: Reply)
    ensures var q := GenerateDiary(words, reply).request;
      && q.httpMethod == "POST" && q.url == "/.netlify/functions/generate"
      && q.body.Obj? && q.body.fields.Keys == {"words"}
      && q.body.fields["words"].Arr? && Texts(q.body.fields["words"].items) == words
  {
  }

  /** A JSON content type selects the parsed body; anything else, a missing header included, the raw text. */
  lemma EnvelopeChoice(contentType: Option<string>, raw: string, parsed: Result<JsValue, string>)
    ensures contentType.Some? && Contains(contentType.value, "application/json") ==>
      Envelope(contentType, raw, parsed) == parsed
    ensures (contentType.None? || !Contains(contentType.value, "application/json")) ==>
      Envelope(contentType, raw, parsed) == Ok(Obj(map["error" := Str(raw)]))
  {
    if contentType.None? {
      assert !Contains("", JsonType);
    }
  }

  /** A non-ok status always throws. */
  lemma NonOkThrows(words: seq<string>, status: int, contentType: Option<string>, raw: string, parsed: Result<JsValue, string>)
    requires !IsOk(status)
    ensures GenerateDiary(words, Answered(status, contentType, raw, parsed)).result.Err?
  {
  }

  /** With a truthy `error` and `detail` the message is "error (detail)"; without a detail, no parenthesis. */
  lemma ErrorMessageComposition(error: string, detail: string, rest: map<string, JsValue>)
    requires error != ""
    ensures ErrorMessage(Obj(rest["error" := Str(error)]["detail" := Str(detail)]))
      == Ok(if detail == "" then error else error + " (" + detail + ")")
  {
  }

  /** A missing or falsy `error` falls back to the fixed message. */
  lemma ErrorMessageFallback(data: JsValue)
    requires !IsNullish(data) && !Truthy(Prop(data, "error")) && !Truthy(Prop(data, "detail"))
    ensures ErrorMessage(data) == Ok("エラーが発生しました")
  {
  }

  /**
   * A falsy `error` with a truthy `detail`: the fallback message, then
   * " (detail)"; a detail with no primitive form throws instead.
   */
  lemma ErrorMessageFallbackWithDetail(data: JsValue)
    requires !IsNullish(data) && !Truthy(Prop(data, "error")) && Truthy(Prop(data, "detail"))
    ensures ErrorMessage(data) == if Convertible(Prop(data, "detail"))
      then Ok("エラーが発生しました" + " (" + Display(Prop(data, "detail")) + ")")
      else Err("Cannot convert object to primitive value")
  {
  }

  /**
   * Whatever their types, a truthy `error` and `detail` are written as
   * `String` writes them (`{error: 429, detail: true}` gives "429 (true)"),
   * unless one of them has no primitive form, which throws the TypeError.
   */
  lemma ErrorMessageDisplaysValues(data: JsValue)
    requires !IsNullish(data) && Truthy(Prop(data, "error"))
    ensures var (error, detail) := (Prop(data, "error"), Prop(data, "detail"));
      ErrorMessage(data) ==
        if Convertible(error) && (!Truthy(detail) || Convertible(detail)) then
          Ok(if Truthy(detail) then Display(error) + " (" + Display(detail) + ")" else Display(error))
        else Err("Cannot convert object to primitive value")
  {
  }

  /** A 500 JSON reply `{"error": {"toString": 1}}` throws the conversion TypeError, not a composed message. */
  lemma ObjectErrorExample(words: seq<string>, raw: string)
    ensures GenerateDiary(words, Answered(500, Some("application/json"), raw,
      Ok(Obj(map["error" := Obj(map["toString" := Num(1)])])))).result
      == Err("Cannot convert object to primitive value")
  {
    ContainsJsonType("", "");
    assert "" + JsonType + "" == JsonType;
    var data := Obj(map["error" := Obj(map["toString" := Num(1)])]);
    assert Prop(data, "error") == Obj(map["toString" := Num(1)]);
  }

  /** `{error: 429, detail: true}` throws "429 (true)". */
  lemma NonStringErrorExample()
    ensures ErrorMessage(Obj(map["error" := Num(429), "detail" := Bool(true)])) == Ok("429 (true)")
  {
    var data := Obj(map["error" := Num(429), "detail" := Bool(true)]);
    assert IntToString(429) == "429" by {
      assert NatToString(4) == "4";
      assert NatToString(42) == "42";
      assert NatToString(429) == "429";
    }
    assert Prop(data, "error") == Num(429) && Prop(data, "detail") == Bool(true);
    assert Display(Num(429)) == "429" && Display(Bool(true)) == "true";
    assert "429" + " (" + "true" + ")" == "429 (true)";
  }

  /** An ok reply yields `data.text` when truthy and "" otherwise, never the envelope itself. */
  lemma OkReturnsText(words: seq<string>, status: int, contentType: Option<string>, raw: string, data: JsValue)
    requires IsOk(status) && !IsNullish(data)
    requires contentType.Some? && Contains(contentType.value, "application/json")
    ensures GenerateDiary(words, Answered(status, contentType, raw, Ok(data))).result
      == Ok(if Truthy(Prop(data, "text")) then Prop(data, "text") else Str(""))
  {
  }

  /** An ok reply that is not declared as JSON yields "". */
  lemma OkWithoutJsonIsEmpty(words: seq<string>, status: int, contentType: Option<string>, raw: string, parsed: Result<JsValue, string>)
    requires IsOk(status)
    requires contentType.None? || !Contains(contentType.value, "application/json")
    ensures GenerateDiary(words, Answered(status, contentType, raw, parsed)).result == Ok(Str(""))
  {
    EnvelopeChoice(contentType, raw, parsed);
  }

  /** Transport and JSON failures are rethrown with their own message. */
  lemma FailuresAreRethrown(words: seq<string>, reply: Reply)
    requires reply.Unreachable? || (Contains(if reply.contentType.Some? then reply.contentType.value else "", "application/json") && reply.parsed.Err?)
    ensures GenerateDiary(words, reply).result
      == Err(if reply.Unreachable? then reply.message else reply.parsed.error)
  {
  }

  /** A 500 JSON reply `{"error":"x","detail":"y"}` throws "x (y)". */
  lemma DetailedErrorExample(words: seq<string>, raw: string)
    ensures GenerateDiary(words, Answered(500, Some("application/json"), raw,
      Ok(Obj(map["error" := Str("x"), "detail" := Str("y")])))).result == Err("x (y)")
  {
    ContainsJsonType("", "");
    assert "" + JsonType + "" == JsonType;
    ErrorMessageComposition("x", "y", map[]);
    assert "x" + " (" + "y" + ")" == "x (y)";
    assert map[]["error" := Str("x")]["detail" := Str("y")] == map["error" := Str("x"), "detail" := Str("y")];
  }

  /** A 200 JSON reply `{"text":"日記"}` returns exactly "日記". */
  lemma TextExample(words: seq<string>, raw: string)
    ensures GenerateDiary(words, Answered(200, Some("application/json"), raw,
      Ok(Obj(map["text" := Str("日記")])))).result == Ok(Str("日記"))
  {
    ContainsJsonType("", "");
    assert "" + JsonType + "" == JsonType;
  }
}
