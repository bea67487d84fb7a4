/**
 * core/exceptions.kt: the error kinds, the WebDriverException a failed call
 * raises, the converter type and the default converter. `Failure` and
 * `Outcome` stand for the exceptions the driver's calls can raise.
 */
module Errors {
  import opened Options
  import opened Json
  import opened W3CTable

  /** ErrorKind: a W3C table entry, or UnknownErrorKind(code, error) for anything else. */
  datatype ErrorKind =
    | Standard(entry: W3CError)
    | UnknownErrorKind(code: int, error: string)

  /**
   * WebDriverException(message, kind, stacktrace, data). `message` is the
   * constructor argument; the exception's own message is Message() below.
   * `stacktrace` defaults to null and `data` to null.
   */
  datatype WebDriverException = WebDriverException(
    message: string,
    kind: ErrorKind,
    stacktrace: Option<string>,
    data: Option<Json>)
  {
    /** Exception("$message: $kind"). */
    function Message(): string {
      message + ": " + KindToString(kind)
    }
  }

  /** toString of a kind: the enum constant's name, or the data-class rendering. */
  function KindToString(k: ErrorKind): string {
    match k
    case Standard(e) => e.Name()
    case UnknownErrorKind(c, e) => "UnknownErrorKind(code=" + IntToString(c) + ", error=" + e + ")"
  }

  /** The exception's text is the message argument, ": ", then the kind's text. */
  lemma MessageSplits(x: WebDriverException)
    ensures |x.Message()| == |x.message| + 2 + |KindToString(x.kind)|
    ensures x.Message()[..|x.message|] == x.message
    ensures x.Message()[|x.message|..|x.message| + 2] == ": "
    ensures x.Message()[|x.message| + 2..] == KindToString(x.kind)
  {
  }

  /** A W3C kind is shown by its enum constant's name (the stale-element case, here). */
  lemma StaleMessage(message: string)
    ensures WebDriverException(message, Standard(StaleElementReference), None, None).Message()
      == message + ": STALE_ELEMENT_REFERENCE"
  {
  }

  /** The text of an integer has no comma. */
  lemma IntTextHasNoComma(i: int)
    ensures forall k :: 0 <= k < |IntToString(i)| ==> IntToString(i)[k] != ','
  {
    if i < 0 {
      var p := NatToString(-i);
      forall k | 0 <= k < |IntToString(i)| ensures IntToString(i)[k] != ',' {
        if k > 0 { assert IntToString(i)[k] == p[k - 1]; }
      }
    }
  }

  /** Text without a comma, followed by text starting with a comma, splits at that comma only. */
  lemma {:induction false} SplitAtComma(n1: string, r1: string, n2: string, r2: string)
    requires forall k :: 0 <= k < |n1| ==> n1[k] != ','
    requires forall k :: 0 <= k < |n2| ==> n2[k] != ','
    requires |r1| > 0 && r1[0] == ',' && |r2| > 0 && r2[0] == ','
    requires n1 + r1 == n2 + r2
    ensures n1 == n2 && r1 == r2
  {
    var m := if |n1| < |n2| then |n1| else |n2|;
    assert (n1 + r1)[m] == ',' <==> m == |n1|;
    assert (n2 + r2)[m] == ',' <==> m == |n2|;
    assert n1 == (n1 + r1)[..|n1|] == (n2 + r2)[..|n2|] == n2;
    assert r1 == (n1 + r1)[|n1|..] == (n2 + r2)[|n2|..] == r2;
  }

  /**
   * The text of an UnknownErrorKind, `UnknownErrorKind(code=…, error=…)`,
   * gives back both its code and its error string.
   */
  lemma UnknownKindTextInjective(c1: int, e1: string, c2: int, e2: string)
    requires KindToString(UnknownErrorKind(c1, e1)) == KindToString(UnknownErrorKind(c2, e2))
    ensures c1 == c2 && e1 == e2
  {
    hide IntToString, NatToString;
    var prefix := "UnknownErrorKind(code=";
    var n1, n2 := IntToString(c1), IntToString(c2);
    var r1, r2 := ", error=" + e1 + ")", ", error=" + e2 + ")";
    assert KindToString(UnknownErrorKind(c1, e1)) == prefix + (n1 + r1);
    assert KindToString(UnknownErrorKind(c2, e2)) == prefix + (n2 + r2);
    assert n1 + r1 == n2 + r2 by {
      assert n1 + r1 == (prefix + (n1 + r1))[|prefix|..];
      assert n2 + r2 == (prefix + (n2 + r2))[|prefix|..];
    }
    IntTextHasNoComma(c1);
    IntTextHasNoComma(c2);
    SplitAtComma(n1, r1, n2, r2);
    IntToStringInjective(c1, c2);
    assert e1 == r1[8..|r1| - 1] && e2 == r2[8..|r2| - 1];
  }

  /** ErrorConverter: (status, body) to an exception, or null when it does not recognise the body. */
  type Converter = (int, Json) -> Option<WebDriverException>

  /** The exceptions a driver call can end in. */
  datatype Failure =
    | DriverError(exc: WebDriverException)     // WebDriverException from a converter
    | NoSuchElement                            // firstNotNullOf found no non-null converter result
    | TransportFailure                         // the HTTP exchange itself failed; not reclassified
    | NotImplemented                           // TODO() in a refresh closure
    | Unsupported                              // UnsupportedOperationException from a deserializer
    | ClassCast                                // ClassCastException where a value is used as its declared type
    | Timeout                                  // TimeoutException from a wait that never saw its condition hold

  datatype Outcome<+T> = Ok(value: T) | Thrown(failure: Failure)

  /** The text the default converter uses for a body that is not a W3C error. */
  const NonW3CMessage := "This response - non-W3C response, cannot deserialize as Success nor Error"

  /** `body.asObj()?.get("value")?.asObj()`: the fields of an error body's `value` object. */
  function ErrorValue(body: Json): (r: Option<Fields>)
    ensures r.Some? <==> body.JObject? && Get(body.fields, "value").Some? && Get(body.fields, "value").value.JObject?
  {
    match AsObj(body)
    case None => None
    case Some(top) =>
      match Get(top, "value")
      case None => None
      case Some(v) => AsObj(v)
  }

  /**
   * defaultConverter: never null. A body whose `value` is an object gives
   * UnknownErrorKind(code, value.error) with the message, stacktrace and data
   * taken from that object; any other body gives UnknownErrorKind(code, "unknown")
   * with the fixed non-W3C message and an empty stacktrace.
   */
  function DefaultConverter(code: int, body: Json): (r: Option<WebDriverException>)
    ensures r.Some?
    ensures r.value.kind.UnknownErrorKind? && r.value.kind.code == code
    ensures r.value.stacktrace.Some?
    ensures ErrorValue(body).None? ==>
      && r.value.kind.error == "unknown"
      && r.value.message == NonW3CMessage
      && r.value.stacktrace == Some("")
      && r.value.data.None?
    ensures body.JObject? && Get(body.fields, "value").Some? && Get(body.fields, "value").value.JObject? ==>
      var v := Get(body.fields, "value").value.fields;
      && r.value.message == GetString(Get(v, "message"))
      && r.value.kind.error == GetString(Get(v, "error"))
      && r.value.stacktrace == Some(GetString(Get(v, "stacktrace")))
      && r.value.data == Get(v, "data")
  {
    match ErrorValue(body)
    case Some(value) =>
      Some(WebDriverException(
        GetString(Get(value, "message")),
        UnknownErrorKind(code, GetString(Get(value, "error"))),
        Some(GetString(Get(value, "stacktrace"))),
        Get(value, "data")))
    case None =>
      Some(WebDriverException(NonW3CMessage, UnknownErrorKind(code, "unknown"), Some(""), None))
  }

  /** A W3C error body: {"value": {"error": e, "message": m, "stacktrace": s}}. */
  function ErrorBody(error: string, message: string, stacktrace: string): Json {
    JObject([("value", JObject([
      ("error", JString(error)),
      ("message", JString(message)),
      ("stacktrace", JString(stacktrace))]))])
  }

  /** The same body with a `data` member after the other three. */
  function ErrorBodyWithData(error: string, message: string, stacktrace: string, data: Json): Json {
    JObject([("value", JObject([
      ("error", JString(error)),
      ("message", JString(message)),
      ("stacktrace", JString(stacktrace)),
      ("data", data)]))])
  }

  /**
   * Round trip: the default converter reads back every field of a W3C error
   * body, whatever the error string, so an unrecognised (status, error) pair
   * yields UnknownErrorKind(status, error) and never a crash.
   */
  lemma DefaultReadsErrorBody(code: int, error: string, message: string, stacktrace: string)
    ensures DefaultConverter(code, ErrorBody(error, message, stacktrace))
      == Some(WebDriverException(message, UnknownErrorKind(code, error), Some(stacktrace), None))
  {
    var v3: Fields := [("stacktrace", JString(stacktrace))];
    var v2: Fields := [("message", JString(message))] + v3;
    var v: Fields := [("error", JString(error))] + v2;
    hide DefaultConverter, Get;
    ReadsValueFields(code, v, error, message, stacktrace, v3, []);
    assert v == [("error", JString(error)), ("message", JString(message)), ("stacktrace", JString(stacktrace))];
    assert [("value", JObject(v))] + [] == [("value", JObject(v))];
    assert v3[1..] == [];
  }

  /** The same round trip with a `data` member, which the exception carries unchanged. */
  lemma DefaultReadsErrorData(code: int, error: string, message: string, stacktrace: string, data: Json)
    ensures DefaultConverter(code, ErrorBodyWithData(error, message, stacktrace, data))
      == Some(WebDriverException(message, UnknownErrorKind(code, error), Some(stacktrace), Some(data)))
  {
    var v4: Fields := [("data", data)];
    var v3: Fields := [("stacktrace", JString(stacktrace))] + v4;
    var v2: Fields := [("message", JString(message))] + v3;
    var v: Fields := [("error", JString(error))] + v2;
    hide DefaultConverter, Get;
    ReadsValueFields(code, v, error, message, stacktrace, v3, []);
    assert v == [("error", JString(error)), ("message", JString(message)), ("stacktrace", JString(stacktrace)), ("data", data)];
    assert [("value", JObject(v))] + [] == [("value", JObject(v))];
    assert v3[1..] == v4 == [("data", data)] + [];
    GetHead("data", data, []);
  }

  /** The default converter on {"value": v} where v starts with error, message and stacktrace texts. */
  lemma ReadsValueFields(code: int, v: Fields, error: string, message: string, stacktrace: string, v3: Fields, rest: Fields)
    requires v3 != [] && v3[0] == ("stacktrace", JString(stacktrace))
    requires v == [("error", JString(error))] + ([("message", JString(message))] + v3)
    ensures DefaultConverter(code, JObject([("value", JObject(v))] + rest))
      == Some(WebDriverException(message, UnknownErrorKind(code, error), Some(stacktrace), Get(v3[1..], "data")))
  {
    hide DefaultConverter, Get;
    var v2 := [("message", JString(message))] + v3;
    assert v3 == [("stacktrace", JString(stacktrace))] + v3[1..];
    GetHead("value", JObject(v), rest);
    GetHead("error", JString(error), v2);
    GetPast("error", JString(error), v2, "message");
    GetHead("message", JString(message), v3);
    GetPast("error", JString(error), v2, "stacktrace");
    GetPast("message", JString(message), v3, "stacktrace");
    GetHead("stacktrace", JString(stacktrace), v3[1..]);
    GetPast("error", JString(error), v2, "data");
    GetPast("message", JString(message), v3, "data");
    GetPast("stacktrace", JString(stacktrace), v3[1..], "data");
    GetStringOfString(error);
    GetStringOfString(message);
    GetStringOfString(stacktrace);
  }

  /** Absent message, error and stacktrace fields read as "", and a missing `data` as null. */
  lemma DefaultEmptyValue(code: int)
    ensures DefaultConverter(code, JObject([("value", JObject([]))]))
      == Some(WebDriverException("", UnknownErrorKind(code, ""), Some(""), None))
  {
  }

  /** A `value` that is not an object (null, here) is the non-W3C case. */
  lemma DefaultNullValue(code: int)
    ensures DefaultConverter(code, JObject([("value", JNull)]))
      == Some(WebDriverException(NonW3CMessage, UnknownErrorKind(code, "unknown"), Some(""), None))
  {
  }
}
