/**
 * w3cConverter of w3c/exceptions.kt: a W3C error body is recognised only when
 * the HTTP status and the `error` string match one entry of the table exactly.
 */
module W3CErrors {
  import opened Options
  import opened Json
  import opened W3CTable
  import opened Errors
  import opened Chain

  /** Entry `e` is the one the converter looks for, given the status and the `error` field. */
  predicate EntryMatches(e: W3CError, code: int, error: Option<string>) {
    e.HttpCode() == code && error == Some(e.Wire())
  }

  /** `value["error"]?.getString()`: null when the field is missing, its content otherwise. */
  function ErrorField(value: Fields): (r: Option<string>)
    ensures r.None? <==> Get(value, "error").None?
    ensures r.Some? ==> r.value == GetString(Get(value, "error"))
  {
    match Get(value, "error")
    case None => None
    case Some(e) => Some(GetString(Some(e)))
  }

  /** `firstOrNull` over a list of entries. */
  function FirstMatch(entries: seq<W3CError>, code: int, error: Option<string>): (r: Option<W3CError>)
    ensures r.Some? ==> r.value in entries && EntryMatches(r.value, code, error)
    ensures r.None? ==> forall i :: 0 <= i < |entries| ==> !EntryMatches(entries[i], code, error)
  {
    if entries == [] then None
    else if EntryMatches(entries[0], code, error) then Some(entries[0])
    else FirstMatch(entries[1..], code, error)
  }

  /** `W3CError.values().firstOrNull { it.httpCode == code && it.error == error }`. */
  function Lookup(code: int, error: Option<string>): Option<W3CError> {
    FirstMatch(Values, code, error)
  }

  /** The lookup finds entry `e` exactly when `e` matches: there is never a second candidate. */
  lemma LookupExact(e: W3CError, code: int, error: Option<string>)
    ensures Lookup(code, error) == Some(e) <==> EntryMatches(e, code, error)
  {
    var r := Lookup(code, error);
    if EntryMatches(e, code, error) {
      if r.Some? {
        WireInjective(r.value, e);
      } else {
        ValuesAtOrdinal(e);
        assert Values[e.Ordinal()] == e;
      }
    }
  }

  /** The lookup fails exactly when no entry has this status and error string. */
  lemma LookupNone(code: int, error: Option<string>)
    ensures Lookup(code, error).None? <==> forall e: W3CError :: !EntryMatches(e, code, error)
  {
    if Lookup(code, error).None? {
      forall e: W3CError ensures !EntryMatches(e, code, error) {
        LookupExact(e, code, error);
      }
    }
  }

  /**
   * w3cConverter: for a body whose `value` is an object and whose (status,
   * `value.error`) pair is in the table, an exception of that kind with the
   * message, stacktrace and data of the body; null for every other body.
   */
  function W3CConverter(code: int, body: Json): (r: Option<WebDriverException>)
    ensures ErrorValue(body).None? ==> r.None?
    ensures r.Some? ==> r.value.kind.Standard? && r.value.kind.entry.HttpCode() == code
    ensures r.Some? ==> r.value.stacktrace.Some?
  {
    match ErrorValue(body)
    case None => None
    case Some(value) =>
      match Lookup(code, ErrorField(value))
      case None => None
      case Some(e) =>
        Some(WebDriverException(
          GetString(Get(value, "message")),
          Standard(e),
          Some(GetString(Get(value, "stacktrace"))),
          Get(value, "data")))
  }

  /**
   * The converter recognises entry `e` exactly when the body carries an
   * object `value`, the status is e's code and `value.error` is e's string.
   */
  lemma W3CConverterExact(code: int, body: Json, e: W3CError)
    ensures (W3CConverter(code, body).Some? && W3CConverter(code, body).value.kind == Standard(e))
      <==> (ErrorValue(body).Some? && EntryMatches(e, code, ErrorField(ErrorValue(body).value)))
  {
    if ErrorValue(body).Some? {
      LookupExact(e, code, ErrorField(ErrorValue(body).value));
    }
  }

  /**
   * Round trip (the W3CErrors test): every entry's own status and error
   * string yield that entry, with the body's message and stacktrace.
   */
  lemma W3CRoundTrip(e: W3CError, message: string, stacktrace: string)
    ensures W3CConverter(e.HttpCode(), ErrorBody(e.Wire(), message, stacktrace))
      == Some(WebDriverException(message, Standard(e), Some(stacktrace), None))
  {
    LookupExact(e, e.HttpCode(), Some(e.Wire()));
    ConverterReadsBody(e.HttpCode(), e.Wire(), message, stacktrace, e);
  }

  /** Once the lookup finds `e`, the exception carries the body's message and stacktrace and no data. */
  lemma ConverterReadsBody(code: int, error: string, message: string, stacktrace: string, e: W3CError)
    requires Lookup(code, Some(error)) == Some(e)
    ensures W3CConverter(code, ErrorBody(error, message, stacktrace))
      == Some(WebDriverException(message, Standard(e), Some(stacktrace), None))
  {
    hide Lookup, W3CError.HttpCode, W3CError.Wire;
    var v: Fields := [("error", JString(error)), ("message", JString(message)), ("stacktrace", JString(stacktrace))];
    assert ErrorValue(ErrorBody(error, message, stacktrace)) == Some(v);
    assert v[1..] == [("message", JString(message)), ("stacktrace", JString(stacktrace))];
    assert v[2..] == [("stacktrace", JString(stacktrace))];
    assert ErrorField(v) == Some(error);
    assert Get(v, "message") == Some(JString(message));
    assert Get(v, "stacktrace") == Get(v[1..], "stacktrace") == Get(v[2..], "stacktrace");
    assert Get(v, "data") == None;
  }

  /** A table error string sent with any other status is not recognised. */
  lemma W3CWrongStatus(e: W3CError, code: int, message: string, stacktrace: string)
    requires code != e.HttpCode()
    ensures W3CConverter(code, ErrorBody(e.Wire(), message, stacktrace)).None?
  {
    var v: Fields := [("error", JString(e.Wire())), ("message", JString(message)), ("stacktrace", JString(stacktrace))];
    assert ErrorValue(ErrorBody(e.Wire(), message, stacktrace)) == Some(v);
    assert ErrorField(v) == Some(e.Wire());
    LookupNone(code, Some(e.Wire()));
    forall d: W3CError ensures !EntryMatches(d, code, Some(e.Wire())) {
      if EntryMatches(d, code, Some(e.Wire())) {
        WireInjective(d, e);
      }
    }
  }

  /** A `value` without an `error` field is never recognised, whatever the status. */
  lemma W3CMissingError(code: int)
    ensures W3CConverter(code, JObject([("value", JObject([]))])).None?
  {
  }

  /**
   * The driver of the mock tests, configured with w3cConverter: every table
   * entry's own (status, error) pair gives its W3C kind...
   */
  lemma W3CChainKnown(e: W3CError, message: string, stacktrace: string)
    ensures Select([W3CConverter], e.HttpCode(), ErrorBody(e.Wire(), message, stacktrace))
      == Some(WebDriverException(message, Standard(e), Some(stacktrace), None))
  {
    W3CRoundTrip(e, message, stacktrace);
    LastAddedWins([W3CConverter], 0, e.HttpCode(), ErrorBody(e.Wire(), message, stacktrace));
  }

  /** ...and any pair outside the table falls through to the default's UnknownErrorKind(status, error). */
  lemma W3CChainUnknown(code: int, error: string, message: string, stacktrace: string)
    requires forall e: W3CError :: !(e.HttpCode() == code && e.Wire() == error)
    ensures Select([W3CConverter], code, ErrorBody(error, message, stacktrace))
      == Some(WebDriverException(message, UnknownErrorKind(code, error), Some(stacktrace), None))
  {
    var body := ErrorBody(error, message, stacktrace);
    var v: Fields := [("error", JString(error)), ("message", JString(message)), ("stacktrace", JString(stacktrace))];
    assert ErrorValue(body) == Some(v);
    assert ErrorField(v) == Some(error);
    LookupNone(code, Some(error));
    assert W3CConverter(code, body).None?;
    DefaultOnlyWhenAllNull([W3CConverter], code, body);
    DefaultReadsErrorBody(code, error, message, stacktrace);
  }
}
