/**
 * Request routing and response decoding of core/ktor.kt, and the WebDriver
 * and Session objects of core/common.kt.
 *
 * The remote end is a scripted responder, like the mock engine of the test
 * suite: each request takes the next scripted answer, and `None` (or an
 * exhausted script) is an HTTP failure that is not a WebDriverException.
 */
module Transport {
  import opened Options
  import opened Json
  import opened Errors
  import opened Chain
  import opened Decoding

  datatype Verb = GET | POST | DELETE

  datatype Request = Request(verb: Verb, url: string, body: Option<Json>)

  datatype Response = Response(status: int, body: Json)

  /** The remote end's answer to one request; None is a failed exchange. */
  type Answer = Option<Response>

  /** What a call returns: Unit, or the decoded `value`. */
  datatype Decoded = UnitValue | Value(json: Json)

  /** The result type R of a call: Unit, or a serializable type. */
  datatype CallType = UnitCall | Typed(t: ValueType)

  /**
   * A driver's fixed state: the base URL, `errorConverters` (already in the
   * reversed order the driver stores them in) and, when the client was built
   * by the `webdriver(...)` factories, the converters of the response validator.
   */
  datatype Config = Config(baseUrl: string, errorConverters: seq<Converter>, validator: Option<seq<Converter>>)

  /** The next scripted answer; an exhausted script fails the exchange. */
  function NextAnswer(answers: seq<Answer>): Answer {
    if answers == [] then None else answers[0]
  }

  function RestAnswers(answers: seq<Answer>): (r: seq<Answer>)
    ensures answers != [] ==> |r| == |answers| - 1
    ensures answers == [] ==> r == []
  {
    if answers == [] then [] else answers[1..]
  }

  /** A converter result turned into what is thrown: the exception, or NoSuchElementException. */
  function Raise(selected: Option<WebDriverException>): (f: Failure)
    ensures f.DriverError? <==> selected.Some?
    ensures f.DriverError? ==> f.exc == selected.value
    ensures selected.None? ==> f == NoSuchElement
  {
    match selected
    case Some(e) => DriverError(e)
    case None => NoSuchElement
  }

  /**
   * decodeWebDriver: the envelope's `value` when the body decodes as
   * WebDriverResponse<R>; otherwise the first non-null converter result on
   * (status, body) is thrown, or NoSuchElementException when all are null.
   */
  function DecodeWebDriver(t: ValueType, resp: Response, convs: seq<Converter>): (r: Outcome<Json>)
    ensures DecodeResponse(t, resp.body).Some? ==> r == Ok(DecodeResponse(t, resp.body).value)
    ensures DecodeResponse(t, resp.body).None? ==> r == Thrown(Raise(FirstNotNull(convs, resp.status, resp.body)))
  {
    match DecodeResponse(t, resp.body)
    case Some(v) => Ok(v)
    case None => Thrown(Raise(FirstNotNull(convs, resp.status, resp.body)))
  }

  /** The type a `get` decodes: R itself, with Unit as the empty object. */
  function GetType(c: CallType): ValueType {
    match c
    case UnitCall => EmptyT
    case Typed(t) => t
  }

  /** The type `decodeNullable` decodes: `Empty?` for Unit, R otherwise. */
  function NullableType(c: CallType): ValueType {
    match c
    case UnitCall => NullableT(EmptyT)
    case Typed(t) => t
  }

  function AsDecoded(c: CallType, o: Outcome<Json>): (r: Outcome<Decoded>)
    ensures o.Thrown? <==> r.Thrown?
    ensures o.Thrown? ==> r.failure == o.failure
    ensures o.Ok? && c.UnitCall? ==> r == Ok(UnitValue)
    ensures o.Ok? && c.Typed? ==> r == Ok(Value(o.value))
  {
    match o
    case Thrown(f) => Thrown(f)
    case Ok(v) => if c.UnitCall? then Ok(UnitValue) else Ok(Value(v))
  }

  /** decodeNullable, the decoding step of `post` and `delete`. */
  function DecodeNullable(c: CallType, resp: Response, convs: seq<Converter>): Outcome<Decoded> {
    AsDecoded(c, DecodeWebDriver(NullableType(c), resp, convs))
  }

  /** The decoding step of `get`: no Unit shortcut. */
  function DecodeGet(c: CallType, resp: Response, convs: seq<Converter>): Outcome<Decoded> {
    AsDecoded(c, DecodeWebDriver(GetType(c), resp, convs))
  }

  /**
   * One exchange as the caller sees it: a failed exchange, the validator's
   * exception for a non-success status, or the verb's decoding step.
   */
  function Receive(cfg: Config, verb: Verb, c: CallType, answer: Answer): (r: Outcome<Decoded>)
    ensures answer.None? ==> r == Thrown(TransportFailure)
    ensures answer.Some? && cfg.validator.Some? && !IsSuccessStatus(answer.value.status) ==>
      r == Thrown(Raise(Select(cfg.validator.value, answer.value.status, answer.value.body)))
  {
    match answer
    case None => Thrown(TransportFailure)
    case Some(resp) =>
      if cfg.validator.Some? && !IsSuccessStatus(resp.status) then
        Thrown(Raise(Select(cfg.validator.value, resp.status, resp.body)))
      else if verb == GET then DecodeGet(c, resp, cfg.errorConverters)
      else DecodeNullable(c, resp, cfg.errorConverters)
  }

  /** The request a driver call sends: `baseUrl + path`, with a body only for POST. */
  function RequestOf(cfg: Config, verb: Verb, path: string, body: Option<Json>): (r: Request)
    ensures r.verb == verb && r.url == cfg.baseUrl + path && r.body == body
  {
    Request(verb, cfg.baseUrl + path, body)
  }

  /** `"/session/$sessionId$path"`. */
  function SessionPath(sid: string, path: string): (r: string)
    ensures |r| == 9 + |sid| + |path|
    ensures r[..9] == "/session/" && r[9..9 + |sid|] == sid && r[9 + |sid|..] == path
  {
    "/session/" + sid + path
  }

  /** `"/element/$elementId$path"`, relative to the session. */
  function ElementPath(eid: string, path: string): (r: string)
    ensures |r| == 9 + |eid| + |path|
    ensures r[..9] == "/element/" && r[9..9 + |eid|] == eid && r[9 + |eid|..] == path
  {
    "/element/" + eid + path
  }

  /** Position of the first '/' in `s`, or |s|. */
  function SlashIndex(s: string): (k: nat)
    ensures k <= |s|
    ensures forall i :: 0 <= i < k ==> s[i] != '/'
    ensures k < |s| ==> s[k] == '/'
  {
    if s == [] || s[0] == '/' then 0 else 1 + SlashIndex(s[1..])
  }

  /** Reads a session path back into its session id and relative path. */
  function ParseSessionPath(url: string): Option<(string, string)> {
    if |url| >= 9 && url[..9] == "/session/" then
      var rest := url[9..];
      var k := SlashIndex(rest);
      Some((rest[..k], rest[k..]))
    else None
  }

  /**
   * Session paths read back: a session id without '/' and a relative path
   * that is empty or starts with '/' are recovered, so distinct sessions or
   * distinct relative paths never share a URL.
   */
  lemma SessionPathRoundTrip(sid: string, path: string)
    requires forall i :: 0 <= i < |sid| ==> sid[i] != '/'
    requires path == [] || path[0] == '/'
    ensures ParseSessionPath(SessionPath(sid, path)) == Some((sid, path))
  {
    var url := SessionPath(sid, path);
    var rest := url[9..];
    assert rest == sid + path;
    SlashPrefix(sid, path);
  }

  lemma {:induction false} SlashPrefix(a: string, b: string)
    requires forall i :: 0 <= i < |a| ==> a[i] != '/'
    requires b == [] || b[0] == '/'
    ensures SlashIndex(a + b) == |a|
  {
    if a != [] {
      assert (a + b)[1..] == a[1..] + b;
      SlashPrefix(a[1..], b);
    } else {
      assert a + b == b;
    }
  }

  /** Session calls are distinguished by session id and relative path. */
  lemma SessionPathInjective(s1: string, p1: string, s2: string, p2: string)
    requires forall i :: 0 <= i < |s1| ==> s1[i] != '/'
    requires forall i :: 0 <= i < |s2| ==> s2[i] != '/'
    requires p1 == [] || p1[0] == '/'
    requires p2 == [] || p2[0] == '/'
    requires SessionPath(s1, p1) == SessionPath(s2, p2)
    ensures s1 == s2 && p1 == p2
  {
    SessionPathRoundTrip(s1, p1);
    SessionPathRoundTrip(s2, p2);
  }

  /** An element call targets `/session/{sid}/element/{eid}` followed by the path. */
  lemma ElementCallPath(sid: string, eid: string, path: string)
    ensures SessionPath(sid, ElementPath(eid, path)) == "/session/" + sid + "/element/" + eid + path
  {
  }

  /** The remote end of one driver: the scripted answers still to come and the requests sent so far. */
  class Remote {
    var answers: seq<Answer>
    var sent: seq<Request>

    constructor(script: seq<Answer>)
      ensures answers == script && sent == []
    {
      answers := script;
      sent := [];
    }

    /** Sends one request and takes the next answer. */
    method Exchange(req: Request) returns (a: Answer)
      modifies this
      ensures a == NextAnswer(old(answers))
      ensures answers == RestAnswers(old(answers))
      ensures sent == old(sent) + [req]
    {
      a := NextAnswer(answers);
      answers := RestAnswers(answers);
      sent := sent + [req];
    }
  }

  /** What one driver call returns and what is left of the script afterwards. */
  function CallSpec(cfg: Config, verb: Verb, c: CallType, answers: seq<Answer>): (Outcome<Decoded>, seq<Answer>) {
    (Receive(cfg, verb, c, NextAnswer(answers)), RestAnswers(answers))
  }

  /**
   * WebDriver: its base URL, the converters `decodeWebDriver` consults (the
   * configured ones reversed) and the client's validator.
   */
  class WebDriver {
    const baseUrl: string
    const errorConverters: seq<Converter>
    const validator: Option<seq<Converter>>
    const remote: Remote

    constructor(baseUrl: string, configured: seq<Converter>, validator: Option<seq<Converter>>, remote: Remote)
      ensures this.baseUrl == baseUrl && this.validator == validator && this.remote == remote
      ensures errorConverters == Reverse(configured)
    {
      this.baseUrl := baseUrl;
      this.errorConverters := Reverse(configured);
      this.validator := validator;
      this.remote := remote;
    }

    function Cfg(): Config {
      Config(baseUrl, errorConverters, validator)
    }

    /** `WebDriver.get`: GET `baseUrl + path`, decoded as R. */
    method Get(path: string, c: CallType) returns (r: Outcome<Decoded>)
      modifies remote
      ensures remote.sent == old(remote.sent) + [RequestOf(Cfg(), GET, path, None)]
      ensures (r, remote.answers) == CallSpec(Cfg(), GET, c, old(remote.answers))
    {
      var a := remote.Exchange(RequestOf(Cfg(), GET, path, None));
      r := Receive(Cfg(), GET, c, a);
    }

    /** `WebDriver.post`: POST `body` to `baseUrl + path`, decoded by decodeNullable. */
    method Post(path: string, body: Json, c: CallType) returns (r: Outcome<Decoded>)
      modifies remote
      ensures remote.sent == old(remote.sent) + [RequestOf(Cfg(), POST, path, Some(body))]
      ensures (r, remote.answers) == CallSpec(Cfg(), POST, c, old(remote.answers))
    {
      var a := remote.Exchange(RequestOf(Cfg(), POST, path, Some(body)));
      r := Receive(Cfg(), POST, c, a);
    }

    /** `WebDriver.delete`: DELETE `baseUrl + path`, decoded by decodeNullable. */
    method Delete(path: string, c: CallType) returns (r: Outcome<Decoded>)
      modifies remote
      ensures remote.sent == old(remote.sent) + [RequestOf(Cfg(), DELETE, path, None)]
      ensures (r, remote.answers) == CallSpec(Cfg(), DELETE, c, old(remote.answers))
    {
      var a := remote.Exchange(RequestOf(Cfg(), DELETE, path, None));
      r := Receive(Cfg(), DELETE, c, a);
    }
  }

  /** The type `Session.close` decodes its reply as (`String?`). */
  const CloseType := Typed(NullableT(StringT))

  class Session {
    const sessionId: string
    const webDriver: WebDriver

    constructor(sessionId: string, webDriver: WebDriver)
      ensures this.sessionId == sessionId && this.webDriver == webDriver
    {
      this.sessionId := sessionId;
      this.webDriver := webDriver;
    }

    /** `Session.get`: the driver's get on `/session/{sessionId}` + path. */
    method Get(path: string, c: CallType) returns (r: Outcome<Decoded>)
      modifies webDriver.remote
      ensures webDriver.remote.sent == old(webDriver.remote.sent) + [RequestOf(webDriver.Cfg(), GET, SessionPath(sessionId, path), None)]
      ensures (r, webDriver.remote.answers) == CallSpec(webDriver.Cfg(), GET, c, old(webDriver.remote.answers))
    {
      r := webDriver.Get(SessionPath(sessionId, path), c);
    }

    /** `Session.post`: the driver's post on `/session/{sessionId}` + path. */
    method Post(path: string, body: Json, c: CallType) returns (r: Outcome<Decoded>)
      modifies webDriver.remote
      ensures webDriver.remote.sent == old(webDriver.remote.sent) + [RequestOf(webDriver.Cfg(), POST, SessionPath(sessionId, path), Some(body))]
      ensures (r, webDriver.remote.answers) == CallSpec(webDriver.Cfg(), POST, c, old(webDriver.remote.answers))
    {
      r := webDriver.Post(SessionPath(sessionId, path), body, c);
    }

    /** `Session.delete`: the driver's delete on `/session/{sessionId}` + path. */
    method Delete(path: string, c: CallType) returns (r: Outcome<Decoded>)
      modifies webDriver.remote
      ensures webDriver.remote.sent == old(webDriver.remote.sent) + [RequestOf(webDriver.Cfg(), DELETE, SessionPath(sessionId, path), None)]
      ensures (r, webDriver.remote.answers) == CallSpec(webDriver.Cfg(), DELETE, c, old(webDriver.remote.answers))
    {
      r := webDriver.Delete(SessionPath(sessionId, path), c);
    }

    /** `Session.close`: DELETE `/session/{sessionId}`, the reply decoded as `String?`. */
    method Close() returns (r: Outcome<Decoded>)
      modifies webDriver.remote
      ensures webDriver.remote.sent == old(webDriver.remote.sent) + [RequestOf(webDriver.Cfg(), DELETE, "/session/" + sessionId, None)]
      ensures (r, webDriver.remote.answers) == CallSpec(webDriver.Cfg(), DELETE, CloseType, old(webDriver.remote.answers))
    {
      r := webDriver.Delete("/session/" + sessionId, CloseType);
    }
  }

  /** A typed call that returns has read a `value` its type accepts. */
  lemma ReceivedValueAccepted(cfg: Config, verb: Verb, t: ValueType, a: Answer)
    requires Receive(cfg, verb, Typed(t), a).Ok?
    ensures Receive(cfg, verb, Typed(t), a).value.Value?
    ensures Accepts(t, Receive(cfg, verb, Typed(t), a).value.json)
  {
  }

  /** When the body decodes, the result is its `value` whatever the status. */
  lemma DecodeIgnoresStatus(t: ValueType, s1: int, s2: int, body: Json, convs: seq<Converter>)
    requires DecodeResponse(t, body).Some?
    ensures DecodeWebDriver(t, Response(s1, body), convs) == DecodeWebDriver(t, Response(s2, body), convs)
    ensures DecodeWebDriver(t, Response(s1, body), convs) == Ok(body.fields[0].1)
  {
  }

  /** With no converter recognising the body, an undecodable body raises NoSuchElementException. */
  lemma UndecodableWithoutConverter(t: ValueType, resp: Response, convs: seq<Converter>)
    requires DecodeResponse(t, resp.body).None?
    requires AllNull(convs, resp.status, resp.body)
    ensures DecodeWebDriver(t, resp, convs) == Thrown(NoSuchElement)
  {
  }

  /** A Unit `post` or `delete` accepts `null` and `{}` and returns Unit. */
  lemma UnitPostAcceptsNull(cfg: Config, verb: Verb, status: int)
    requires verb != GET
    requires cfg.validator.None? || IsSuccessStatus(status)
    ensures Receive(cfg, verb, UnitCall, Some(Response(status, JObject([("value", JNull)])))) == Ok(UnitValue)
    ensures Receive(cfg, verb, UnitCall, Some(Response(status, JObject([("value", JObject([]))])))) == Ok(UnitValue)
  {
  }

  /** A Unit `get` has no such shortcut: `null` is not the Unit object and goes to the converters. */
  lemma UnitGetRejectsNull(cfg: Config, status: int)
    requires cfg.validator.None? || IsSuccessStatus(status)
    ensures Receive(cfg, GET, UnitCall, Some(Response(status, JObject([("value", JNull)]))))
      == Thrown(Raise(FirstNotNull(cfg.errorConverters, status, JObject([("value", JNull)]))))
  {
  }

  /** A success status is never turned into a WebDriverException by the validator. */
  lemma SuccessSkipsValidator(cfg: Config, verb: Verb, c: CallType, resp: Response)
    requires IsSuccessStatus(resp.status)
    ensures Receive(cfg, verb, c, Some(resp))
      == if verb == GET then DecodeGet(c, resp, cfg.errorConverters) else DecodeNullable(c, resp, cfg.errorConverters)
  {
  }

  /** Behind the factories' validator a non-success status always raises a WebDriverException. */
  lemma ValidatorAlwaysRaises(cfg: Config, verb: Verb, c: CallType, resp: Response)
    requires cfg.validator.Some? && !IsSuccessStatus(resp.status)
    ensures Receive(cfg, verb, c, Some(resp)).Thrown?
    ensures Receive(cfg, verb, c, Some(resp)).failure.DriverError?
  {
    SelectAlwaysSucceeds(cfg.validator.value, resp.status, resp.body);
  }

  /** Closing through the api's `delete("")` and through the member targets the same URL. */
  lemma CloseTargetsSession(sid: string)
    ensures SessionPath(sid, "") == "/session/" + sid
  {
  }
}
