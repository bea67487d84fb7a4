/**
 * w3c/api.kt run against a session: every catalogue command as one call of
 * the session or of an element handle, session creation, and the commands
 * that hand out element handles together with the refresh closure each
 * handle is created with.
 */
module Api {
  import opened Options
  import opened Json
  import opened Errors
  import opened Chain
  import opened Decoding
  import opened Wire
  import opened Transport
  import opened Element
  import opened Catalogue
  import opened Capabilities
  import opened W3CTable
  import opened W3CErrors

  /** Runs a session command: the catalogue's verb, path, body and reply type, through the session. */
  method Run(session: Session, c: Command) returns (r: Outcome<Decoded>)
    modifies session.webDriver.remote
    ensures session.webDriver.remote.sent == old(session.webDriver.remote.sent)
      + [RequestOf(session.webDriver.Cfg(), Route(c).0, SessionPath(session.sessionId, Route(c).1), BodyOf(c))]
    ensures (r, session.webDriver.remote.answers) == CallSpec(session.webDriver.Cfg(), Route(c).0, ResultOf(c), old(session.webDriver.remote.answers))
  {
    var (verb, path) := Route(c);
    match verb
    case GET => r := session.Get(path, ResultOf(c));
    case POST => r := session.Post(path, BodyOf(c).value, ResultOf(c));
    case DELETE => r := session.Delete(path, ResultOf(c));
  }

  /** Runs an element command through the handle's retrying get, post or delete. */
  method RunOnElement(e: WebElement, ec: ElementCommand) returns (r: Outcome<Decoded>)
    modifies e, e.session.webDriver.remote
    ensures var t := RetrySpec(e.session.webDriver.Cfg(), e.session.sessionId, old(e.elementId), e.refresh,
                               ElementRoute(ec).0, ElementRoute(ec).1, ElementBody(ec), ElementResult(ec), old(e.session.webDriver.remote.answers));
      && r == t.result && e.elementId == t.elementId
      && e.session.webDriver.remote.answers == t.answers
      && e.session.webDriver.remote.sent == old(e.session.webDriver.remote.sent) + t.sent
  {
    var (verb, path) := ElementRoute(ec);
    if verb == GET {
      r := e.Get(path, ElementResult(ec));
    } else {
      r := e.Post(path, ElementBody(ec).value, ElementResult(ec));
    }
  }

  /** `WebDriver.status()`: GET /status, read as Status. */
  method Status(driver: WebDriver) returns (r: Outcome<Decoded>)
    modifies driver.remote
    ensures driver.remote.sent == old(driver.remote.sent) + [RequestOf(driver.Cfg(), GET, "/status", None)]
    ensures (r, driver.remote.answers) == CallSpec(driver.Cfg(), GET, Typed(StatusT), old(driver.remote.answers))
  {
    r := driver.Get("/status", Typed(StatusT));
  }

  /** `.sessionId` of a decoded CreateSessionResponse. */
  function SessionIdOf(d: Decoded): string {
    if d.Value? && d.json.JObject? then GetString(Get(d.json.fields, "sessionId")) else ""
  }

  /**
   * `DefaultSessionCreator.create`, which `session(caps)` always uses: POST
   * the parameters to /session and wrap the returned `sessionId` in a new
   * Session of this driver; a failed call creates nothing.
   */
  method CreateSession(driver: WebDriver, params: NewSessionParameters) returns (r: Outcome<Session>)
    modifies driver.remote
    ensures driver.remote.sent == old(driver.remote.sent) + [RequestOf(driver.Cfg(), POST, "/session", Some(EncodeParameters(params)))]
    ensures var (d, rest) := CallSpec(driver.Cfg(), POST, Typed(NewSessionT), old(driver.remote.answers));
      && driver.remote.answers == rest
      && (d.Thrown? ==> r == Thrown(d.failure))
      && (d.Ok? ==> r.Ok? && fresh(r.value) && r.value.sessionId == SessionIdOf(d.value) && r.value.webDriver == driver)
  {
    var d := driver.Post("/session", EncodeParameters(params), Typed(NewSessionT));
    if d.Thrown? {
      r := Thrown(d.failure);
    } else {
      var s := new Session(SessionIdOf(d.value), driver);
      r := Ok(s);
    }
  }

  /** The mock remote end's reply to a new session: `sessionId` and the capabilities echoed back. */
  function NewSessionReply(sid: string, caps: Fields): Response {
    Response(200, JObject([("value", JObject([("sessionId", JString(sid)), ("capabilities", JObject(caps))]))]))
  }

  /** That reply decodes as CreateSessionResponse, and the new session gets exactly its `sessionId`. */
  lemma NewSessionReadsId(cfg: Config, sid: string, caps: Fields)
    ensures Receive(cfg, POST, Typed(NewSessionT), Some(NewSessionReply(sid, caps)))
      == Ok(Value(JObject([("sessionId", JString(sid)), ("capabilities", JObject(caps))])))
    ensures SessionIdOf(Value(JObject([("sessionId", JString(sid)), ("capabilities", JObject(caps))]))) == sid
  {
    var f: Fields := [("sessionId", JString(sid)), ("capabilities", JObject(caps))];
    var specs := NewSessionT.fields;
    assert SpecFor(specs, "sessionId") == Some(specs[0]);
    assert SpecFor(specs, "capabilities") == Some(specs[1]);
    assert Get(f, "capabilities") == Get(f[1..], "capabilities");
    assert RecordAccepts(specs, f);
  }

  /** getActiveElement: a handle on the returned id whose refresh re-reads /element/active. */
  method ActiveElement(session: Session) returns (r: Outcome<WebElement>)
    modifies session.webDriver.remote
    ensures session.webDriver.remote.sent == old(session.webDriver.remote.sent)
      + [RequestOf(session.webDriver.Cfg(), GET, SessionPath(session.sessionId, "/element/active"), None)]
    ensures var (d, rest) := CallSpec(session.webDriver.Cfg(), GET, Typed(ElementObjectT), old(session.webDriver.remote.answers));
      && session.webDriver.remote.answers == rest
      && (d.Thrown? ==> r == Thrown(d.failure))
      && (d.Ok? ==> r.Ok? && fresh(r.value) && r.value.elementId == ElementIdOf(d.value)
                    && r.value.session == session && r.value.refresh == ReadActive)
  {
    var d := Run(session, GetCmd(GetActiveElement));
    if d.Thrown? {
      r := Thrown(d.failure);
    } else {
      var e := new WebElement(ElementIdOf(d.value), session, ReadActive);
      r := Ok(e);
    }
  }

  /**
   * The session-level findElement: a handle on the returned id whose refresh
   * closure, as written, is the handle's own retrying find (FindFromSelf).
   */
  method FindElementHandle(session: Session, l: Locator) returns (r: Outcome<WebElement>)
    modifies session.webDriver.remote
    ensures session.webDriver.remote.sent == old(session.webDriver.remote.sent)
      + [RequestOf(session.webDriver.Cfg(), POST, SessionPath(session.sessionId, "/element"), Some(EncodeLocator(l)))]
    ensures var (d, rest) := CallSpec(session.webDriver.Cfg(), POST, Typed(ElementObjectT), old(session.webDriver.remote.answers));
      && session.webDriver.remote.answers == rest
      && (d.Thrown? ==> r == Thrown(d.failure))
      && (d.Ok? ==> r.Ok? && fresh(r.value) && r.value.elementId == ElementIdOf(d.value)
                    && r.value.session == session && r.value.refresh == FindFromSelf(EncodeLocator(l)))
  {
    var d := Run(session, PostCmd(FindElement(l)));
    if d.Thrown? {
      r := Thrown(d.failure);
    } else {
      var e := new WebElement(ElementIdOf(d.value), session, FindFromSelf(EncodeLocator(l)));
      r := Ok(e);
    }
  }

  /** The items of a decoded list. */
  function ItemsOf(d: Decoded): seq<Json> {
    if d.Value? && d.json.JArray? then d.json.items else []
  }

  /** A findElements reply that decodes is an array of element references, and ItemsOf gives all of it. */
  lemma ListReplyItems(cfg: Config, verb: Verb, a: Answer)
    requires Receive(cfg, verb, Typed(ListT(ElementObjectT)), a).Ok?
    ensures var d := Receive(cfg, verb, Typed(ListT(ElementObjectT)), a).value;
      && d.Value? && d.json.JArray? && ItemsOf(d) == d.json.items
      && forall i :: 0 <= i < |d.json.items| ==> Accepts(ElementObjectT, d.json.items[i])
  {
    ReceivedValueAccepted(cfg, verb, ListT(ElementObjectT), a);
  }

  /** One new handle per item, in order, each on that item's id and each with the `TODO()` refresh. */
  method HandlesFor(session: Session, items: seq<Json>) returns (hs: seq<WebElement>)
    ensures |hs| == |items|
    ensures forall i :: 0 <= i < |items| ==>
      fresh(hs[i]) && hs[i].elementId == ElementIdOf(Value(items[i])) && hs[i].session == session && hs[i].refresh == NotImplementedRefresh
    ensures forall i, j :: 0 <= i < j < |hs| ==> hs[i] != hs[j]
  {
    hs := [];
    var i := 0;
    while i < |items|
      invariant 0 <= i <= |items| && |hs| == i
      invariant forall j :: 0 <= j < i ==>
        fresh(hs[j]) && hs[j].elementId == ElementIdOf(Value(items[j])) && hs[j].session == session && hs[j].refresh == NotImplementedRefresh
      invariant forall j, k :: 0 <= j < k < i ==> hs[j] != hs[k]
    {
      var e := new WebElement(ElementIdOf(Value(items[i])), session, NotImplementedRefresh);
      hs := hs + [e];
      i := i + 1;
    }
  }

  /** The session-level findElements: one handle per returned id, in order; none of them can refresh. */
  method FindElementHandles(session: Session, l: Locator) returns (r: Outcome<seq<WebElement>>)
    modifies session.webDriver.remote
    ensures session.webDriver.remote.sent == old(session.webDriver.remote.sent)
      + [RequestOf(session.webDriver.Cfg(), POST, SessionPath(session.sessionId, "/elements"), Some(EncodeLocator(l)))]
    ensures var (d, rest) := CallSpec(session.webDriver.Cfg(), POST, Typed(ListT(ElementObjectT)), old(session.webDriver.remote.answers));
      && session.webDriver.remote.answers == rest
      && (d.Thrown? ==> r == Thrown(d.failure))
      && (d.Ok? ==> (r.Ok? && |r.value| == |ItemsOf(d.value)|
            && (forall i :: 0 <= i < |r.value| ==>
                  fresh(r.value[i]) && r.value[i].elementId == ElementIdOf(Value(ItemsOf(d.value)[i]))
                  && r.value[i].session == session && r.value[i].refresh == NotImplementedRefresh)
            && (forall i, j :: 0 <= i < j < |r.value| ==> r.value[i] != r.value[j])))
  {
    var d := Run(session, PostCmd(FindElements(l)));
    if d.Thrown? {
      r := Thrown(d.failure);
    } else {
      var hs := HandlesFor(session, ItemsOf(d.value));
      r := Ok(hs);
    }
  }

  /**
   * WebElement.findElement: a find relative to the parent (retried like any
   * element call) and a handle whose refresh closure, as written, is the
   * child's own retrying find (FindFromSelf), not a find from the parent.
   */
  method FindChildHandle(parent: WebElement, l: Locator) returns (r: Outcome<WebElement>)
    modifies parent, parent.session.webDriver.remote
    ensures var t := RetrySpec(parent.session.webDriver.Cfg(), parent.session.sessionId, old(parent.elementId), parent.refresh,
                               POST, "/element", Some(EncodeLocator(l)), Typed(ElementObjectT), old(parent.session.webDriver.remote.answers));
      && parent.elementId == t.elementId
      && parent.session.webDriver.remote.answers == t.answers
      && parent.session.webDriver.remote.sent == old(parent.session.webDriver.remote.sent) + t.sent
      && (t.result.Thrown? ==> r == Thrown(t.result.failure))
      && (t.result.Ok? ==> r.Ok? && fresh(r.value) && r.value.elementId == ElementIdOf(t.result.value)
                           && r.value.session == parent.session
                           && r.value.refresh == FindFromSelf(EncodeLocator(l)))
  {
    var d := RunOnElement(parent, FindElementFrom(l));
    if d.Thrown? {
      r := Thrown(d.failure);
    } else {
      var e := new WebElement(ElementIdOf(d.value), parent.session, FindFromSelf(EncodeLocator(l)));
      r := Ok(e);
    }
  }

  /** WebElement.findElements: one handle per returned id, in order, none of which can refresh. */
  method FindChildHandles(parent: WebElement, l: Locator) returns (r: Outcome<seq<WebElement>>)
    modifies parent, parent.session.webDriver.remote
    ensures var t := RetrySpec(parent.session.webDriver.Cfg(), parent.session.sessionId, old(parent.elementId), parent.refresh,
                               POST, "/elements", Some(EncodeLocator(l)), Typed(ListT(ElementObjectT)), old(parent.session.webDriver.remote.answers));
      && parent.elementId == t.elementId
      && parent.session.webDriver.remote.answers == t.answers
      && parent.session.webDriver.remote.sent == old(parent.session.webDriver.remote.sent) + t.sent
      && (t.result.Thrown? ==> r == Thrown(t.result.failure))
      && (t.result.Ok? ==> (r.Ok? && |r.value| == |ItemsOf(t.result.value)|
            && (forall i :: 0 <= i < |r.value| ==>
                  fresh(r.value[i]) && r.value[i].elementId == ElementIdOf(Value(ItemsOf(t.result.value)[i]))
                  && r.value[i].session == parent.session && r.value[i].refresh == NotImplementedRefresh)
            && (forall i, j :: 0 <= i < j < |r.value| ==> r.value[i] != r.value[j])))
  {
    var d := RunOnElement(parent, FindElementsFrom(l));
    if d.Thrown? {
      r := Thrown(d.failure);
    } else {
      var hs := HandlesFor(parent.session, ItemsOf(d.value));
      r := Ok(hs);
    }
  }

  /** The driver of the mock tests: w3cConverter is both the driver's converter and the validator's. */
  function MockConfig(baseUrl: string): Config {
    Config(baseUrl, [W3CConverter], Some([W3CConverter]))
  }

  /** With w3cConverter behind the validator, a 404 "stale element reference" answer is the stale error the retry catches. */
  lemma W3CReportsStale(cfg: Config, verb: Verb, c: CallType, message: string, stacktrace: string)
    requires cfg.validator == Some([W3CConverter])
    ensures IsStale(Receive(cfg, verb, c, Some(Response(404, ErrorBody("stale element reference", message, stacktrace)))))
  {
    var body := ErrorBody("stale element reference", message, stacktrace);
    var exc := WebDriverException(message, Standard(StaleElementReference), Some(stacktrace), None);
    assert StaleElementReference.HttpCode() == 404 && StaleElementReference.Wire() == "stale element reference";
    W3CChainKnown(StaleElementReference, message, stacktrace);
    assert Select([W3CConverter], 404, body) == Some(exc);
  }

  /** The `{"value": null}` a script without a result returns. */
  const NullReply := Response(200, JObject([("value", JNull)]))

  /**
   * executeVoid and executeAsyncVoid as written decode non-null `Empty`, so
   * the `null` a void script returns is not accepted; w3cConverter does not
   * recognise a success body either, and the call ends in
   * NoSuchElementException.
   */
  lemma AsWrittenVoidScriptRejectsNull(baseUrl: string, d: ScriptData)
    ensures Receive(MockConfig(baseUrl), POST, PostResult(ExecuteVoid(d)), Some(NullReply)) == Thrown(Failure.NoSuchElement)
    ensures Receive(MockConfig(baseUrl), POST, PostResult(ExecuteAsyncVoid(d)), Some(NullReply)) == Thrown(Failure.NoSuchElement)
  {
    assert ErrorValue(NullReply.body).None?;
    assert W3CConverter(200, NullReply.body).None?;
    assert AllNull([W3CConverter], 200, NullReply.body);
    UndecodableWithoutConverter(EmptyT, NullReply, [W3CConverter]);
  }

  /** The same holds on any driver whose converters all ignore the reply. */
  lemma AsWrittenVoidScriptNeedsConverter(cfg: Config, status: int)
    requires cfg.validator.None? || IsSuccessStatus(status)
    requires AllNull(cfg.errorConverters, status, JObject([("value", JNull)]))
    ensures Receive(cfg, POST, VoidScriptType, Some(Response(status, JObject([("value", JNull)])))) == Thrown(Failure.NoSuchElement)
  {
    UndecodableWithoutConverter(EmptyT, Response(status, JObject([("value", JNull)])), cfg.errorConverters);
  }

  /** The corrected void script calls read `Empty?`: a `null` result and an empty object both succeed. */
  lemma VoidScriptAcceptsNull(cfg: Config, status: int)
    requires cfg.validator.None? || IsSuccessStatus(status)
    ensures Receive(cfg, POST, CorrectedVoidScriptType, Some(Response(status, JObject([("value", JNull)])))) == Ok(Value(JNull))
    ensures Receive(cfg, POST, CorrectedVoidScriptType, Some(Response(status, JObject([("value", JObject([]))])))) == Ok(Value(JObject([])))
  {
  }
}
