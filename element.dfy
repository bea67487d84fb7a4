/**
 * The element handle of core/common.kt (a mutable `elementId`, its session
 * and a refresh closure), the stale-element retry of w3c/ktor.kt and the
 * refresh closures of w3c/api.kt.
 */
module Element {
  import opened Options
  import opened Json
  import opened W3CTable
  import opened Errors
  import opened Decoding
  import opened Wire
  import opened Chain
  import opened Transport

  /** A WebDriverException of kind STALE_ELEMENT_REFERENCE: the one case the retry catches. */
  predicate IsStale<T>(o: Outcome<T>) {
    o.Thrown? && o.failure.DriverError? && o.failure.exc.kind == Standard(StaleElementReference)
  }

  /** `.elementId` of a decoded WebElementObject. */
  function ElementIdOf(d: Decoded): string {
    if d.Value? && d.json.JObject? then GetString(Get(d.json.fields, ElementKey)) else ""
  }

  /**
   * The refresh closure a handle was created with. Both findElement closures
   * are written `{ elementId = post("/element", locator).elementId }` inside a
   * lambda whose receiver is the new element, so their `post` is that
   * element's own retrying post (FindFromSelf). FindAgain is the closure they
   * evidently meant: one non-retrying find from a fixed origin.
   */
  datatype Refresh =
    | ReadActive                               // getActiveElement: GET /element/active through the session
    | FindFromSelf(locator: Json)              // findElement as written: the element's own retrying POST /element
    | FindAgain(origin: string, locator: Json) // the intended find: POST origin + "/element" through the session
    | NotImplementedRefresh                    // findElements: TODO()

  /** What a sequence of exchanges produced: a result, the handle's id, the script left and the requests sent. */
  datatype Trace<T> = Trace(result: Outcome<T>, elementId: string, answers: seq<Answer>, sent: seq<Request>)

  /** The element call `verb path` on element `eid`: one request to `/session/{sid}/element/{eid}` + path. */
  function ElementRequest(cfg: Config, sid: string, eid: string, verb: Verb, path: string, body: Option<Json>): (r: Request)
    ensures r.url == cfg.baseUrl + "/session/" + sid + "/element/" + eid + path
    ensures r.verb == verb && r.body == body
  {
    ElementCallPath(sid, eid, path);
    RequestOf(cfg, verb, SessionPath(sid, ElementPath(eid, path)), body)
  }

  /**
   * What running the refresh closure does, starting from id `eid`. Every
   * closure but FindFromSelf sends at most one request and leaves the id alone
   * when it fails; FindFromSelf is a whole retrying element call.
   */
  function RefreshSpec(cfg: Config, sid: string, eid: string, refresh: Refresh, answers: seq<Answer>): (t: Trace<()>)
    decreases |answers|, 1
    ensures !refresh.FindFromSelf? ==> |t.sent| <= 1 && (t.result.Thrown? ==> t.elementId == eid)
    ensures refresh.NotImplementedRefresh? ==> t == Trace(Thrown(NotImplemented), eid, answers, [])
  {
    match refresh
    case ReadActive =>
      var r := Receive(cfg, GET, Typed(ElementObjectT), NextAnswer(answers));
      var req := RequestOf(cfg, GET, SessionPath(sid, "/element/active"), None);
      if r.Thrown? then Trace(Thrown(r.failure), eid, RestAnswers(answers), [req])
      else Trace(Ok(()), ElementIdOf(r.value), RestAnswers(answers), [req])
    case FindFromSelf(locator) =>
      var p := RetrySpec(cfg, sid, eid, refresh, POST, "/element", Some(locator), Typed(ElementObjectT), answers);
      if p.result.Thrown? then Trace(Thrown(p.result.failure), p.elementId, p.answers, p.sent)
      else Trace(Ok(()), ElementIdOf(p.result.value), p.answers, p.sent)
    case FindAgain(origin, locator) =>
      var r := Receive(cfg, POST, Typed(ElementObjectT), NextAnswer(answers));
      var req := RequestOf(cfg, POST, SessionPath(sid, origin + "/element"), Some(locator));
      if r.Thrown? then Trace(Thrown(r.failure), eid, RestAnswers(answers), [req])
      else Trace(Ok(()), ElementIdOf(r.value), RestAnswers(answers), [req])
    case NotImplementedRefresh =>
      Trace(Thrown(NotImplemented), eid, answers, [])
  }

  /** What the retrying element call does: one attempt, and on a stale element one refresh and one retry. */
  function RetrySpec(cfg: Config, sid: string, eid: string, refresh: Refresh,
                     verb: Verb, path: string, body: Option<Json>, c: CallType, answers: seq<Answer>): (t: Trace<Decoded>)
    decreases |answers|, 0
  {
    var first := Receive(cfg, verb, c, NextAnswer(answers));
    var req1 := ElementRequest(cfg, sid, eid, verb, path, body);
    if !IsStale(first) then Trace(first, eid, RestAnswers(answers), [req1])
    else
      var rf := RefreshSpec(cfg, sid, eid, refresh, RestAnswers(answers));
      if rf.result.Thrown? then Trace(Thrown(rf.result.failure), rf.elementId, rf.answers, [req1] + rf.sent)
      else
        var req2 := ElementRequest(cfg, sid, rf.elementId, verb, path, body);
        Trace(Receive(cfg, verb, c, NextAnswer(rf.answers)), rf.elementId, RestAnswers(rf.answers), [req1] + rf.sent + [req2])
  }

  /** WebElement: a mutable element id, its session and its refresh closure. */
  class WebElement {
    var elementId: string
    const session: Session
    const refresh: Refresh

    constructor(elementId: string, session: Session, refresh: Refresh)
      ensures this.elementId == elementId && this.session == session && this.refresh == refresh
    {
      this.elementId := elementId;
      this.session := session;
      this.refresh := refresh;
    }

    /** Runs `refreshFn`: on success the handle's id is overwritten in place. */
    method RunRefresh() returns (r: Outcome<()>)
      modifies this, session.webDriver.remote
      decreases |session.webDriver.remote.answers|, 1
      ensures var t := RefreshSpec(session.webDriver.Cfg(), session.sessionId, old(elementId), refresh, old(session.webDriver.remote.answers));
        && r == t.result && elementId == t.elementId
        && session.webDriver.remote.answers == t.answers
        && session.webDriver.remote.sent == old(session.webDriver.remote.sent) + t.sent
    {
      hide RetrySpec;
      match refresh
      case ReadActive =>
        var d := session.Get("/element/active", Typed(ElementObjectT));
        if d.Thrown? {
          r := Thrown(d.failure);
        } else {
          elementId := ElementIdOf(d.value);
          r := Ok(());
        }
      case FindFromSelf(locator) =>
        var d := Post("/element", locator, Typed(ElementObjectT));
        if d.Thrown? {
          r := Thrown(d.failure);
        } else {
          elementId := ElementIdOf(d.value);
          r := Ok(());
        }
      case FindAgain(origin, locator) =>
        var d := session.Post(origin + "/element", locator, Typed(ElementObjectT));
        if d.Thrown? {
          r := Thrown(d.failure);
        } else {
          elementId := ElementIdOf(d.value);
          r := Ok(());
        }
      case NotImplementedRefresh =>
        r := Thrown(NotImplemented);
    }

    /** The retrying `WebElement.get`. */
    method Get(path: string, c: CallType) returns (r: Outcome<Decoded>)
      modifies this, session.webDriver.remote
      ensures var t := RetrySpec(session.webDriver.Cfg(), session.sessionId, old(elementId), refresh, GET, path, None, c, old(session.webDriver.remote.answers));
        && r == t.result && elementId == t.elementId
        && session.webDriver.remote.answers == t.answers
        && session.webDriver.remote.sent == old(session.webDriver.remote.sent) + t.sent
    {
      hide RefreshSpec;
      ghost var cfg, s0 := session.webDriver.Cfg(), session.webDriver.remote.sent;
      ghost var req1 := ElementRequest(cfg, session.sessionId, elementId, GET, path, None);
      r := session.Get(ElementPath(elementId, path), c);
      assert session.webDriver.remote.sent == s0 + [req1];
      if IsStale(r) {
        ghost var rt := RefreshSpec(cfg, session.sessionId, elementId, refresh, session.webDriver.remote.answers);
        var rf := RunRefresh();
        assert session.webDriver.remote.sent == s0 + ([req1] + rt.sent);
        if rf.Thrown? {
          r := Thrown(rf.failure);
        } else {
          ghost var answers2 := session.webDriver.remote.answers;
          ghost var req2 := ElementRequest(cfg, session.sessionId, elementId, GET, path, None);
          r := session.Get(ElementPath(elementId, path), c);
          assert r == Receive(cfg, GET, c, NextAnswer(answers2));
          assert session.webDriver.remote.sent == s0 + ([req1] + rt.sent + [req2]);
        }
      }
    }

    /** The retrying `WebElement.delete`. */
    method Delete(path: string, c: CallType) returns (r: Outcome<Decoded>)
      modifies this, session.webDriver.remote
      ensures var t := RetrySpec(session.webDriver.Cfg(), session.sessionId, old(elementId), refresh, DELETE, path, None, c, old(session.webDriver.remote.answers));
        && r == t.result && elementId == t.elementId
        && session.webDriver.remote.answers == t.answers
        && session.webDriver.remote.sent == old(session.webDriver.remote.sent) + t.sent
    {
      hide RefreshSpec;
      ghost var cfg, s0 := session.webDriver.Cfg(), session.webDriver.remote.sent;
      ghost var req1 := ElementRequest(cfg, session.sessionId, elementId, DELETE, path, None);
      r := session.Delete(ElementPath(elementId, path), c);
      assert session.webDriver.remote.sent == s0 + [req1];
      if IsStale(r) {
        ghost var rt := RefreshSpec(cfg, session.sessionId, elementId, refresh, session.webDriver.remote.answers);
        var rf := RunRefresh();
        assert session.webDriver.remote.sent == s0 + ([req1] + rt.sent);
        if rf.Thrown? {
          r := Thrown(rf.failure);
        } else {
          ghost var answers2 := session.webDriver.remote.answers;
          ghost var req2 := ElementRequest(cfg, session.sessionId, elementId, DELETE, path, None);
          r := session.Delete(ElementPath(elementId, path), c);
          assert r == Receive(cfg, DELETE, c, NextAnswer(answers2));
          assert session.webDriver.remote.sent == s0 + ([req1] + rt.sent + [req2]);
        }
      }
    }

    /** The retrying `WebElement.post`: the retry resends the same body. */
    method Post(path: string, body: Json, c: CallType) returns (r: Outcome<Decoded>)
      modifies this, session.webDriver.remote
      decreases |session.webDriver.remote.answers|, 0
      ensures var t := RetrySpec(session.webDriver.Cfg(), session.sessionId, old(elementId), refresh, POST, path, Some(body), c, old(session.webDriver.remote.answers));
        && r == t.result && elementId == t.elementId
        && session.webDriver.remote.answers == t.answers
        && session.webDriver.remote.sent == old(session.webDriver.remote.sent) + t.sent
    {
      hide RefreshSpec;
      ghost var cfg, s0 := session.webDriver.Cfg(), session.webDriver.remote.sent;
      ghost var req1 := ElementRequest(cfg, session.sessionId, elementId, POST, path, Some(body));
      r := session.Post(ElementPath(elementId, path), body, c);
      assert session.webDriver.remote.sent == s0 + [req1];
      if IsStale(r) {
        ghost var rt := RefreshSpec(cfg, session.sessionId, elementId, refresh, session.webDriver.remote.answers);
        var rf := RunRefresh();
        assert session.webDriver.remote.sent == s0 + ([req1] + rt.sent);
        if rf.Thrown? {
          r := Thrown(rf.failure);
        } else {
          ghost var answers2 := session.webDriver.remote.answers;
          ghost var req2 := ElementRequest(cfg, session.sessionId, elementId, POST, path, Some(body));
          r := session.Post(ElementPath(elementId, path), body, c);
          assert r == Receive(cfg, POST, c, NextAnswer(answers2));
          assert session.webDriver.remote.sent == s0 + ([req1] + rt.sent + [req2]);
        }
      }
    }
  }

  /** A first attempt that is not a stale-element error is the result: no refresh, one request, same id. */
  lemma NoRetryWithoutStale(cfg: Config, sid: string, eid: string, refresh: Refresh,
                            verb: Verb, path: string, body: Option<Json>, c: CallType, answers: seq<Answer>)
    requires !IsStale(Receive(cfg, verb, c, NextAnswer(answers)))
    ensures var t := RetrySpec(cfg, sid, eid, refresh, verb, path, body, c, answers);
      && t.result == Receive(cfg, verb, c, NextAnswer(answers))
      && t.elementId == eid
      && t.sent == [ElementRequest(cfg, sid, eid, verb, path, body)]
  {
  }

  /**
   * On a stale element the refresh runs exactly once and the call is
   * reissued exactly once, on the refreshed id and with the same body; what
   * the retry returns or throws is the result. Every closure but
   * FindFromSelf sends at most one request, so the call sends at most three.
   */
  lemma StaleRetriesOnce(cfg: Config, sid: string, eid: string, refresh: Refresh,
                         verb: Verb, path: string, body: Option<Json>, c: CallType, answers: seq<Answer>)
    requires IsStale(Receive(cfg, verb, c, NextAnswer(answers)))
    requires RefreshSpec(cfg, sid, eid, refresh, RestAnswers(answers)).result.Ok?
    ensures var rf := RefreshSpec(cfg, sid, eid, refresh, RestAnswers(answers));
      var t := RetrySpec(cfg, sid, eid, refresh, verb, path, body, c, answers);
      && t.elementId == rf.elementId
      && t.sent == [ElementRequest(cfg, sid, eid, verb, path, body)] + rf.sent + [ElementRequest(cfg, sid, rf.elementId, verb, path, body)]
      && t.result == Receive(cfg, verb, c, NextAnswer(rf.answers))
      && |t.sent| == |rf.sent| + 2
      && (!refresh.FindFromSelf? ==> |t.sent| <= 3)
  {
  }

  /**
   * A refresh that throws ends the call with its exception and the id the
   * refresh left; the request is not reissued. Only FindFromSelf can have
   * moved the id before throwing.
   */
  lemma FailedRefreshPropagates(cfg: Config, sid: string, eid: string, refresh: Refresh,
                                verb: Verb, path: string, body: Option<Json>, c: CallType, answers: seq<Answer>)
    requires IsStale(Receive(cfg, verb, c, NextAnswer(answers)))
    requires RefreshSpec(cfg, sid, eid, refresh, RestAnswers(answers)).result.Thrown?
    ensures var rf := RefreshSpec(cfg, sid, eid, refresh, RestAnswers(answers));
      var t := RetrySpec(cfg, sid, eid, refresh, verb, path, body, c, answers);
      && t.result == Thrown(rf.result.failure) && t.elementId == rf.elementId
      && (!refresh.FindFromSelf? ==> t.elementId == eid)
      && t.sent == [ElementRequest(cfg, sid, eid, verb, path, body)] + rf.sent
  {
  }

  /** Handles from findElements cannot recover: a stale answer ends in NotImplementedError after one request. */
  lemma CollectionHandleCannotRefresh(cfg: Config, sid: string, eid: string,
                                      verb: Verb, path: string, body: Option<Json>, c: CallType, answers: seq<Answer>)
    requires IsStale(Receive(cfg, verb, c, NextAnswer(answers)))
    ensures var t := RetrySpec(cfg, sid, eid, NotImplementedRefresh, verb, path, body, c, answers);
      t.result == Thrown(NotImplemented) && |t.sent| == 1 && t.elementId == eid
  {
  }

  /**
   * An element call starts with the element request on the old id. With any
   * closure but FindFromSelf it sends one to three requests, the third being
   * the retry on the new id.
   */
  lemma RetryRequestsBound(cfg: Config, sid: string, eid: string, refresh: Refresh,
                           verb: Verb, path: string, body: Option<Json>, c: CallType, answers: seq<Answer>)
    ensures var t := RetrySpec(cfg, sid, eid, refresh, verb, path, body, c, answers);
      && 1 <= |t.sent|
      && t.sent[0] == ElementRequest(cfg, sid, eid, verb, path, body)
      && (!refresh.FindFromSelf? ==>
            && |t.sent| <= 3
            && (|t.sent| == 3 ==> t.sent[2] == ElementRequest(cfg, sid, t.elementId, verb, path, body)))
  {
  }

  /** The default converter only produces UnknownErrorKind, never a W3C kind. */
  lemma DefaultNeverStale(code: int, body: Json)
    ensures !IsStale<()>(Thrown(DriverError(DefaultConverter(code, body).value)))
  {
  }

  /**
   * Without the W3C converter (no errorConverters and the validator's chain
   * holding only the default) a stale element is never recognised: the retry
   * never fires and the first attempt is the result.
   */
  lemma NoRetryWithoutW3CConverter(baseUrl: string, sid: string, eid: string, refresh: Refresh,
                                   verb: Verb, path: string, body: Option<Json>, c: CallType, answers: seq<Answer>)
    ensures var cfg := Config(baseUrl, [], Some([]));
      var t := RetrySpec(cfg, sid, eid, refresh, verb, path, body, c, answers);
      |t.sent| == 1 && t.elementId == eid
  {
    var cfg := Config(baseUrl, [], Some([]));
    var a := NextAnswer(answers);
    if a.Some? && !IsSuccessStatus(a.value.status) {
      DefaultOnlyWhenAllNull([], a.value.status, a.value.body);
    }
  }

  function Repeat<T>(x: T, k: nat): (r: seq<T>)
    ensures |r| == k && forall i :: 0 <= i < k ==> r[i] == x
  {
    if k == 0 then [] else [x] + Repeat(x, k - 1)
  }

  /**
   * The as-written refresh never leaves the stale element: with k answers
   * that report it stale, it sends k + 1 finds from the stale element itself
   * and stops only because the remote end stops answering. Against a remote
   * that keeps reporting the element stale the recursion has no bound, and
   * the find from the session or the parent that it was meant to repeat is
   * never sent.
   */
  lemma {:induction false} AsWrittenRefreshLoops(cfg: Config, sid: string, eid: string, locator: Json, stale: Response, k: nat)
    requires IsStale(Receive(cfg, POST, Typed(ElementObjectT), Some(stale)))
    ensures RefreshSpec(cfg, sid, eid, FindFromSelf(locator), Repeat(Some(stale), k))
      == Trace(Thrown(TransportFailure), eid, [], Repeat(ElementRequest(cfg, sid, eid, POST, "/element", Some(locator)), k + 1))
  {
    var req := ElementRequest(cfg, sid, eid, POST, "/element", Some(locator));
    if k > 0 {
      var answers := Repeat(Some(stale), k);
      assert NextAnswer(answers) == Some(stale);
      assert RestAnswers(answers) == Repeat(Some(stale), k - 1);
      AsWrittenRefreshLoops(cfg, sid, eid, locator, stale, k - 1);
      assert [req] + Repeat(req, k) == Repeat(req, k + 1);
    } else {
      assert Repeat(req, 1) == [req];
    }
  }

  /**
   * The corrected closure repeats the original find: one POST of the same
   * locator to the session-level `/element` (origin "") whatever the stale id,
   * after which the handle holds the id that find returned.
   */
  lemma CorrectedRefreshFindsFromSession(cfg: Config, sid: string, eid: string, locator: Json, newId: string)
    ensures var found := Some(Response(200, JObject([("value", JObject([(ElementKey, JString(newId))]))])));
      var t := RefreshSpec(cfg, sid, eid, FindAgain("", locator), [found]);
      && t.sent == [RequestOf(cfg, POST, "/session/" + sid + "/element", Some(locator))]
      && t == Trace(Ok(()), newId, [], t.sent)
  {
    var v := JObject([(ElementKey, JString(newId))]);
    ElementObjectShape(newId);
    assert DecodeResponse(ElementObjectT, JObject([("value", v)])) == Some(v);
    assert Get(v.fields, ElementKey) == Some(JString(newId));
    var found := Some(Response(200, JObject([("value", v)])));
    assert Receive(cfg, POST, Typed(ElementObjectT), found) == Ok(Value(v));
    assert "" + "/element" == "/element";
    assert SessionPath(sid, "" + "/element") == "/session/" + sid + "/element";
  }

  /**
   * The corrected closure of a child found from a parent element repeats the
   * child's own find: one POST of the same locator to the parent's `/element`,
   * from the id the parent holds when the refresh runs, after which the child
   * holds the id that find returned.
   */
  lemma CorrectedChildRefreshFindsFromParent(cfg: Config, sid: string, parentId: string, eid: string, locator: Json, newId: string)
    ensures var found := Some(Response(200, JObject([("value", JObject([(ElementKey, JString(newId))]))])));
      var t := RefreshSpec(cfg, sid, eid, FindAgain(ElementPath(parentId, ""), locator), [found]);
      && t.sent == [RequestOf(cfg, POST, "/session/" + sid + "/element/" + parentId + "/element", Some(locator))]
      && t == Trace(Ok(()), newId, [], t.sent)
  {
    var v := JObject([(ElementKey, JString(newId))]);
    ElementObjectShape(newId);
    assert DecodeResponse(ElementObjectT, JObject([("value", v)])) == Some(v);
    assert Get(v.fields, ElementKey) == Some(JString(newId));
    var found := Some(Response(200, JObject([("value", v)])));
    assert Receive(cfg, POST, Typed(ElementObjectT), found) == Ok(Value(v));
    ElementCallPath(sid, parentId, "/element");
    assert ElementPath(parentId, "") + "/element" == ElementPath(parentId, "/element");
  }
}
