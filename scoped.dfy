/**
 * The scoped `session(caps) { ... }` of w3c/sekt.kt, which is the generic
 * one of core/common.kt with DefaultSessionCreator: create the session, run
 * the block on it, and close it in a `finally`.
 *
 * The block is a script of session calls (get, post or delete on a
 * session-relative path), run in order until the first one that throws.
 * `close` resolves to the Session member (DELETE /session/{id}, read as
 * `String?`).
 */
module Scoped {
  import opened Options
  import opened Json
  import opened Errors
  import opened Decoding
  import opened Transport
  import opened Catalogue
  import opened Capabilities
  import opened Api

  /** What a run of exchanges produced: the outcome, the script left and the requests sent. */
  datatype Exchanges = Exchanges(result: Outcome<()>, answers: seq<Answer>, sent: seq<Request>)

  /** One call the block makes on its session. */
  datatype SessionCall = SessionCall(verb: Verb, path: string, body: Option<Json>, result: CallType)

  /** A session call is well formed when only a POST carries a body. */
  predicate WellFormed(c: SessionCall) {
    c.body.Some? <==> c.verb == POST
  }

  /** The call a catalogue command makes. */
  function CallOf(c: Command): (r: SessionCall)
    ensures WellFormed(r)
  {
    SessionCall(Route(c).0, Route(c).1, BodyOf(c), ResultOf(c))
  }

  /** The request a session call sends. */
  function CallRequest(cfg: Config, sid: string, c: SessionCall): Request {
    RequestOf(cfg, c.verb, SessionPath(sid, c.path), c.body)
  }

  /** Running the block: each command in turn; the first that throws ends the block with its exception. */
  function BlockSpec(cfg: Config, sid: string, block: seq<SessionCall>, answers: seq<Answer>): (t: Exchanges)
    ensures |t.sent| <= |block|
    ensures t.result.Ok? ==> |t.sent| == |block|
    decreases |block|
  {
    if block == [] then Exchanges(Ok(()), answers, [])
    else
      var c := block[0];
      var (x, rest) := CallSpec(cfg, c.verb, c.result, answers);
      if x.Thrown? then Exchanges(Thrown(x.failure), rest, [CallRequest(cfg, sid, c)])
      else
        var tail := BlockSpec(cfg, sid, block[1..], rest);
        Exchanges(tail.result, tail.answers, [CallRequest(cfg, sid, c)] + tail.sent)
  }

  /** The request `session.close()` sends. */
  function CloseRequest(cfg: Config, sid: string): Request {
    RequestOf(cfg, DELETE, "/session/" + sid, None)
  }

  /** The request DefaultSessionCreator sends. */
  function CreateRequest(cfg: Config, params: NewSessionParameters): Request {
    RequestOf(cfg, POST, "/session", Some(EncodeParameters(params)))
  }

  /**
   * The body of the `try`/`finally` once the session exists: the block runs
   * and close follows, and an exception from close replaces whatever the
   * block produced.
   */
  function UseSpec(cfg: Config, sid: string, block: seq<SessionCall>, answers: seq<Answer>): Exchanges {
    var b := BlockSpec(cfg, sid, block, answers);
    var (c, rest) := CallSpec(cfg, DELETE, CloseType, b.answers);
    Exchanges(if c.Thrown? then Thrown(c.failure) else b.result, rest, b.sent + [CloseRequest(cfg, sid)])
  }

  /** The scoped session: a failed creation is the result and nothing else is sent. */
  function ScopedSpec(cfg: Config, params: NewSessionParameters, block: seq<SessionCall>, answers: seq<Answer>): Exchanges {
    var (d, rest) := CallSpec(cfg, POST, Typed(NewSessionT), answers);
    if d.Thrown? then Exchanges(Thrown(d.failure), rest, [CreateRequest(cfg, params)])
    else
      var u := UseSpec(cfg, SessionIdOf(d.value), block, rest);
      Exchanges(u.result, u.answers, [CreateRequest(cfg, params)] + u.sent)
  }

  /** One session call through the session's get, post or delete. */
  method Perform(session: Session, c: SessionCall) returns (r: Outcome<Decoded>)
    requires WellFormed(c)
    modifies session.webDriver.remote
    ensures session.webDriver.remote.sent == old(session.webDriver.remote.sent) + [CallRequest(session.webDriver.Cfg(), session.sessionId, c)]
    ensures (r, session.webDriver.remote.answers) == CallSpec(session.webDriver.Cfg(), c.verb, c.result, old(session.webDriver.remote.answers))
  {
    match c.verb
    case GET => r := session.Get(c.path, c.result);
    case POST => r := session.Post(c.path, c.body.value, c.result);
    case DELETE => r := session.Delete(c.path, c.result);
  }

  /** The empty block sends nothing and returns. */
  lemma BlockEmpty(cfg: Config, sid: string, answers: seq<Answer>)
    ensures BlockSpec(cfg, sid, [], answers) == Exchanges(Ok(()), answers, [])
  { }

  /** One step of the block from position i: a throwing call ends it, otherwise the rest follows. */
  lemma BlockStep(cfg: Config, sid: string, block: seq<SessionCall>, i: nat, answers: seq<Answer>)
    requires i < |block|
    ensures var (x, rest) := CallSpec(cfg, block[i].verb, block[i].result, answers);
      var t := BlockSpec(cfg, sid, block[i..], answers);
      var req := CallRequest(cfg, sid, block[i]);
      if x.Thrown? then t == Exchanges(Thrown(x.failure), rest, [req])
      else var u := BlockSpec(cfg, sid, block[i + 1..], rest);
        t == Exchanges(u.result, u.answers, [req] + u.sent)
  {
    assert block[i..][0] == block[i] && block[i..][1..] == block[i + 1..];
  }

  /** Runs the block's calls on the session until one throws. */
  method RunBlock(session: Session, block: seq<SessionCall>) returns (r: Outcome<()>)
    requires forall i :: 0 <= i < |block| ==> WellFormed(block[i])
    modifies session.webDriver.remote
    ensures var t := BlockSpec(session.webDriver.Cfg(), session.sessionId, block, old(session.webDriver.remote.answers));
      && r == t.result
      && session.webDriver.remote.answers == t.answers
      && session.webDriver.remote.sent == old(session.webDriver.remote.sent) + t.sent
  {
    hide *;
    ghost var cfg, sid := session.webDriver.Cfg(), session.sessionId;
    ghost var whole := BlockSpec(cfg, sid, block, session.webDriver.remote.answers);
    ghost var done: seq<Request> := [];
    assert block[0..] == block && done + whole.sent == whole.sent;
    r := Ok(());
    var i := 0;
    while i < |block| && r.Ok?
      invariant 0 <= i <= |block|
      invariant session.webDriver.remote.sent == old(session.webDriver.remote.sent) + done
      invariant r.Ok? ==> r == Ok(())
      invariant r.Ok? ==> (var t := BlockSpec(cfg, sid, block[i..], session.webDriver.remote.answers);
        whole == Exchanges(t.result, t.answers, done + t.sent))
      invariant r.Thrown? ==> whole == Exchanges(r, session.webDriver.remote.answers, done)
    {
      BlockStep(cfg, sid, block, i, session.webDriver.remote.answers);
      var x := Perform(session, block[i]);
      done := done + [CallRequest(cfg, sid, block[i])];
      if x.Thrown? {
        r := Thrown(x.failure);
      }
      i := i + 1;
    }
    if r.Ok? {
      BlockEmpty(cfg, sid, session.webDriver.remote.answers);
      assert block[i..] == [] && done + [] == done;
    }
  }

  /** The `finally` part spelled out: the block, then the close request and its outcome. */
  lemma UseCases(cfg: Config, sid: string, block: seq<SessionCall>, answers: seq<Answer>)
    ensures var b := BlockSpec(cfg, sid, block, answers);
      var (c, rest) := CallSpec(cfg, DELETE, CloseType, b.answers);
      UseSpec(cfg, sid, block, answers)
        == Exchanges(if c.Thrown? then Thrown(c.failure) else b.result, rest, b.sent + [RequestOf(cfg, DELETE, "/session/" + sid, None)])
  { }

  /** The scoped session spelled out: creation, then either its failure or the use of the new session. */
  lemma ScopedCases(cfg: Config, params: NewSessionParameters, block: seq<SessionCall>, answers: seq<Answer>)
    ensures var (d, rest) := CallSpec(cfg, POST, Typed(NewSessionT), answers);
      var t := ScopedSpec(cfg, params, block, answers);
      var create := RequestOf(cfg, POST, "/session", Some(EncodeParameters(params)));
      if d.Thrown? then t == Exchanges(Thrown(d.failure), rest, [create])
      else var u := UseSpec(cfg, SessionIdOf(d.value), block, rest);
        t == Exchanges(u.result, u.answers, [create] + u.sent)
  { }

  /** Runs the block on an open session and closes it in a `finally`. */
  method UseSession(session: Session, block: seq<SessionCall>) returns (r: Outcome<()>)
    requires forall i :: 0 <= i < |block| ==> WellFormed(block[i])
    modifies session.webDriver.remote
    ensures var t := UseSpec(session.webDriver.Cfg(), session.sessionId, block, old(session.webDriver.remote.answers));
      && r == t.result
      && session.webDriver.remote.answers == t.answers
      && session.webDriver.remote.sent == old(session.webDriver.remote.sent) + t.sent
  {
    hide *;
    UseCases(session.webDriver.Cfg(), session.sessionId, block, session.webDriver.remote.answers);
    var b := RunBlock(session, block);
    var c := session.Close();
    r := if c.Thrown? then Thrown(c.failure) else b;
  }

  /** `session(caps, block)`: create the session, then use it and close it. */
  method WithSession(driver: WebDriver, params: NewSessionParameters, block: seq<SessionCall>) returns (r: Outcome<()>)
    requires forall i :: 0 <= i < |block| ==> WellFormed(block[i])
    modifies driver.remote
    ensures var t := ScopedSpec(driver.Cfg(), params, block, old(driver.remote.answers));
      && r == t.result
      && driver.remote.answers == t.answers
      && driver.remote.sent == old(driver.remote.sent) + t.sent
  {
    ScopedCases(driver.Cfg(), params, block, driver.remote.answers);
    var s := CreateSession(driver, params);
    if s.Thrown? {
      r := Thrown(s.failure);
    } else {
      r := UseSession(s.value, block);
    }
  }

  /** Every catalogue path is non-empty, so no catalogue command targets the bare session URL. */
  lemma RouteNonEmpty(c: Command)
    ensures |CallOf(c).path| > 0
  {
    match c
    case GetCmd(g) => assert |GetPath(g)| >= 4;
    case PostCmd(p) => assert |PostPath(p)| >= 4;
    case DeleteCmd(d) => assert |DeletePath(d)| >= 4;
  }

  /** A block written with catalogue commands: well formed, and none of its calls is the bare session path. */
  function CatalogueBlock(cs: seq<Command>): (block: seq<SessionCall>)
    ensures |block| == |cs|
    ensures forall i :: 0 <= i < |cs| ==> block[i] == CallOf(cs[i])
    ensures forall i :: 0 <= i < |block| ==> WellFormed(block[i]) && block[i].path != ""
  {
    if cs == [] then []
    else
      RouteNonEmpty(cs[0]);
      [CallOf(cs[0])] + CatalogueBlock(cs[1..])
  }

  /** A block that never calls the bare session path sends no request equal to the close request. */
  lemma {:induction false} BlockNeverCloses(cfg: Config, sid: string, block: seq<SessionCall>, answers: seq<Answer>)
    requires forall i :: 0 <= i < |block| ==> block[i].path != ""
    ensures CloseRequest(cfg, sid) !in BlockSpec(cfg, sid, block, answers).sent
    decreases |block|
  {
    if block != [] {
      var c := block[0];
      var req := CallRequest(cfg, sid, c);
      assert |req.url| > |CloseRequest(cfg, sid).url|;
      var rest := CallSpec(cfg, c.verb, c.result, answers).1;
      assert forall i :: 0 <= i < |block[1..]| ==> block[1..][i] == block[i + 1];
      BlockNeverCloses(cfg, sid, block[1..], rest);
    }
  }

  /** If creating the session fails, the block does not run and close is not called. */
  lemma CreationFailureSkipsBlock(cfg: Config, params: NewSessionParameters, block: seq<SessionCall>, answers: seq<Answer>)
    requires Receive(cfg, POST, Typed(NewSessionT), NextAnswer(answers)).Thrown?
    ensures var t := ScopedSpec(cfg, params, block, answers);
      && t.sent == [CreateRequest(cfg, params)]
      && t.result == Thrown(Receive(cfg, POST, Typed(NewSessionT), NextAnswer(answers)).failure)
  {
  }

  /**
   * Once the session exists, close is called exactly once, as the last
   * request, whether the block returned or threw (for a block that does not
   * itself delete the bare session path, as no catalogue command does).
   */
  lemma CloseRunsOnce(cfg: Config, params: NewSessionParameters, block: seq<SessionCall>, answers: seq<Answer>)
    requires forall i :: 0 <= i < |block| ==> block[i].path != ""
    requires Receive(cfg, POST, Typed(NewSessionT), NextAnswer(answers)).Ok?
    ensures var sid := SessionIdOf(Receive(cfg, POST, Typed(NewSessionT), NextAnswer(answers)).value);
      var t := ScopedSpec(cfg, params, block, answers);
      && t.sent[|t.sent| - 1] == CloseRequest(cfg, sid)
      && forall i :: 0 <= i < |t.sent| - 1 ==> t.sent[i] != CloseRequest(cfg, sid)
  {
    var d := Receive(cfg, POST, Typed(NewSessionT), NextAnswer(answers));
    var sid := SessionIdOf(d.value);
    var b := BlockSpec(cfg, sid, block, RestAnswers(answers));
    BlockNeverCloses(cfg, sid, block, RestAnswers(answers));
    var t := ScopedSpec(cfg, params, block, answers);
    assert t.sent == [CreateRequest(cfg, params)] + b.sent + [CloseRequest(cfg, sid)];
    forall i | 0 <= i < |t.sent| - 1 ensures t.sent[i] != CloseRequest(cfg, sid) {
      if i > 0 {
        assert t.sent[i] == b.sent[i - 1];
      }
    }
  }

  /** An exception from close replaces the block's outcome, a returned one or a thrown one. */
  lemma CloseFailureReplaces(cfg: Config, params: NewSessionParameters, block: seq<SessionCall>, answers: seq<Answer>)
    requires Receive(cfg, POST, Typed(NewSessionT), NextAnswer(answers)).Ok?
    requires var sid := SessionIdOf(Receive(cfg, POST, Typed(NewSessionT), NextAnswer(answers)).value);
      var b := BlockSpec(cfg, sid, block, RestAnswers(answers));
      Receive(cfg, DELETE, CloseType, NextAnswer(b.answers)).Thrown?
    ensures var sid := SessionIdOf(Receive(cfg, POST, Typed(NewSessionT), NextAnswer(answers)).value);
      var b := BlockSpec(cfg, sid, block, RestAnswers(answers));
      ScopedSpec(cfg, params, block, answers).result == Thrown(Receive(cfg, DELETE, CloseType, NextAnswer(b.answers)).failure)
  {
  }

  /** When close succeeds, the scoped call ends as the block did. */
  lemma BlockOutcomeKept(cfg: Config, params: NewSessionParameters, block: seq<SessionCall>, answers: seq<Answer>)
    requires Receive(cfg, POST, Typed(NewSessionT), NextAnswer(answers)).Ok?
    requires var sid := SessionIdOf(Receive(cfg, POST, Typed(NewSessionT), NextAnswer(answers)).value);
      var b := BlockSpec(cfg, sid, block, RestAnswers(answers));
      Receive(cfg, DELETE, CloseType, NextAnswer(b.answers)).Ok?
    ensures var sid := SessionIdOf(Receive(cfg, POST, Typed(NewSessionT), NextAnswer(answers)).value);
      ScopedSpec(cfg, params, block, answers).result == BlockSpec(cfg, sid, block, RestAnswers(answers)).result
  {
  }

  /** A block stops at its first failing command: the commands after it are never sent. */
  lemma {:induction false} BlockStopsAtFailure(cfg: Config, sid: string, block: seq<SessionCall>, answers: seq<Answer>)
    ensures var t := BlockSpec(cfg, sid, block, answers);
      forall i :: 0 <= i < |t.sent| ==> t.sent[i] == CallRequest(cfg, sid, block[i])
    decreases |block|
  {
    if block != [] {
      var c := block[0];
      var rest := CallSpec(cfg, c.verb, c.result, answers).1;
      BlockStopsAtFailure(cfg, sid, block[1..], rest);
      var t := BlockSpec(cfg, sid, block, answers);
      var tail := BlockSpec(cfg, sid, block[1..], rest);
      forall i | 0 <= i < |t.sent| ensures t.sent[i] == CallRequest(cfg, sid, block[i]) {
        if i > 0 {
          assert t.sent[i] == tail.sent[i - 1];
          assert block[1..][i - 1] == block[i];
        }
      }
    }
  }
}
