/**
 * The command catalogue of w3c/api.kt: for every session and element
 * command, the verb and path it sends, the body it posts and the type its
 * reply is decoded as. Readers recover the command from the request, so no
 * two commands that carry different data send the same request.
 *
 * Commands are grouped by the verb they send.
 */
module Catalogue {
  import opened Options
  import opened Json
  import opened Decoding
  import opened Wire
  import opened Transport

  /** The session commands sent with GET; paths are relative to `/session/{sessionId}`. */
  datatype GetCommand =
    | GetTimeouts
    | GetUrl
    | GetTitle
    | GetWindowHandle
    | GetWindowHandles
    | GetWindowRect
    | GetActiveElement
    | GetPageSource
    | Cookies
    | GetCookie(name: string)
    | GetAlertText
    | TakeScreenshot

  /** The session commands sent with DELETE. */
  datatype DeleteCommand =
    | CloseWindow
    | DeleteAllCookie
    | DeleteCookie(name: string)
    | ReleaseActions

  /** The session commands sent with POST, with their payloads. */
  datatype PostCommand =
    | SetTimeouts(timeouts: Timeouts)
    | SetUrl(url: string)
    | Back
    | Forward
    | RefreshPage
    | SwitchToWindow(handle: string)
    | SwitchToFrame(frame: FrameTarget)
    | SwitchToParentFrame
    | SetWindowRect(rect: Rect)
    | WindowMaximize
    | WindowMinimize
    | WindowFullscreen
    | FindElement(locator: Locator)
    | FindElements(locator: Locator)
    | Execute(script: ScriptData, result: ValueType)   // the reified R of `execute<R>`
    | ExecuteVoid(script: ScriptData)
    | ExecuteAsync(script: ScriptData, result: ValueType)
    | ExecuteAsyncVoid(script: ScriptData)
    | SetCookie(cookie: Cookie)
    | PerformActions(sources: seq<ActionSource>)
    | DismissAlert
    | AcceptAlert
    | SendAlertText(text: string)

  datatype Command = GetCmd(get: GetCommand) | PostCmd(post: PostCommand) | DeleteCmd(delete: DeleteCommand)

  function GetPath(g: GetCommand): string {
    match g
    case GetTimeouts => "/timeouts"
    case GetUrl => "/url"
    case GetTitle => "/title"
    case GetWindowHandle => "/window"
    case GetWindowHandles => "/window/handles"
    case GetWindowRect => "/window/rect"
    case GetActiveElement => "/element/active"
    case GetPageSource => "/source"
    case Cookies => "/cookie"
    case GetCookie(name) => "/cookie/" + name
    case GetAlertText => "/alert/text"
    case TakeScreenshot => "/screenshot"
  }

  function DeletePath(d: DeleteCommand): string {
    match d
    case CloseWindow => "/window"
    case DeleteAllCookie => "/cookie"
    case DeleteCookie(name) => "/cookie/" + name
    case ReleaseActions => "/actions"
  }

  function PostPath(p: PostCommand): string {
    match p
    case SetTimeouts(_) => "/timeouts"
    case SetUrl(_) => "/url"
    case Back => "/back"
    case Forward => "/forward"
    case RefreshPage => "/refresh"
    case SwitchToWindow(_) => "/window"
    case SwitchToFrame(_) => "/frame"
    case SwitchToParentFrame => "/frame/parent"
    case SetWindowRect(_) => "/window/rect"
    case WindowMaximize => "/window/maximize"
    case WindowMinimize => "/window/minimize"
    case WindowFullscreen => "/window/fullscreen"
    case FindElement(_) => "/element"
    case FindElements(_) => "/elements"
    case Execute(_, _) => "/execute/sync"
    case ExecuteVoid(_) => "/execute/sync"
    case ExecuteAsync(_, _) => "/execute/async"
    case ExecuteAsyncVoid(_) => "/execute/async"
    case SetCookie(_) => "/cookie"
    case PerformActions(_) => "/actions"
    case DismissAlert => "/alert/dismiss"
    case AcceptAlert => "/alert/accept"
    case SendAlertText(_) => "/alert/text"
  }

  /** The body a POST sends: its payload's encoding, and `Empty` as {}. */
  function PostBody(p: PostCommand): Json {
    match p
    case SetTimeouts(t) => EncodeTimeouts(t)
    case SetUrl(u) => EncodePageUrl(u)
    case Back => EmptyBody
    case Forward => EmptyBody
    case RefreshPage => EmptyBody
    case SwitchToWindow(h) => EncodeWindowHandle(h)
    case SwitchToFrame(f) => EncodeFrame(f)
    case SwitchToParentFrame => EmptyBody
    case SetWindowRect(r) => EncodeRect(r)
    case WindowMaximize => EmptyBody
    case WindowMinimize => EmptyBody
    case WindowFullscreen => EmptyBody
    case FindElement(l) => EncodeLocator(l)
    case FindElements(l) => EncodeLocator(l)
    case Execute(d, _) => EncodeScript(d)
    case ExecuteVoid(d) => EncodeScript(d)
    case ExecuteAsync(d, _) => EncodeScript(d)
    case ExecuteAsyncVoid(d) => EncodeScript(d)
    case SetCookie(k) => EncodeCookieData(k)
    case PerformActions(a) => EncodeActions(a)
    case DismissAlert => EmptyBody
    case AcceptAlert => EmptyBody
    case SendAlertText(t) => EncodeText(t)
  }

  /** `Empty?`: the reply of the commands that return nothing. */
  const NothingType := Typed(NullableT(EmptyT))

  /**
   * The reply type of executeVoid and executeAsyncVoid as written:
   * `post<ScriptData, Empty>`, a non-null `Empty`, which rejects the `null`
   * a script without a result returns.
   */
  const VoidScriptType := Typed(EmptyT)

  /** The reply type the void script commands evidently meant: `Empty?`, as for the other commands that return nothing. */
  const CorrectedVoidScriptType := NothingType

  function GetResult(g: GetCommand): CallType {
    match g
    case GetTimeouts => Typed(TimeoutsT)
    case GetUrl => Typed(StringT)
    case GetTitle => Typed(StringT)
    case GetWindowHandle => Typed(StringT)
    case GetWindowHandles => Typed(ListT(StringT))
    case GetWindowRect => Typed(RectT)
    case GetActiveElement => Typed(ElementObjectT)
    case GetPageSource => Typed(StringT)
    case Cookies => Typed(ListT(CookieT))
    case GetCookie(_) => Typed(CookieT)
    case GetAlertText => Typed(StringT)
    case TakeScreenshot => Typed(StringT)
  }

  function DeleteResult(d: DeleteCommand): CallType {
    match d
    case CloseWindow => Typed(ListT(StringT))
    case DeleteAllCookie => NothingType
    case DeleteCookie(_) => NothingType
    case ReleaseActions => NothingType
  }

  function PostResult(p: PostCommand): CallType {
    match p
    case SetTimeouts(_) => NothingType
    case SetUrl(_) => NothingType
    case Back => NothingType
    case Forward => NothingType
    case RefreshPage => NothingType
    case SwitchToWindow(_) => NothingType
    case SwitchToFrame(_) => NothingType
    case SwitchToParentFrame => NothingType
    case SetWindowRect(_) => Typed(RectT)
    case WindowMaximize => Typed(RectT)
    case WindowMinimize => Typed(RectT)
    case WindowFullscreen => Typed(RectT)
    case FindElement(_) => Typed(ElementObjectT)
    case FindElements(_) => Typed(ListT(ElementObjectT))
    case Execute(_, t) => Typed(t)
    case ExecuteVoid(_) => VoidScriptType
    case ExecuteAsync(_, t) => Typed(t)
    case ExecuteAsyncVoid(_) => VoidScriptType
    case SetCookie(_) => NothingType
    case PerformActions(_) => NothingType
    case DismissAlert => NothingType
    case AcceptAlert => NothingType
    case SendAlertText(_) => NothingType
  }

  /** The verb and the session-relative path a command sends. */
  function Route(c: Command): (Verb, string) {
    match c
    case GetCmd(g) => (GET, GetPath(g))
    case PostCmd(p) => (POST, PostPath(p))
    case DeleteCmd(d) => (DELETE, DeletePath(d))
  }

  /** Only POSTs carry a body. */
  function BodyOf(c: Command): (r: Option<Json>)
    ensures r.Some? <==> Route(c).0 == POST
  {
    if c.PostCmd? then Some(PostBody(c.post)) else None
  }

  /** The type a command's reply `value` is decoded as. */
  function ResultOf(c: Command): CallType {
    match c
    case GetCmd(g) => GetResult(g)
    case PostCmd(p) => PostResult(p)
    case DeleteCmd(d) => DeleteResult(d)
  }

  /**
   * The command a request identifies: a typed script call and its void form
   * send the same request and differ only in how the reply is read.
   */
  function Canonical(c: Command): Command {
    match c
    case PostCmd(Execute(d, _)) => PostCmd(ExecuteVoid(d))
    case PostCmd(ExecuteAsync(d, _)) => PostCmd(ExecuteAsyncVoid(d))
    case _ => c
  }

  // ---------------------------------------------------------------------
  // Reading a request back into its command
  // ---------------------------------------------------------------------

  /** The GETs with a literal path, grouped by length. */
  function GetLiteral(p: string): Option<GetCommand> {
    if |p| == 4 then (if p == "/url" then Some(GetUrl) else None)
    else if |p| == 6 then (if p == "/title" then Some(GetTitle) else None)
    else if |p| == 7 then
      (if p == "/window" then Some(GetWindowHandle)
       else if p == "/source" then Some(GetPageSource)
       else if p == "/cookie" then Some(Cookies)
       else None)
    else if |p| == 9 then (if p == "/timeouts" then Some(GetTimeouts) else None)
    else if |p| == 11 then
      (if p == "/alert/text" then Some(GetAlertText) else if p == "/screenshot" then Some(TakeScreenshot) else None)
    else if |p| == 12 then (if p == "/window/rect" then Some(GetWindowRect) else None)
    else if |p| == 15 then
      (if p == "/window/handles" then Some(GetWindowHandles) else if p == "/element/active" then Some(GetActiveElement) else None)
    else None
  }

  /** A GET path: a literal one, or "/cookie/" followed by a cookie name. */
  function ParseGet(p: string): Option<GetCommand> {
    var lit := GetLiteral(p);
    if lit.Some? then lit
    else if |p| >= 8 && p[..8] == "/cookie/" then Some(GetCookie(p[8..]))
    else None
  }

  /** A DELETE path: a literal one, or "/cookie/" followed by a cookie name. */
  function ParseDelete(p: string): Option<DeleteCommand> {
    if p == "/window" then Some(CloseWindow)
    else if p == "/cookie" then Some(DeleteAllCookie)
    else if p == "/actions" then Some(ReleaseActions)
    else if |p| >= 8 && p[..8] == "/cookie/" then Some(DeleteCookie(p[8..]))
    else None
  }

  /** A command without payload, whose body must be `Empty`. */
  function IfEmpty(b: Json, c: PostCommand): Option<PostCommand> {
    if ReadEmpty(b) then Some(c) else None
  }

  /** The POSTs whose paths have at most 8 characters. */
  function PostShort(p: string, b: Json): Option<PostCommand> {
    if |p| == 4 then
      (if p == "/url" then match ReadOneString(b, "url") case Some(u) => Some(SetUrl(u)) case None => None
       else None)
    else if |p| == 5 then (if p == "/back" then IfEmpty(b, Back) else None)
    else if |p| == 6 then
      (if p == "/frame" then match ReadFrame(b) case Some(f) => Some(SwitchToFrame(f)) case None => None
       else None)
    else if |p| == 7 then
      (if p == "/window" then match ReadOneString(b, "handle") case Some(h) => Some(SwitchToWindow(h)) case None => None
       else if p == "/cookie" then match ReadCookieData(b) case Some(k) => Some(SetCookie(k)) case None => None
       else None)
    else if |p| == 8 then
      (if p == "/forward" then IfEmpty(b, Forward)
       else if p == "/refresh" then IfEmpty(b, RefreshPage)
       else if p == "/element" then match ReadLocator(b) case Some(l) => Some(FindElement(l)) case None => None
       else if p == "/actions" then match ReadActions(b) case Some(a) => Some(PerformActions(a)) case None => None
       else None)
    else None
  }

  /** The POSTs whose paths have more than 8 characters. */
  function PostLong(p: string, b: Json): Option<PostCommand> {
    if |p| == 9 then
      (if p == "/timeouts" then match ReadTimeoutsBody(b) case Some(t) => Some(SetTimeouts(t)) case None => None
       else if p == "/elements" then match ReadLocator(b) case Some(l) => Some(FindElements(l)) case None => None
       else None)
    else if |p| == 11 then
      (if p == "/alert/text" then match ReadOneString(b, "text") case Some(t) => Some(SendAlertText(t)) case None => None
       else None)
    else if |p| == 12 then
      (if p == "/window/rect" then match ReadRect(b) case Some(r) => Some(SetWindowRect(r)) case None => None
       else None)
    else if |p| == 13 then
      (if p == "/frame/parent" then IfEmpty(b, SwitchToParentFrame)
       else if p == "/alert/accept" then IfEmpty(b, AcceptAlert)
       else if p == "/execute/sync" then match ReadScript(b) case Some(d) => Some(ExecuteVoid(d)) case None => None
       else None)
    else if |p| == 14 then
      (if p == "/alert/dismiss" then IfEmpty(b, DismissAlert)
       else if p == "/execute/async" then match ReadScript(b) case Some(d) => Some(ExecuteAsyncVoid(d)) case None => None
       else None)
    else if |p| == 16 then
      (if p == "/window/maximize" then IfEmpty(b, WindowMaximize)
       else if p == "/window/minimize" then IfEmpty(b, WindowMinimize)
       else None)
    else if |p| == 18 then (if p == "/window/fullscreen" then IfEmpty(b, WindowFullscreen) else None)
    else None
  }

  function ParsePost(p: string, b: Json): Option<PostCommand> {
    if |p| <= 8 then PostShort(p, b) else PostLong(p, b)
  }

  /**
   * The command a request (verb, session-relative path, body) is; a request
   * the catalogue never sends, or a body a command never posts, reads as None.
   */
  function ParseCommand(verb: Verb, p: string, body: Option<Json>): Option<Command> {
    match verb
    case GET =>
      if body.Some? then None
      else (match ParseGet(p) case Some(g) => Some(GetCmd(g)) case None => None)
    case DELETE =>
      if body.Some? then None
      else (match ParseDelete(p) case Some(d) => Some(DeleteCmd(d)) case None => None)
    case POST =>
      if body.None? then None
      else match ParsePost(p, body.value) case Some(q) => Some(PostCmd(q)) case None => None
  }

  /** "/cookie/" + name is no literal GET path, and the name is what follows the prefix. */
  lemma CookiePath(name: string)
    ensures GetLiteral("/cookie/" + name).None?
    ensures ("/cookie/" + name)[..8] == "/cookie/" && ("/cookie/" + name)[8..] == name
    ensures "/cookie/" + name != "/actions"
  {
    var p := "/cookie/" + name;
    assert p[1] == 'c' && p[2] == 'o';
  }

  /** Every GET of the catalogue reads back as its command. */
  lemma GetRoundTrip(g: GetCommand)
    ensures ParseGet(GetPath(g)) == Some(g)
  {
    if g.GetCookie? {
      CookiePath(g.name);
    }
  }

  /** Every DELETE of the catalogue reads back as its command. */
  lemma DeleteRoundTrip(d: DeleteCommand)
    ensures ParseDelete(DeletePath(d)) == Some(d)
  {
    if d.DeleteCookie? {
      CookiePath(d.name);
    }
  }

  lemma UrlPostRoundTrip(u: string)
    ensures PostShort("/url", EncodePageUrl(u)) == Some(SetUrl(u))
  {
  }

  lemma WindowPostRoundTrip(h: string)
    ensures PostShort("/window", EncodeWindowHandle(h)) == Some(SwitchToWindow(h))
  {
  }

  /** A POST to "/frame" is read with the frame reader. */
  lemma FrameDispatch(b: Json)
    ensures PostShort("/frame", b) == match ReadFrame(b) case Some(f) => Some(SwitchToFrame(f)) case None => None
  {
  }

  lemma FramePostRoundTrip(f: FrameTarget)
    ensures PostShort("/frame", EncodeFrame(f)) == Some(SwitchToFrame(f))
  {
    hide *;
    FrameDispatch(EncodeFrame(f));
    FrameRoundTrip(f);
  }

  /** A POST to "/cookie" is read with the cookie reader. */
  lemma CookieDispatch(b: Json)
    ensures PostShort("/cookie", b) == match ReadCookieData(b) case Some(k) => Some(SetCookie(k)) case None => None
  {
    assert "/cookie" != "/window";
  }

  lemma CookiePostRoundTrip(k: Cookie)
    ensures PostShort("/cookie", EncodeCookieData(k)) == Some(SetCookie(k))
  {
    hide *;
    CookieDispatch(EncodeCookieData(k));
    CookieDataRoundTrip(k);
  }

  /** A POST to "/element" is read with the locator reader. */
  lemma FindDispatch(b: Json)
    ensures PostShort("/element", b) == match ReadLocator(b) case Some(l) => Some(FindElement(l)) case None => None
  {
    assert "/element" != "/forward" && "/element" != "/refresh";
  }

  lemma FindPostRoundTrip(l: Locator)
    ensures PostShort("/element", EncodeLocator(l)) == Some(FindElement(l))
  {
    hide *;
    FindDispatch(EncodeLocator(l));
    LocatorRoundTrip(l);
  }

  /** A POST to "/actions" is read with the action-list reader. */
  lemma ActionsDispatch(b: Json)
    ensures PostShort("/actions", b) == match ReadActions(b) case Some(a) => Some(PerformActions(a)) case None => None
  {
    assert "/actions" != "/forward" && "/actions" != "/refresh" && "/actions" != "/element";
  }

  lemma ActionsPostRoundTrip(a: seq<ActionSource>)
    ensures PostShort("/actions", EncodeActions(a)) == Some(PerformActions(a))
  {
    hide *;
    ActionsDispatch(EncodeActions(a));
    ActionsRoundTrip(a);
  }

  /** Every POST with a short path reads back as its command. */
  lemma PostShortRoundTrip(q: PostCommand)
    requires |PostPath(q)| <= 8
    ensures PostShort(PostPath(q), PostBody(q)) == Some(q)
  {
    match q
    case SetUrl(u) => UrlPostRoundTrip(u);
    case SwitchToWindow(h) => WindowPostRoundTrip(h);
    case SwitchToFrame(f) => FramePostRoundTrip(f);
    case SetCookie(k) => CookiePostRoundTrip(k);
    case FindElement(l) => FindPostRoundTrip(l);
    case PerformActions(a) => ActionsPostRoundTrip(a);
    case _ =>
  }

  /** A POST to "/timeouts" is read with the timeouts reader. */
  lemma TimeoutsDispatch(b: Json)
    ensures PostLong("/timeouts", b) == match ReadTimeoutsBody(b) case Some(t) => Some(SetTimeouts(t)) case None => None
  {
  }

  /** A POST to "/elements" is read with the locator reader. */
  lemma ElementsDispatch(b: Json)
    ensures PostLong("/elements", b) == match ReadLocator(b) case Some(l) => Some(FindElements(l)) case None => None
  {
    assert "/elements" != "/timeouts";
  }

  /** A POST to "/window/rect" is read with the rect reader. */
  lemma RectDispatch(b: Json)
    ensures PostLong("/window/rect", b) == match ReadRect(b) case Some(r) => Some(SetWindowRect(r)) case None => None
  {
  }

  /** A POST to "/execute/sync" is read with the script reader. */
  lemma SyncDispatch(b: Json)
    ensures PostLong("/execute/sync", b) == match ReadScript(b) case Some(d) => Some(ExecuteVoid(d)) case None => None
  {
    assert "/execute/sync" != "/frame/parent" && "/execute/sync" != "/alert/accept";
  }

  /** A POST to "/execute/async" is read with the script reader. */
  lemma AsyncDispatch(b: Json)
    ensures PostLong("/execute/async", b) == match ReadScript(b) case Some(d) => Some(ExecuteAsyncVoid(d)) case None => None
  {
    assert "/execute/async" != "/alert/dismiss";
  }

  lemma TimeoutsPostRoundTrip(t: Timeouts)
    ensures PostLong("/timeouts", EncodeTimeouts(t)) == Some(SetTimeouts(t))
  {
    hide *;
    TimeoutsDispatch(EncodeTimeouts(t));
    TimeoutsBodyRoundTrip(t);
  }

  lemma ElementsPostRoundTrip(l: Locator)
    ensures PostLong("/elements", EncodeLocator(l)) == Some(FindElements(l))
  {
    hide *;
    ElementsDispatch(EncodeLocator(l));
    LocatorRoundTrip(l);
  }

  lemma RectPostRoundTrip(r: Rect)
    ensures PostLong("/window/rect", EncodeRect(r)) == Some(SetWindowRect(r))
  {
    hide *;
    RectDispatch(EncodeRect(r));
    RectRoundTrip(r);
  }

  lemma ScriptPostRoundTrip(d: ScriptData)
    ensures PostLong("/execute/sync", EncodeScript(d)) == Some(ExecuteVoid(d))
    ensures PostLong("/execute/async", EncodeScript(d)) == Some(ExecuteAsyncVoid(d))
  {
    hide *;
    SyncDispatch(EncodeScript(d));
    AsyncDispatch(EncodeScript(d));
    ScriptRoundTrip(d);
  }

  /** Every POST with a long path reads back as its command, a typed script call as its void form. */
  lemma PostLongRoundTrip(q: PostCommand)
    requires |PostPath(q)| > 8
    ensures PostLong(PostPath(q), PostBody(q)) == Some(Canonical(PostCmd(q)).post)
  {
    match q
    case SetTimeouts(t) => TimeoutsPostRoundTrip(t);
    case FindElements(l) => ElementsPostRoundTrip(l);
    case SetWindowRect(r) => RectPostRoundTrip(r);
    case Execute(d, _) => ScriptPostRoundTrip(d);
    case ExecuteVoid(d) => ScriptPostRoundTrip(d);
    case ExecuteAsync(d, _) => ScriptPostRoundTrip(d);
    case ExecuteAsyncVoid(d) => ScriptPostRoundTrip(d);
    case _ =>
  }

  /** Round trip: the request a command sends reads back as that command, in canonical form. */
  lemma CommandRoundTrip(c: Command)
    ensures ParseCommand(Route(c).0, Route(c).1, BodyOf(c)) == Some(Canonical(c))
  {
    match c
    case GetCmd(g) => GetRoundTrip(g);
    case DeleteCmd(d) => DeleteRoundTrip(d);
    case PostCmd(q) =>
      if |PostPath(q)| <= 8 {
        PostShortRoundTrip(q);
        assert Canonical(c) == c;
      } else {
        PostLongRoundTrip(q);
      }
  }

  /**
   * Two commands that send the same request are the same command up to the
   * reply type of a script call, so no payload is ever lost on the wire.
   */
  lemma SameRequestSameCommand(c1: Command, c2: Command)
    requires Route(c1) == Route(c2) && BodyOf(c1) == BodyOf(c2)
    ensures Canonical(c1) == Canonical(c2)
  {
    CommandRoundTrip(c1);
    CommandRoundTrip(c2);
  }

  // ---------------------------------------------------------------------
  // Element commands (paths relative to `/session/{sid}/element/{eid}`)
  // ---------------------------------------------------------------------

  datatype ElementCommand =
    | FindElementFrom(locator: Locator)
    | FindElementsFrom(locator: Locator)
    | IsSelected
    | GetAttribute(name: string)
    | GetProperty(name: string)
    | GetCssValue(name: string)
    | GetText
    | GetTagName
    | GetRect
    | IsEnabled
    | Click
    | Clear
    | SendKeys(text: string)
    | TakeElementScreenshot

  function ElementRoute(e: ElementCommand): (Verb, string) {
    match e
    case FindElementFrom(_) => (POST, "/element")
    case FindElementsFrom(_) => (POST, "/elements")
    case IsSelected => (GET, "/selected")
    case GetAttribute(name) => (GET, "/attribute/" + name)
    case GetProperty(name) => (GET, "/property/" + name)
    case GetCssValue(name) => (GET, "/css/" + name)
    case GetText => (GET, "/text")
    case GetTagName => (GET, "/name")
    case GetRect => (GET, "/rect")
    case IsEnabled => (GET, "/enabled")
    case Click => (POST, "/click")
    case Clear => (POST, "/clear")
    case SendKeys(_) => (POST, "/value")
    case TakeElementScreenshot => (GET, "/screenshot")
  }

  function ElementBody(e: ElementCommand): (r: Option<Json>)
    ensures r.Some? <==> ElementRoute(e).0 == POST
  {
    match e
    case FindElementFrom(l) => Some(EncodeLocator(l))
    case FindElementsFrom(l) => Some(EncodeLocator(l))
    case Click => Some(EmptyBody)
    case Clear => Some(EmptyBody)
    case SendKeys(t) => Some(EncodeText(t))
    case _ => None
  }

  /** getRect decodes Rect<Float>; numbers are modelled as integers. */
  function ElementResult(e: ElementCommand): CallType {
    match e
    case FindElementFrom(_) => Typed(ElementObjectT)
    case FindElementsFrom(_) => Typed(ListT(ElementObjectT))
    case IsSelected => Typed(BoolT)
    case GetAttribute(_) => Typed(NullableT(StringT))
    case GetProperty(_) => Typed(NullableT(StringT))
    case GetCssValue(_) => Typed(StringT)
    case GetText => Typed(StringT)
    case GetTagName => Typed(StringT)
    case GetRect => Typed(RectT)
    case IsEnabled => Typed(BoolT)
    case Click => NothingType
    case Clear => NothingType
    case SendKeys(_) => NothingType
    case TakeElementScreenshot => Typed(StringT)
  }

  /** An element GET path, dispatched on its first letter. */
  function ParseElementGet(p: string): Option<ElementCommand> {
    if |p| < 2 then None
    else if p[1] == 'a' then (if |p| >= 11 && p[..11] == "/attribute/" then Some(GetAttribute(p[11..])) else None)
    else if p[1] == 'p' then (if |p| >= 10 && p[..10] == "/property/" then Some(GetProperty(p[10..])) else None)
    else if p[1] == 'c' then (if |p| >= 5 && p[..5] == "/css/" then Some(GetCssValue(p[5..])) else None)
    else if p == "/selected" then Some(IsSelected)
    else if p == "/text" then Some(GetText)
    else if p == "/name" then Some(GetTagName)
    else if p == "/rect" then Some(GetRect)
    else if p == "/enabled" then Some(IsEnabled)
    else if p == "/screenshot" then Some(TakeElementScreenshot)
    else None
  }

  function ParseElementPost(p: string, b: Json): Option<ElementCommand> {
    if p == "/element" then
      match ReadLocator(b) case Some(l) => Some(FindElementFrom(l)) case None => None
    else if p == "/elements" then
      match ReadLocator(b) case Some(l) => Some(FindElementsFrom(l)) case None => None
    else if p == "/click" then (if ReadEmpty(b) then Some(Click) else None)
    else if p == "/clear" then (if ReadEmpty(b) then Some(Clear) else None)
    else if p == "/value" then
      match ReadOneString(b, "text") case Some(t) => Some(SendKeys(t)) case None => None
    else None
  }

  /** The element command an element-relative request is. */
  function ParseElementCommand(verb: Verb, p: string, body: Option<Json>): Option<ElementCommand> {
    match verb
    case GET => if body.None? then ParseElementGet(p) else None
    case POST => if body.Some? then ParseElementPost(p, body.value) else None
    case DELETE => None
  }

  /** "prefix + name" starts with the prefix and ends with the name. */
  lemma PrefixSplit(prefix: string, name: string)
    ensures (prefix + name)[..|prefix|] == prefix && (prefix + name)[|prefix|..] == name
  {
  }

  /** Round trip: each element command's request reads back as itself. */
  lemma ElementCommandRoundTrip(e: ElementCommand)
    ensures ParseElementCommand(ElementRoute(e).0, ElementRoute(e).1, ElementBody(e)) == Some(e)
  {
    match e
    case FindElementFrom(l) => LocatorRoundTrip(l);
    case FindElementsFrom(l) => LocatorRoundTrip(l);
    case GetAttribute(name) =>
      assert ("/attribute/" + name)[1] == 'a';
      PrefixSplit("/attribute/", name);
    case GetProperty(name) =>
      assert ("/property/" + name)[1] == 'p';
      PrefixSplit("/property/", name);
    case GetCssValue(name) =>
      assert ("/css/" + name)[1] == 'c';
      PrefixSplit("/css/", name);
    case _ =>
  }

  /** Element commands that send the same request are the same command. */
  lemma ElementRequestIdentifiesCommand(e1: ElementCommand, e2: ElementCommand)
    requires ElementRoute(e1) == ElementRoute(e2) && ElementBody(e1) == ElementBody(e2)
    ensures e1 == e2
  {
    ElementCommandRoundTrip(e1);
    ElementCommandRoundTrip(e2);
  }
}
