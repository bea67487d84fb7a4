/**
 * The wire model of the W3C client (src/main/kotlin/me/darkweird/sekt/w3c/model.kt):
 * the identifier keys and the JSON each request body encodes to under
 * kotlinx.serialization's default configuration. Properties appear in
 * declaration order, properties equal to their default are omitted, and a
 * subclass of a sealed class with a `@SerialName` is introduced by a leading
 * "type" member holding that name.
 *
 * Every encoder has a reader beside it. The reader accepts exactly the
 * encoder's outputs and the lemmas prove the round trip, so no two values
 * share an encoding (in particular, the tags of each family are distinct).
 */
module Wire {
  import opened Options
  import opened Json
  import opened Errors

  /** The identifier keys of section 11 of W3C WebDriver. */
  const FrameKey := "frame-075b-4da1-b6ba-e579c2d3230a"
  const WindowKey := "window-fcc6-11e5-b4f8-330a88ab9d7f"
  const ElementKey := "element-6066-11e4-a52e-4f735466cecf"

  // ---------------------------------------------------------------------
  // Web element references
  // ---------------------------------------------------------------------

  /** WebElementObject: a one-field object keyed by the element identifier key. */
  function ElementReference(id: string): (r: Json)
    ensures r.JObject? && |r.fields| == 1 && r.fields[0].0 == ElementKey
    ensures Get(r.fields, ElementKey) == Some(JString(id))
  {
    JObject([(ElementKey, JString(id))])
  }

  /** The identifier an element reference carries, if `j` is one. */
  function ReadElementReference(j: Json): (r: Option<string>)
    ensures r.Some? ==> ElementReference(r.value) == j
  {
    if j.JObject? && |j.fields| == 1 && j.fields[0].0 == ElementKey && j.fields[0].1.JString?
    then
      assert j.fields == [(ElementKey, JString(j.fields[0].1.s))];
      Some(j.fields[0].1.s)
    else None
  }

  lemma ElementReferenceRoundTrip(id: string)
    ensures ReadElementReference(ElementReference(id)) == Some(id)
  {
  }

  // ---------------------------------------------------------------------
  // Sequences of encoded values
  // ---------------------------------------------------------------------

  /** A List<T> property: each element encoded in order. */
  function EncodeAll<T>(enc: T -> Json, xs: seq<T>): (r: seq<Json>)
    ensures |r| == |xs|
    ensures forall i :: 0 <= i < |xs| ==> r[i] == enc(xs[i])
  {
    if xs == [] then [] else [enc(xs[0])] + EncodeAll(enc, xs[1..])
  }

  /** Reads every element with `read`, failing if one of them fails. */
  function ReadAll<T>(read: Json -> Option<T>, js: seq<Json>): (r: Option<seq<T>>)
    ensures r.Some? ==> |r.value| == |js| && forall i :: 0 <= i < |js| ==> read(js[i]) == Some(r.value[i])
    ensures r.None? ==> exists i :: 0 <= i < |js| && read(js[i]).None?
  {
    if js == [] then Some([])
    else
      match read(js[0])
      case None => None
      case Some(x) =>
        match ReadAll(read, js[1..])
        case None =>
          var i :| 0 <= i < |js[1..]| && read(js[1..][i]).None?;
          assert js[i + 1] == js[1..][i];
          None
        case Some(rest) =>
          assert forall i :: 1 <= i < |js| ==> js[i] == js[1..][i - 1];
          Some([x] + rest)
  }

  /** An element reader that inverts the element encoder inverts the list encoder. */
  lemma {:induction false} ReadAllRoundTrip<T>(enc: T -> Json, read: Json -> Option<T>, xs: seq<T>)
    requires forall x :: read(enc(x)) == Some(x)
    ensures ReadAll(read, EncodeAll(enc, xs)) == Some(xs)
  {
    if xs != [] {
      ReadAllRoundTrip(enc, read, xs[1..]);
      assert EncodeAll(enc, xs)[1..] == EncodeAll(enc, xs[1..]);
      assert [xs[0]] + xs[1..] == xs;
    }
  }

  /** An element reader that accepts only encodings accepts only encoded lists. */
  lemma ReadAllSound<T>(enc: T -> Json, read: Json -> Option<T>, js: seq<Json>)
    requires forall j :: read(j).Some? ==> enc(read(j).value) == j
    ensures ReadAll(read, js).Some? ==> EncodeAll(enc, ReadAll(read, js).value) == js
  {
    var r := ReadAll(read, js);
    if r.Some? {
      var e := EncodeAll(enc, r.value);
      assert |e| == |js|;
      forall i | 0 <= i < |js| ensures e[i] == js[i] {
        assert read(js[i]) == Some(r.value[i]);
      }
    }
  }

  // ---------------------------------------------------------------------
  // Tagged objects
  // ---------------------------------------------------------------------

  /** A sealed subclass with a @SerialName: the "type" member first, then the class's properties. */
  function Tagged(tag: string, members: Fields): (r: Json)
    ensures r.JObject? && |r.fields| == |members| + 1
    ensures Get(r.fields, "type") == Some(JString(tag))
    ensures r.fields[1..] == members
  {
    JObject([("type", JString(tag))] + members)
  }

  /** The tag and the remaining members of a tagged object. */
  function Untag(j: Json): (r: Option<(string, Fields)>)
    ensures r.Some? ==> Tagged(r.value.0, r.value.1) == j
  {
    if j.JObject? && |j.fields| >= 1 && j.fields[0].0 == "type" && j.fields[0].1.JString? then
      assert j.fields == [("type", JString(j.fields[0].1.s))] + j.fields[1..];
      Some((j.fields[0].1.s, j.fields[1..]))
    else None
  }

  lemma UntagTagged(tag: string, members: Fields)
    ensures Untag(Tagged(tag, members)) == Some((tag, members))
  {
  }

  // ---------------------------------------------------------------------
  // SwitchToFrame (section 10.5 of W3C WebDriver)
  // ---------------------------------------------------------------------

  /** SwitchToFrame: Null, Number(id) or WebElement(element). */
  datatype FrameTarget = NullFrame | NumberFrame(id: int) | ElementFrame(elementId: string)

  /** The "id" member each variant sends. */
  function FrameId(f: FrameTarget): Json {
    match f
    case NullFrame => JNull
    case NumberFrame(n) => JNumber(n)
    case ElementFrame(e) => ElementReference(e)
  }

  /**
   * The body of "switch to frame": {"id": null} from NullIdSerializer,
   * {"id": n} for Number and {"id": {element key: id}} for WebElement.
   */
  function EncodeFrame(f: FrameTarget): (r: Json)
    ensures r.JObject? && |r.fields| == 1
    ensures f.NullFrame? ==> Get(r.fields, "id") == Some(JNull)
    ensures f.NumberFrame? ==> Get(r.fields, "id") == Some(JNumber(f.id))
    ensures f.ElementFrame? ==> Get(r.fields, "id") == Some(ElementReference(f.elementId))
  {
    JObject([("id", FrameId(f))])
  }

  function ReadFrame(j: Json): (r: Option<FrameTarget>)
    ensures r.Some? ==> EncodeFrame(r.value) == j
  {
    if j.JObject? && |j.fields| == 1 && j.fields[0].0 == "id" then
      var v := j.fields[0].1;
      assert j.fields == [("id", v)];
      if v.JNull? then Some(NullFrame)
      else if v.JNumber? then Some(NumberFrame(v.n))
      else
        match ReadElementReference(v)
        case Some(e) => Some(ElementFrame(e))
        case None => None
    else None
  }

  lemma FrameRoundTrip(f: FrameTarget)
    ensures ReadFrame(EncodeFrame(f)) == Some(f)
  {
  }

  /** NullIdSerializer.deserialize throws UnsupportedOperationException, whatever it is given. */
  function DeserializeNullFrame(j: Json): (r: Outcome<FrameTarget>)
    ensures r.Thrown? && r.failure.Unsupported?
  {
    Thrown(Unsupported)
  }

  // ---------------------------------------------------------------------
  // Pointer origins
  // ---------------------------------------------------------------------

  /** Origin: the viewport, the pointer, or an element. */
  datatype Origin = ViewPort | PointerOrigin | ElementOrigin(elementId: string)

  /** OriginSerializer: a bare string for the two fixed origins, an element reference otherwise. */
  function EncodeOrigin(o: Origin): (r: Json)
    ensures o.ViewPort? <==> r == JString("viewport")
    ensures o.PointerOrigin? <==> r == JString("pointer")
    ensures o.ElementOrigin? <==> r.JObject?
  {
    match o
    case ViewPort => JString("viewport")
    case PointerOrigin => JString("pointer")
    case ElementOrigin(e) => ElementReference(e)
  }

  function ReadOrigin(j: Json): (r: Option<Origin>)
    ensures r.Some? ==> EncodeOrigin(r.value) == j
  {
    if j == JString("viewport") then Some(ViewPort)
    else if j == JString("pointer") then Some(PointerOrigin)
    else
      match ReadElementReference(j)
      case Some(e) => Some(ElementOrigin(e))
      case None => None
  }

  lemma OriginRoundTrip(o: Origin)
    ensures ReadOrigin(EncodeOrigin(o)) == Some(o)
  {
  }

  /** OriginSerializer.deserialize throws UnsupportedOperationException, whatever it is given. */
  function DeserializeOrigin(j: Json): (r: Outcome<Origin>)
    ensures r.Thrown? && r.failure.Unsupported?
  {
    Thrown(Unsupported)
  }

  // ---------------------------------------------------------------------
  // Action items and sources (section 17 of W3C WebDriver)
  // ---------------------------------------------------------------------

  /** PointerActionItem. */
  datatype PointerItem =
    | PointerUp(button: int)
    | PointerDown(button: int)
    | PointerMove(duration: int, origin: Origin, x: int, y: int)
    | PointerCancel

  /** KeyActionItem. */
  datatype KeyItem = KeyUp(value: string) | KeyDown(value: string)

  /** GeneralAction: the pause item of a "none" source. */
  datatype PauseItem = Pause(duration: int)

  function PointerTag(p: PointerItem): string {
    match p
    case PointerUp(_) => "pointerUp"
    case PointerDown(_) => "pointerDown"
    case PointerMove(_, _, _, _) => "pointerMove"
    case PointerCancel => "pointerCancel"
  }

  function EncodePointerItem(p: PointerItem): (r: Json)
    ensures r.JObject? && Get(r.fields, "type") == Some(JString(PointerTag(p)))
  {
    match p
    case PointerUp(b) => Tagged("pointerUp", [("button", JNumber(b))])
    case PointerDown(b) => Tagged("pointerDown", [("button", JNumber(b))])
    case PointerMove(d, o, x, y) =>
      Tagged("pointerMove", [("duration", JNumber(d)), ("origin", EncodeOrigin(o)), ("x", JNumber(x)), ("y", JNumber(y))])
    case PointerCancel => Tagged("pointerCancel", [])
  }

  /** A single numeric member named `key`. */
  function ReadNumberMember(m: Fields, key: string): (r: Option<int>)
    ensures r.Some? ==> m == [(key, JNumber(r.value))]
  {
    if |m| == 1 && m[0].0 == key && m[0].1.JNumber? then
      assert m == [(key, JNumber(m[0].1.n))];
      Some(m[0].1.n)
    else None
  }

  /** A single string member named `key`. */
  function ReadStringMember(m: Fields, key: string): (r: Option<string>)
    ensures r.Some? ==> m == [(key, JString(r.value))]
  {
    if |m| == 1 && m[0].0 == key && m[0].1.JString? then
      assert m == [(key, JString(m[0].1.s))];
      Some(m[0].1.s)
    else None
  }

  function ReadMove(m: Fields): (r: Option<PointerItem>)
    ensures r.Some? ==> r.value.PointerMove? && EncodePointerItem(r.value) == Tagged("pointerMove", m)
  {
    if |m| == 4 && m[0].0 == "duration" && m[0].1.JNumber? && m[1].0 == "origin"
      && m[2].0 == "x" && m[2].1.JNumber? && m[3].0 == "y" && m[3].1.JNumber?
    then
      match ReadOrigin(m[1].1)
      case None => None
      case Some(o) =>
        assert m == [("duration", JNumber(m[0].1.n)), ("origin", EncodeOrigin(o)), ("x", JNumber(m[2].1.n)), ("y", JNumber(m[3].1.n))];
        Some(PointerMove(m[0].1.n, o, m[2].1.n, m[3].1.n))
    else None
  }

  function ReadPointerItem(j: Json): (r: Option<PointerItem>)
    ensures r.Some? ==> EncodePointerItem(r.value) == j
  {
    match Untag(j)
    case None => None
    case Some((tag, m)) =>
      if tag == "pointerUp" then
        match ReadNumberMember(m, "button") case Some(b) => Some(PointerUp(b)) case None => None
      else if tag == "pointerDown" then
        match ReadNumberMember(m, "button") case Some(b) => Some(PointerDown(b)) case None => None
      else if tag == "pointerMove" then ReadMove(m)
      else if tag == "pointerCancel" && m == [] then Some(PointerCancel)
      else None
  }

  lemma PointerItemRoundTrip(p: PointerItem)
    ensures ReadPointerItem(EncodePointerItem(p)) == Some(p)
  {
    match p
    case PointerUp(b) =>
    case PointerDown(b) =>
      assert "pointerDown" != "pointerUp";
    case PointerMove(d, o, x, y) =>
      assert "pointerMove" != "pointerUp" && "pointerMove" != "pointerDown";
      OriginRoundTrip(o);
    case PointerCancel =>
  }

  function KeyTag(k: KeyItem): string {
    match k
    case KeyUp(_) => "keyUp"
    case KeyDown(_) => "keyDown"
  }

  function EncodeKeyItem(k: KeyItem): (r: Json)
    ensures r.JObject? && Get(r.fields, "type") == Some(JString(KeyTag(k)))
  {
    Tagged(KeyTag(k), [("value", JString(k.value))])
  }

  function ReadKeyItem(j: Json): (r: Option<KeyItem>)
    ensures r.Some? ==> EncodeKeyItem(r.value) == j
  {
    match Untag(j)
    case None => None
    case Some((tag, m)) =>
      match ReadStringMember(m, "value")
      case None => None
      case Some(v) =>
        if tag == "keyUp" then Some(KeyUp(v))
        else if tag == "keyDown" then Some(KeyDown(v))
        else None
  }

  lemma KeyItemRoundTrip(k: KeyItem)
    ensures ReadKeyItem(EncodeKeyItem(k)) == Some(k)
  {
    assert "keyDown" != "keyUp";
  }

  function EncodePause(p: PauseItem): (r: Json)
    ensures r.JObject? && Get(r.fields, "type") == Some(JString("pause"))
  {
    Tagged("pause", [("duration", JNumber(p.duration))])
  }

  function ReadPause(j: Json): (r: Option<PauseItem>)
    ensures r.Some? ==> EncodePause(r.value) == j
  {
    match Untag(j)
    case None => None
    case Some((tag, m)) =>
      if tag == "pause" then
        match ReadNumberMember(m, "duration") case Some(d) => Some(Pause(d)) case None => None
      else None
  }

  lemma PauseRoundTrip(p: PauseItem)
    ensures ReadPause(EncodePause(p)) == Some(p)
  {
  }

  /** Action: a key, pointer or none input source with its items. */
  datatype ActionSource =
    | KeySource(id: string, keyItems: seq<KeyItem>)
    | PointerSource(id: string, pointerItems: seq<PointerItem>)
    | NoneSource(id: string, pauses: seq<PauseItem>)

  function SourceTag(a: ActionSource): string {
    match a
    case KeySource(_, _) => "key"
    case PointerSource(_, _) => "pointer"
    case NoneSource(_, _) => "none"
  }

  function SourceItems(a: ActionSource): seq<Json> {
    match a
    case KeySource(_, items) => EncodeAll(EncodeKeyItem, items)
    case PointerSource(_, items) => EncodeAll(EncodePointerItem, items)
    case NoneSource(_, items) => EncodeAll(EncodePause, items)
  }

  /** {"type": key|pointer|none, "id": id, "actions": [items]}. */
  function EncodeSource(a: ActionSource): (r: Json)
    ensures r.JObject? && Get(r.fields, "type") == Some(JString(SourceTag(a)))
  {
    Tagged(SourceTag(a), [("id", JString(a.id)), ("actions", JArray(SourceItems(a)))])
  }

  function ReadSource(j: Json): Option<ActionSource> {
    match Untag(j)
    case None => None
    case Some((tag, m)) =>
      if |m| == 2 && m[0].0 == "id" && m[0].1.JString? && m[1].0 == "actions" && m[1].1.JArray? then
        var id := m[0].1.s;
        var items := m[1].1.items;
        if tag == "key" then
          match ReadAll(ReadKeyItem, items) case Some(ks) => Some(KeySource(id, ks)) case None => None
        else if tag == "pointer" then
          match ReadAll(ReadPointerItem, items) case Some(ps) => Some(PointerSource(id, ps)) case None => None
        else if tag == "none" then
          match ReadAll(ReadPause, items) case Some(qs) => Some(NoneSource(id, qs)) case None => None
        else None
      else None
  }

  lemma SourceRoundTrip(a: ActionSource)
    ensures ReadSource(EncodeSource(a)) == Some(a)
  {
    match a
    case KeySource(id, items) =>
      forall k ensures ReadKeyItem(EncodeKeyItem(k)) == Some(k) { KeyItemRoundTrip(k); }
      ReadAllRoundTrip(EncodeKeyItem, ReadKeyItem, items);
    case PointerSource(id, items) =>
      forall p ensures ReadPointerItem(EncodePointerItem(p)) == Some(p) { PointerItemRoundTrip(p); }
      ReadAllRoundTrip(EncodePointerItem, ReadPointerItem, items);
      assert "pointer" != "key";
    case NoneSource(id, items) =>
      forall p ensures ReadPause(EncodePause(p)) == Some(p) { PauseRoundTrip(p); }
      ReadAllRoundTrip(EncodePause, ReadPause, items);
      assert "none" != "key" && "none" != "pointer";
  }

  /** The reader accepts only encoded sources. */
  lemma SourceReadSound(j: Json)
    ensures ReadSource(j).Some? ==> EncodeSource(ReadSource(j).value) == j
  {
    if ReadSource(j).Some? {
      var (tag, m) := Untag(j).value;
      var items := m[1].1.items;
      assert m == [("id", JString(m[0].1.s)), ("actions", JArray(items))];
      match ReadSource(j).value
      case KeySource(id, ks) =>
        ReadAllSound(EncodeKeyItem, ReadKeyItem, items);
      case PointerSource(id, ps) =>
        ReadAllSound(EncodePointerItem, ReadPointerItem, items);
      case NoneSource(id, qs) =>
        ReadAllSound(EncodePause, ReadPause, items);
    }
  }

  /** Actions: {"actions": [sources]}, the body of "perform actions". */
  function EncodeActions(sources: seq<ActionSource>): (r: Json)
    ensures r.JObject? && |r.fields| == 1
    ensures Get(r.fields, "actions") == Some(JArray(EncodeAll(EncodeSource, sources)))
  {
    JObject([("actions", JArray(EncodeAll(EncodeSource, sources)))])
  }

  lemma ActionsInjective(a: seq<ActionSource>, b: seq<ActionSource>)
    requires EncodeActions(a) == EncodeActions(b)
    ensures a == b
  {
    forall s ensures ReadSource(EncodeSource(s)) == Some(s) { SourceRoundTrip(s); }
    ReadAllRoundTrip(EncodeSource, ReadSource, a);
    ReadAllRoundTrip(EncodeSource, ReadSource, b);
  }

  // ---------------------------------------------------------------------
  // Locators (section 12.1 of W3C WebDriver)
  // ---------------------------------------------------------------------

  /** The five location strategies the helpers offer. */
  datatype Strategy = CssSelector | LinkText | PartialLinkText | TagName | XPath

  function Using(s: Strategy): string {
    match s
    case CssSelector => "css selector"
    case LinkText => "link text"
    case PartialLinkText => "partial link text"
    case TagName => "tag name"
    case XPath => "xpath"
  }

  /** The strategy a `using` string names, if any. */
  function StrategyOf(using: string): (r: Option<Strategy>)
    ensures r.Some? ==> Using(r.value) == using
  {
    if |using| == 5 then (if using == "xpath" then Some(XPath) else None)
    else if |using| == 8 then (if using == "tag name" then Some(TagName) else None)
    else if |using| == 9 then (if using == "link text" then Some(LinkText) else None)
    else if |using| == 12 then (if using == "css selector" then Some(CssSelector) else None)
    else if |using| == 17 then (if using == "partial link text" then Some(PartialLinkText) else None)
    else None
  }

  /** The strategy strings are pairwise distinct. */
  lemma StrategyRoundTrip(s: Strategy)
    ensures StrategyOf(Using(s)) == Some(s)
  {
  }

  datatype Locator = Locator(using: string, value: string)

  function Css(value: string): Locator { Locator(Using(CssSelector), value) }
  function LinkTextOf(value: string): Locator { Locator(Using(LinkText), value) }
  function PartialLinkTextOf(value: string): Locator { Locator(Using(PartialLinkText), value) }
  function TagNameOf(value: string): Locator { Locator(Using(TagName), value) }
  function XPathOf(value: string): Locator { Locator(Using(XPath), value) }

  /** Each helper names its own strategy and passes the value through. */
  lemma HelpersNameTheirStrategy(value: string)
    ensures StrategyOf(Css(value).using) == Some(CssSelector) && Css(value).value == value
    ensures StrategyOf(LinkTextOf(value).using) == Some(LinkText) && LinkTextOf(value).value == value
    ensures StrategyOf(PartialLinkTextOf(value).using) == Some(PartialLinkText) && PartialLinkTextOf(value).value == value
    ensures StrategyOf(TagNameOf(value).using) == Some(TagName) && TagNameOf(value).value == value
    ensures StrategyOf(XPathOf(value).using) == Some(XPath) && XPathOf(value).value == value
  {
    StrategyRoundTrip(CssSelector);
    StrategyRoundTrip(LinkText);
    StrategyRoundTrip(PartialLinkText);
    StrategyRoundTrip(TagName);
    StrategyRoundTrip(XPath);
  }

  /** {"using": strategy, "value": selector}. */
  function EncodeLocator(l: Locator): (r: Json)
    ensures r.JObject? && |r.fields| == 2
    ensures Get(r.fields, "using") == Some(JString(l.using))
    ensures Get(r.fields, "value") == Some(JString(l.value))
  {
    var f: Fields := [("using", JString(l.using)), ("value", JString(l.value))];
    assert Get(f, "value") == Get(f[1..], "value");
    JObject(f)
  }

  // ---------------------------------------------------------------------
  // Proxy capability
  // ---------------------------------------------------------------------

  /** The Proxy variants. */
  datatype Proxy =
    | PacProxy(proxyAutoconfigUrl: string)
    | DirectProxy
    | AutodetectProxy
    | SystemProxy
    | ManualProxy(ftpProxy: string, httpProxy: string, noProxy: seq<string>, sslProxy: string, socksProxy: string, socksVersion: int)

  /** The `proxyType` each variant passes to the base class. */
  function ProxyType(p: Proxy): string {
    match p
    case PacProxy(_) => "pac"
    case DirectProxy => "direct"
    case AutodetectProxy => "autodetect"
    case SystemProxy => "system"
    case ManualProxy(_, _, _, _, _, _) => "manual"
  }

  /** The variant a `proxyType` names; only the parameterless ones are rebuilt. */
  function ProxyKind(proxyType: string): (r: Option<nat>)
  {
    if proxyType == "pac" then Some(0)
    else if |proxyType| == 6 then
      if proxyType == "direct" then Some(1) else if proxyType == "system" then Some(3) else if proxyType == "manual" then Some(4) else None
    else if proxyType == "autodetect" then Some(2)
    else None
  }

  function ProxyOrdinal(p: Proxy): nat {
    match p
    case PacProxy(_) => 0
    case DirectProxy => 1
    case AutodetectProxy => 2
    case SystemProxy => 3
    case ManualProxy(_, _, _, _, _, _) => 4
  }

  /** The proxy types are pairwise distinct: each names its variant. */
  lemma ProxyTypeNamesVariant(p: Proxy)
    ensures ProxyKind(ProxyType(p)) == Some(ProxyOrdinal(p))
  {
    match p
    case PacProxy(_) =>
    case DirectProxy =>
    case AutodetectProxy =>
    case SystemProxy =>
      assert "system" != "direct";
    case ManualProxy(_, _, _, _, _, _) =>
      assert "manual" != "direct" && "manual" != "system";
  }

  // ---------------------------------------------------------------------
  // Plain request bodies
  // ---------------------------------------------------------------------

  /** Timeouts: each of script, pageLoad and implicit, when set. */
  datatype Timeouts = Timeouts(script: Option<int>, pageLoad: Option<int>, implicit: Option<int>)

  /** A nullable property defaulting to null: present only when set. */
  function NumberMember(key: string, v: Option<int>): (r: Fields)
    ensures Get(r, key) == (if v.Some? then Some(JNumber(v.value)) else None)
    ensures forall k :: k != key ==> Get(r, k).None?
  {
    if v.Some? then [(key, JNumber(v.value))] else []
  }

  function EncodeTimeouts(t: Timeouts): Json {
    JObject(NumberMember("script", t.script) + NumberMember("pageLoad", t.pageLoad) + NumberMember("implicit", t.implicit))
  }

  function NumberAt(fields: Fields, key: string): Option<int> {
    match Get(fields, key)
    case Some(JNumber(n)) => Some(n)
    case _ => None
  }

  function ReadTimeouts(j: Json): Option<Timeouts> {
    if j.JObject? then Some(Timeouts(NumberAt(j.fields, "script"), NumberAt(j.fields, "pageLoad"), NumberAt(j.fields, "implicit")))
    else None
  }

  /** Every member of a Timeouts is recovered from its encoding; unset ones are absent. */
  lemma TimeoutsRoundTrip(t: Timeouts)
    ensures ReadTimeouts(EncodeTimeouts(t)) == Some(t)
  {
    var a := NumberMember("script", t.script);
    var b := NumberMember("pageLoad", t.pageLoad);
    var c := NumberMember("implicit", t.implicit);
    assert a + b + c == a + (b + c);
    GetAppend(a, b + c, "script");
    GetAppend(b, c, "script");
    GetAppend(a, b + c, "pageLoad");
    GetAppend(b, c, "pageLoad");
    GetAppend(a, b + c, "implicit");
    GetAppend(b, c, "implicit");
  }

  /** Cookie: name and value; path unless it is the default "/"; the others when set. */
  datatype Cookie = Cookie(name: string, value: string, path: string, domain: Option<string>,
                           secure: Option<bool>, httpOnly: Option<bool>, expiry: Option<int>)

  function StringMember(key: string, v: Option<string>): (r: Fields)
    ensures Get(r, key) == (if v.Some? then Some(JString(v.value)) else None)
    ensures forall k :: k != key ==> Get(r, k).None?
  {
    if v.Some? then [(key, JString(v.value))] else []
  }

  function BoolMember(key: string, v: Option<bool>): (r: Fields)
    ensures Get(r, key) == (if v.Some? then Some(JBool(v.value)) else None)
    ensures forall k :: k != key ==> Get(r, k).None?
  {
    if v.Some? then [(key, JBool(v.value))] else []
  }

  function CookieMembers(c: Cookie): seq<Fields> {
    [ [("name", JString(c.name))],
      [("value", JString(c.value))],
      StringMember("path", if c.path == "/" then None else Some(c.path)),
      StringMember("domain", c.domain),
      BoolMember("secure", c.secure),
      BoolMember("httpOnly", c.httpOnly),
      NumberMember("expiry", c.expiry) ]
  }

  /** All members, concatenated in order. */
  function Concat(parts: seq<Fields>): Fields {
    if parts == [] then [] else parts[0] + Concat(parts[1..])
  }

  /** A key found in exactly one part is found in the concatenation, with that part's value. */
  lemma {:induction false} GetConcat(parts: seq<Fields>, i: nat, key: string)
    requires i < |parts|
    requires forall j :: 0 <= j < |parts| && j != i ==> Get(parts[j], key).None?
    ensures Get(Concat(parts), key) == Get(parts[i], key)
  {
    GetAppend(parts[0], Concat(parts[1..]), key);
    if i > 0 {
      forall j | 0 <= j < |parts[1..]| && j != i - 1 ensures Get(parts[1..][j], key).None? {
        assert parts[1..][j] == parts[j + 1];
      }
      GetConcat(parts[1..], i - 1, key);
    } else if |parts| > 1 {
      GetConcatNone(parts[1..], key);
    } else {
      assert Concat(parts[1..]) == [];
    }
  }

  lemma {:induction false} GetConcatNone(parts: seq<Fields>, key: string)
    requires forall j :: 0 <= j < |parts| ==> Get(parts[j], key).None?
    ensures Get(Concat(parts), key).None?
  {
    if parts != [] {
      GetAppend(parts[0], Concat(parts[1..]), key);
      forall j | 0 <= j < |parts[1..]| ensures Get(parts[1..][j], key).None? {
        assert parts[1..][j] == parts[j + 1];
      }
      GetConcatNone(parts[1..], key);
    }
  }

  function EncodeCookie(c: Cookie): Json {
    JObject(Concat(CookieMembers(c)))
  }

  function StringAt(fields: Fields, key: string): Option<string> {
    match Get(fields, key)
    case Some(JString(s)) => Some(s)
    case _ => None
  }

  function BoolAt(fields: Fields, key: string): Option<bool> {
    match Get(fields, key)
    case Some(JBool(b)) => Some(b)
    case _ => None
  }

  function ReadCookie(j: Json): Option<Cookie> {
    if j.JObject? && StringAt(j.fields, "name").Some? && StringAt(j.fields, "value").Some? then
      Some(Cookie(StringAt(j.fields, "name").value, StringAt(j.fields, "value").value,
                  StringAt(j.fields, "path").GetOr("/"), StringAt(j.fields, "domain"),
                  BoolAt(j.fields, "secure"), BoolAt(j.fields, "httpOnly"), NumberAt(j.fields, "expiry")))
    else None
  }

  /** The member named `key` of a cookie's encoding is the one from the i-th part. */
  lemma CookieMember(c: Cookie, i: nat, key: string)
    requires i < 7
    requires key == ["name", "value", "path", "domain", "secure", "httpOnly", "expiry"][i]
    ensures Get(Concat(CookieMembers(c)), key) == Get(CookieMembers(c)[i], key)
  {
    var parts := CookieMembers(c);
    var keys := ["name", "value", "path", "domain", "secure", "httpOnly", "expiry"];
    assert forall j :: 0 <= j < 7 ==> forall k :: k != keys[j] ==> Get(parts[j], k).None?;
    assert forall j :: 0 <= j < 7 && j != i ==> keys[j] != keys[i];
    GetConcat(parts, i, key);
  }

  /** A cookie is recovered from its encoding; a "/" path is left out and read back as the default. */
  lemma CookieRoundTrip(c: Cookie)
    ensures ReadCookie(EncodeCookie(c)) == Some(c)
  {
    var f := EncodeCookie(c).fields;
    CookieNameValueRead(c);
    CookiePathRead(c);
    CookieDomainRead(c);
    CookieSecureRead(c);
    CookieHttpOnlyRead(c);
    CookieExpiryRead(c);
    CookieReadFrom(c, f);
  }

  /** Reading a cookie back from any fields whose members carry its values. */
  lemma CookieReadFrom(c: Cookie, f: Fields)
    requires StringAt(f, "name") == Some(c.name) && StringAt(f, "value") == Some(c.value)
    requires StringAt(f, "path").GetOr("/") == c.path && StringAt(f, "domain") == c.domain
    requires BoolAt(f, "secure") == c.secure && BoolAt(f, "httpOnly") == c.httpOnly
    requires NumberAt(f, "expiry") == c.expiry
    ensures ReadCookie(JObject(f)) == Some(c)
  {
  }

  lemma CookieNameValueRead(c: Cookie)
    ensures StringAt(EncodeCookie(c).fields, "name") == Some(c.name)
    ensures StringAt(EncodeCookie(c).fields, "value") == Some(c.value)
  {
    CookieMember(c, 0, "name");
    CookieMember(c, 1, "value");
  }

  lemma CookiePathRead(c: Cookie)
    ensures StringAt(EncodeCookie(c).fields, "path").GetOr("/") == c.path
  {
    CookieMember(c, 2, "path");
  }

  lemma CookieDomainRead(c: Cookie)
    ensures StringAt(EncodeCookie(c).fields, "domain") == c.domain
  {
    CookieMember(c, 3, "domain");
  }

  lemma CookieSecureRead(c: Cookie)
    ensures BoolAt(EncodeCookie(c).fields, "secure") == c.secure
  {
    CookieMember(c, 4, "secure");
  }

  lemma CookieHttpOnlyRead(c: Cookie)
    ensures BoolAt(EncodeCookie(c).fields, "httpOnly") == c.httpOnly
  {
    CookieMember(c, 5, "httpOnly");
    assert Get(EncodeCookie(c).fields, "httpOnly") == Get(BoolMember("httpOnly", c.httpOnly), "httpOnly");
  }

  lemma CookieExpiryRead(c: Cookie)
    ensures NumberAt(EncodeCookie(c).fields, "expiry") == c.expiry
  {
    CookieMember(c, 6, "expiry");
  }

  /** The default path is indeed omitted from the encoding. */
  lemma CookieDefaultPathOmitted(c: Cookie)
    requires c.path == "/"
    ensures Get(EncodeCookie(c).fields, "path").None?
  {
    CookieMember(c, 2, "path");
  }

  /** CookieData: {"cookie": cookie}. */
  function EncodeCookieData(c: Cookie): Json {
    JObject([("cookie", EncodeCookie(c))])
  }

  /** Rect<Int>: x, y, width and height. */
  datatype Rect = Rect(x: int, y: int, width: int, height: int)

  function EncodeRect(r: Rect): Json {
    JObject([("x", JNumber(r.x)), ("y", JNumber(r.y)), ("width", JNumber(r.width)), ("height", JNumber(r.height))])
  }

  /** ScriptData: the script and its arguments. */
  datatype ScriptData = ScriptData(script: string, args: seq<Json>)

  function EncodeScript(d: ScriptData): Json {
    JObject([("script", JString(d.script)), ("args", JArray(d.args))])
  }

  /** The one-string request bodies: Text, PageUrl and WindowHandle. */
  function EncodeText(text: string): Json { JObject([("text", JString(text))]) }
  function EncodePageUrl(url: string): Json { JObject([("url", JString(url))]) }
  function EncodeWindowHandle(handle: string): Json { JObject([("handle", JString(handle))]) }

  /** `object Empty`: the empty object. */
  const EmptyBody := JObject([])

  // ---------------------------------------------------------------------
  // Reading request bodies back
  // ---------------------------------------------------------------------

  /** The object {key: s}: PageUrl, WindowHandle and Text. */
  function ReadOneString(j: Json, key: string): (r: Option<string>)
    ensures r.Some? ==> j == JObject([(key, JString(r.value))])
  {
    if j.JObject? then ReadStringMember(j.fields, key) else None
  }

  /** `Empty` is sent as the empty object. */
  function ReadEmpty(j: Json): (r: bool)
    ensures r <==> j == EmptyBody
  {
    j == JObject([])
  }

  function ReadLocator(j: Json): (r: Option<Locator>)
    ensures r.Some? ==> EncodeLocator(r.value) == j
  {
    if j.JObject? && |j.fields| == 2 && j.fields[0].0 == "using" && j.fields[0].1.JString?
      && j.fields[1].0 == "value" && j.fields[1].1.JString?
    then
      var l := Locator(j.fields[0].1.s, j.fields[1].1.s);
      assert j.fields == [("using", JString(l.using)), ("value", JString(l.value))];
      Some(l)
    else None
  }

  lemma LocatorRoundTrip(l: Locator)
    ensures ReadLocator(EncodeLocator(l)) == Some(l)
  {
  }

  function ReadRect(j: Json): (r: Option<Rect>)
    ensures r.Some? ==> EncodeRect(r.value) == j
  {
    if j.JObject? && |j.fields| == 4
      && j.fields[0].0 == "x" && j.fields[0].1.JNumber? && j.fields[1].0 == "y" && j.fields[1].1.JNumber?
      && j.fields[2].0 == "width" && j.fields[2].1.JNumber? && j.fields[3].0 == "height" && j.fields[3].1.JNumber?
    then
      var r := Rect(j.fields[0].1.n, j.fields[1].1.n, j.fields[2].1.n, j.fields[3].1.n);
      assert j.fields == EncodeRect(r).fields;
      Some(r)
    else None
  }

  lemma RectRoundTrip(r: Rect)
    ensures ReadRect(EncodeRect(r)) == Some(r)
  {
  }

  function ReadScript(j: Json): (r: Option<ScriptData>)
    ensures r.Some? ==> EncodeScript(r.value) == j
  {
    if j.JObject? && |j.fields| == 2 && j.fields[0].0 == "script" && j.fields[0].1.JString?
      && j.fields[1].0 == "args" && j.fields[1].1.JArray?
    then
      var d := ScriptData(j.fields[0].1.s, j.fields[1].1.items);
      assert j.fields == EncodeScript(d).fields;
      Some(d)
    else None
  }

  lemma ScriptRoundTrip(d: ScriptData)
    ensures ReadScript(EncodeScript(d)) == Some(d)
  {
  }

  /** The body of "set timeouts", accepted only in the form EncodeTimeouts gives it. */
  function ReadTimeoutsBody(j: Json): (r: Option<Timeouts>)
    ensures r.Some? ==> EncodeTimeouts(r.value) == j
  {
    match ReadTimeouts(j)
    case Some(t) => if EncodeTimeouts(t) == j then Some(t) else None
    case None => None
  }

  lemma TimeoutsBodyRoundTrip(t: Timeouts)
    ensures ReadTimeoutsBody(EncodeTimeouts(t)) == Some(t)
  {
    TimeoutsRoundTrip(t);
  }

  /** The body of "add cookie", accepted only in the form EncodeCookieData gives it. */
  function ReadCookieData(j: Json): (r: Option<Cookie>)
    ensures r.Some? ==> EncodeCookieData(r.value) == j
  {
    if j.JObject? && |j.fields| == 1 && j.fields[0].0 == "cookie" then
      match ReadCookie(j.fields[0].1)
      case Some(c) =>
        if EncodeCookie(c) == j.fields[0].1 then
          assert j.fields == [("cookie", EncodeCookie(c))];
          Some(c)
        else None
      case None => None
    else None
  }

  lemma CookieDataRoundTrip(c: Cookie)
    ensures ReadCookieData(EncodeCookieData(c)) == Some(c)
  {
    CookieRoundTrip(c);
  }

  lemma SourcesReadSound()
    ensures forall k :: ReadSource(k).Some? ==> EncodeSource(ReadSource(k).value) == k
  {
    forall k ensures ReadSource(k).Some? ==> EncodeSource(ReadSource(k).value) == k { SourceReadSound(k); }
  }

  function ReadActions(j: Json): (r: Option<seq<ActionSource>>)
    ensures r.Some? ==> EncodeActions(r.value) == j
  {
    if j.JObject? && |j.fields| == 1 && j.fields[0].0 == "actions" && j.fields[0].1.JArray? then
      var items := j.fields[0].1.items;
      match ReadAll(ReadSource, items)
      case Some(sources) =>
        SourcesReadSound();
        ReadAllSound(EncodeSource, ReadSource, items);
        assert j.fields == [("actions", JArray(items))];
        Some(sources)
      case None => None
    else None
  }

  lemma ActionsRoundTrip(sources: seq<ActionSource>)
    ensures ReadActions(EncodeActions(sources)) == Some(sources)
  {
    forall s ensures ReadSource(EncodeSource(s)) == Some(s) { SourceRoundTrip(s); }
    ReadAllRoundTrip(EncodeSource, ReadSource, sources);
  }
}
