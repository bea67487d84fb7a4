/**
 * The capability bag of core/common.kt: `Caps` keeps an insertion-ordered
 * map (a LinkedHashMap) from capability name to the pair (serializer,
 * value); `capability<T>(name)` delegates read and write one key of it;
 * `Ser` writes the bag as a JSON object; `capabilities()` assembles the
 * `{capabilities: {alwaysMatch, firstMatch}}` payload of a new session
 * (section 7 of W3C WebDriver).
 *
 * A value is represented by the JSON its serializer writes, and a serializer
 * by the type it writes.
 */
module Capabilities {
  import opened Options
  import opened Json
  import opened Errors
  import opened Decoding

  /** A `capability<T>(name)` delegate: the optional override name and T. */
  datatype Capability = Capability(name: Option<string>, serializer: ValueType)

  /** The `Pair(serializer, value)` the bag stores under a key. */
  datatype Stored = Stored(serializer: ValueType, value: Json)

  type Entries = seq<(string, Stored)>

  /** The key a delegated property reads and writes: `name ?: property.name`. */
  function KeyOf(cap: Capability, property: string): string {
    cap.name.GetOr(property)
  }

  /** `mutableMap[key]`. */
  function Lookup(m: Entries, k: string): (r: Option<Stored>)
    ensures r.Some? <==> exists i :: 0 <= i < |m| && m[i].0 == k
    ensures r.Some? ==> exists i :: 0 <= i < |m| && m[i] == (k, r.value)
  {
    if m == [] then None else if m[0].0 == k then Some(m[0].1) else Lookup(m[1..], k)
  }

  function EntryKeys(m: Entries): (r: seq<string>)
    ensures |r| == |m| && forall i :: 0 <= i < |m| ==> r[i] == m[i].0
  {
    if m == [] then [] else [m[0].0] + EntryKeys(m[1..])
  }

  /** A map never holds a key twice. */
  predicate UniqueKeys(m: Entries) {
    forall i, j :: 0 <= i < j < |m| ==> m[i].0 != m[j].0
  }

  /**
   * `mutableMap[k] = v` on a LinkedHashMap: a present key keeps its position
   * and takes the new value, a new key goes last.
   */
  function Put(m: Entries, k: string, v: Stored): (r: Entries)
    ensures |r| == if Lookup(m, k).Some? then |m| else |m| + 1
  {
    if m == [] then [(k, v)]
    else if m[0].0 == k then [(k, v)] + m[1..]
    else [m[0]] + Put(m[1..], k, v)
  }

  /** After a put the key reads back as the value just stored. */
  lemma {:induction false} PutThenLookup(m: Entries, k: string, v: Stored)
    ensures Lookup(Put(m, k, v), k) == Some(v)
  {
    if m != [] && m[0].0 != k {
      PutThenLookup(m[1..], k, v);
      assert Put(m, k, v)[1..] == Put(m[1..], k, v);
    }
  }

  /** A put leaves every other key as it was. */
  lemma {:induction false} PutKeepsOthers(m: Entries, k: string, v: Stored, other: string)
    requires other != k
    ensures Lookup(Put(m, k, v), other) == Lookup(m, other)
  {
    if m != [] {
      if m[0].0 == k {
        assert Put(m, k, v)[1..] == m[1..];
      } else if m[0].0 != other {
        PutKeepsOthers(m[1..], k, v, other);
        assert Put(m, k, v)[1..] == Put(m[1..], k, v);
      }
    }
  }

  /** Setting a key twice is setting it once to the second value. */
  lemma {:induction false} PutOverwrites(m: Entries, k: string, v1: Stored, v2: Stored)
    ensures Put(Put(m, k, v1), k, v2) == Put(m, k, v2)
  {
    if m == [] {
    } else if m[0].0 == k {
      assert Put(m, k, v1)[1..] == m[1..];
    } else {
      PutOverwrites(m[1..], k, v1, v2);
      assert Put(m, k, v1) == [m[0]] + Put(m[1..], k, v1);
    }
  }

  /** Insertion order: a new key is appended, and re-setting a key leaves the order of keys alone. */
  lemma {:induction false} PutOrder(m: Entries, k: string, v: Stored)
    ensures Lookup(m, k).None? ==> Put(m, k, v) == m + [(k, v)]
    ensures Lookup(m, k).Some? ==> EntryKeys(Put(m, k, v)) == EntryKeys(m)
  {
    if m != [] && m[0].0 != k {
      PutOrder(m[1..], k, v);
      assert m == [m[0]] + m[1..];
      assert Lookup(m, k) == Lookup(m[1..], k);
      if Lookup(m, k).None? {
        assert [m[0]] + (m[1..] + [(k, v)]) == m + [(k, v)];
      } else {
        assert EntryKeys(Put(m, k, v)) == [m[0].0] + EntryKeys(Put(m[1..], k, v));
      }
    } else if m != [] {
      assert EntryKeys(Put(m, k, v)) == [k] + EntryKeys(m[1..]);
    }
  }

  /** A put never introduces a duplicate key. */
  lemma {:induction false} PutKeepsDistinct(m: Entries, k: string, v: Stored)
    requires UniqueKeys(m)
    ensures UniqueKeys(Put(m, k, v))
  {
    PutOrder(m, k, v);
    var r := Put(m, k, v);
    if Lookup(m, k).Some? {
      assert forall i :: 0 <= i < |r| ==> r[i].0 == EntryKeys(r)[i];
    } else {
      forall i, j | 0 <= i < j < |r| ensures r[i].0 != r[j].0 {
        if j == |m| {
          assert r[i] == m[i];
        } else {
          assert r[i] == m[i] && r[j] == m[j];
        }
      }
    }
  }

  /** A configuration block `Caps.() -> Unit`, as the setter calls it makes, in order. */
  datatype Setting = Setting(cap: Capability, property: string, value: Json)

  function SettingKey(s: Setting): string {
    KeyOf(s.cap, s.property)
  }

  /** The bag a block leaves behind when it starts from `m`. */
  function Applied(m: Entries, block: seq<Setting>): Entries
    decreases |block|
  {
    if block == [] then m
    else
      var s := block[|block| - 1];
      Put(Applied(m, block[..|block| - 1]), SettingKey(s), Stored(s.cap.serializer, s.value))
  }

  /** A block only ever produces a map, so its keys stay distinct. */
  lemma {:induction false} AppliedDistinct(m: Entries, block: seq<Setting>)
    requires UniqueKeys(m)
    ensures UniqueKeys(Applied(m, block))
    decreases |block|
  {
    if block != [] {
      AppliedDistinct(m, block[..|block| - 1]);
      var s := block[|block| - 1];
      PutKeepsDistinct(Applied(m, block[..|block| - 1]), SettingKey(s), Stored(s.cap.serializer, s.value));
    }
  }

  /** What the bag ends up holding for a key: the last setting of that key in the block. */
  lemma {:induction false} AppliedLastWins(block: seq<Setting>, i: nat)
    requires i < |block|
    requires forall j :: i < j < |block| ==> SettingKey(block[j]) != SettingKey(block[i])
    ensures Lookup(Applied([], block), SettingKey(block[i])) == Some(Stored(block[i].cap.serializer, block[i].value))
    decreases |block|
  {
    var s := block[|block| - 1];
    var prefix := block[..|block| - 1];
    if i == |block| - 1 {
      PutThenLookup(Applied([], prefix), SettingKey(s), Stored(s.cap.serializer, s.value));
    } else {
      assert prefix[i] == block[i];
      forall j | i < j < |prefix| ensures SettingKey(prefix[j]) != SettingKey(prefix[i]) {
        assert prefix[j] == block[j];
      }
      AppliedLastWins(prefix, i);
      PutKeepsOthers(Applied([], prefix), SettingKey(s), Stored(s.cap.serializer, s.value), SettingKey(block[i]));
    }
  }

  /** `getValue` as intended: the value half of the stored pair, or null. */
  function Read(m: Entries, k: string): (r: Option<Json>)
    ensures r.Some? <==> Lookup(m, k).Some?
    ensures r.Some? ==> r.value == Lookup(m, k).value.value
  {
    match Lookup(m, k)
    case Some(s) => Some(s.value)
    case None => None
  }

  /**
   * `getValue` as written: `mutableMap[key] as T` hands the whole stored pair
   * to a caller that expects a T, which fails its cast; an absent key gives null.
   */
  function AsWrittenRead(m: Entries, k: string): Outcome<Option<Json>> {
    match Lookup(m, k)
    case Some(_) => Thrown(ClassCast)
    case None => Ok(None)
  }

  /** The as-written getter fails on every capability that has been set; the corrected one returns the set value. */
  lemma AsWrittenGetterFails(m: Entries, cap: Capability, property: string, value: Json)
    ensures var m2 := Put(m, KeyOf(cap, property), Stored(cap.serializer, value));
      && AsWrittenRead(m2, KeyOf(cap, property)) == Thrown(ClassCast)
      && Read(m2, KeyOf(cap, property)) == Some(value)
  {
    PutThenLookup(m, KeyOf(cap, property), Stored(cap.serializer, value));
  }

  /** The getter and the setter of one delegate use the same key, so a set value reads back. */
  lemma SetThenRead(m: Entries, cap: Capability, property: string, value: Json)
    ensures Read(Put(m, KeyOf(cap, property), Stored(cap.serializer, value)), KeyOf(cap, property)) == Some(value)
  {
    PutThenLookup(m, KeyOf(cap, property), Stored(cap.serializer, value));
  }

  /** An override name replaces the property name as the key. */
  lemma OverrideNameIsKey(serializer: ValueType, property: string)
    ensures KeyOf(Capability(Some("bstack:options"), serializer), property) == "bstack:options"
    ensures KeyOf(Capability(None, serializer), property) == property
  {
  }

  /** Caps: the bag a configuration block fills. */
  class Caps {
    var entries: Entries

    ghost predicate Valid()
      reads this
    {
      UniqueKeys(entries)
    }

    constructor()
      ensures entries == [] && Valid()
    {
      entries := [];
    }

    /** `Capability.setValue`: store `Pair(serializer, value)` under the delegate's key. */
    method Set(cap: Capability, property: string, value: Json)
      requires Valid()
      modifies this
      ensures Valid()
      ensures entries == Put(old(entries), KeyOf(cap, property), Stored(cap.serializer, value))
    {
      PutKeepsDistinct(entries, KeyOf(cap, property), Stored(cap.serializer, value));
      entries := Put(entries, KeyOf(cap, property), Stored(cap.serializer, value));
    }

    /** `Capability.getValue`, reading the value of the stored pair. */
    function Get(cap: Capability, property: string): (r: Option<Json>)
      reads this
      ensures r == Read(entries, KeyOf(cap, property))
    {
      match Lookup(entries, KeyOf(cap, property))
      case Some(s) => Some(s.value)
      case None => None
    }

    /** `Capability.getValue` as written, cast included. */
    function AsWrittenGet(cap: Capability, property: string): Outcome<Option<Json>>
      reads this
    {
      AsWrittenRead(entries, KeyOf(cap, property))
    }

    /** Runs a configuration block on the bag. */
    method Apply(block: seq<Setting>)
      requires Valid()
      modifies this
      ensures Valid()
      ensures entries == Applied(old(entries), block)
    {
      var i := 0;
      while i < |block|
        invariant 0 <= i <= |block|
        invariant Valid()
        invariant entries == Applied(old(entries), block[..i])
      {
        assert block[..i + 1][..i] == block[..i];
        Set(block[i].cap, block[i].property, block[i].value);
        i := i + 1;
      }
      assert block[..|block|] == block;
    }
  }

  /** The fields of the object a bag is written as: one per entry, in order. */
  function EncodedFields(m: Entries): (r: Fields)
    ensures |r| == |m|
    ensures forall i :: 0 <= i < |m| ==> r[i] == (m[i].0, m[i].1.value)
  {
    if m == [] then [] else [(m[0].0, m[0].1.value)] + EncodedFields(m[1..])
  }

  /**
   * The JSON tree encoder of a map descriptor: the element at an even index
   * is a key, the one after it its value.
   */
  function PairUp(elements: seq<Json>): Fields
    decreases |elements|
  {
    if |elements| < 2 then []
    else [(GetString(Some(elements[0])), elements[1])] + PairUp(elements[2..])
  }

  /** The elements the encoder writes for a bag: key then value, entry by entry. */
  function Flatten(m: Entries): (r: seq<Json>)
    ensures |r| == 2 * |m|
    decreases |m|
  {
    if m == [] then []
    else Flatten(m[..|m| - 1]) + [JString(m[|m| - 1].0), m[|m| - 1].1.value]
  }

  /** Entry i has its key at index 2i and its value at index 2i + 1. */
  lemma {:induction false} FlattenPositions(m: Entries, i: nat)
    requires i < |m|
    ensures Flatten(m)[2 * i] == JString(m[i].0) && Flatten(m)[2 * i + 1] == m[i].1.value
    decreases |m|
  {
    if i < |m| - 1 {
      FlattenPositions(m[..|m| - 1], i);
      assert m[..|m| - 1][i] == m[i];
    }
  }

  lemma {:induction false} PairUpAppend(elements: seq<Json>, k: string, v: Json)
    requires |elements| % 2 == 0
    ensures PairUp(elements + [JString(k), v]) == PairUp(elements) + [(k, v)]
    decreases |elements|
  {
    if |elements| == 0 {
      assert elements + [JString(k), v] == [JString(k), v];
    } else {
      assert (elements + [JString(k), v])[2..] == elements[2..] + [JString(k), v];
      PairUpAppend(elements[2..], k, v);
    }
  }

  /** Pairing the written elements up again gives one field per entry. */
  lemma {:induction false} PairUpFlatten(m: Entries)
    ensures PairUp(Flatten(m)) == EncodedFields(m)
    decreases |m|
  {
    if m != [] {
      var init := m[..|m| - 1];
      PairUpFlatten(init);
      PairUpAppend(Flatten(init), m[|m| - 1].0, m[|m| - 1].1.value);
      assert m == init + [m[|m| - 1]];
      EncodedFieldsAppend(init, m[|m| - 1]);
    }
  }

  lemma {:induction false} EncodedFieldsAppend(m: Entries, e: (string, Stored))
    ensures EncodedFields(m + [e]) == EncodedFields(m) + [(e.0, e.1.value)]
  {
    var a := EncodedFields(m + [e]);
    var b := EncodedFields(m) + [(e.0, e.1.value)];
    assert |a| == |b|;
    forall i | 0 <= i < |a| ensures a[i] == b[i] {
      if i < |m| {
        assert (m + [e])[i] == m[i];
      }
    }
  }

  /**
   * `Ser.serialize`: for each entry in iteration order the key is written at
   * `index++` and the value at `index++`, so entry i has its key at 2i and its
   * value at 2i + 1, and the object written has one field per entry.
   */
  method Serialize(caps: Caps) returns (elements: seq<Json>, r: Json)
    ensures elements == Flatten(caps.entries)
    ensures forall i :: 0 <= i < |caps.entries| ==>
      elements[2 * i] == JString(caps.entries[i].0) && elements[2 * i + 1] == caps.entries[i].1.value
    ensures r == JObject(EncodedFields(caps.entries))
  {
    var m := caps.entries;
    var index := 0;
    elements := [];
    var i := 0;
    while i < |m|
      invariant 0 <= i <= |m|
      invariant index == |elements|
      invariant elements == Flatten(m[..i])
    {
      var (k, v) := m[i];
      assert m[..i + 1][..i] == m[..i];
      elements := elements + [JString(k)];
      index := index + 1;
      elements := elements + [v.value];
      index := index + 1;
      i := i + 1;
    }
    assert m[..|m|] == m;
    forall i | 0 <= i < |m| ensures elements[2 * i] == JString(m[i].0) && elements[2 * i + 1] == m[i].1.value {
      FlattenPositions(m, i);
    }
    PairUpFlatten(m);
    r := JObject(PairUp(elements));
  }

  /** `Ser.deserialize`: reading a bag back is not supported and always throws. */
  function Deserialize(j: Json): (r: Outcome<Entries>)
    ensures r.Thrown? && r.failure == Unsupported
  {
    Thrown(Unsupported)
  }

  /** WebDriverCapabilities: `alwaysMatch` defaults to null and `firstMatch` to the empty list. */
  datatype WebDriverCapabilities = WebDriverCapabilities(alwaysMatch: Option<Fields>, firstMatch: seq<Fields>)

  /** WebDriverNewSessionParameters. */
  datatype NewSessionParameters = NewSessionParameters(capabilities: WebDriverCapabilities)

  const DefaultCapabilities := WebDriverCapabilities(None, [])

  function EncodeFirstMatch(blocks: seq<Fields>): (r: seq<Json>)
    ensures |r| == |blocks| && forall i :: 0 <= i < |blocks| ==> r[i] == JObject(blocks[i])
  {
    if blocks == [] then [] else [JObject(blocks[0])] + EncodeFirstMatch(blocks[1..])
  }

  /**
   * The wire form of WebDriverCapabilities. Properties equal to their
   * defaults are not written, so a null `alwaysMatch` and an empty
   * `firstMatch` are left out.
   */
  function EncodeCapabilities(c: WebDriverCapabilities): Json {
    JObject(
      (if c.alwaysMatch.Some? then [("alwaysMatch", JObject(c.alwaysMatch.value))] else [])
      + (if c.firstMatch != [] then [("firstMatch", JArray(EncodeFirstMatch(c.firstMatch)))] else []))
  }

  function EncodeParameters(p: NewSessionParameters): Json {
    JObject([("capabilities", EncodeCapabilities(p.capabilities))])
  }

  /** Reads back the objects of a `firstMatch` array. */
  function ReadFirstMatch(items: seq<Json>): (r: Option<seq<Fields>>)
    ensures r.Some? ==> EncodeFirstMatch(r.value) == items
  {
    if items == [] then Some([])
    else if !items[0].JObject? then None
    else match ReadFirstMatch(items[1..])
      case Some(rest) => Some([items[0].fields] + rest)
      case None => None
  }

  lemma {:induction false} FirstMatchRoundTrip(blocks: seq<Fields>)
    ensures ReadFirstMatch(EncodeFirstMatch(blocks)) == Some(blocks)
  {
    if blocks != [] {
      FirstMatchRoundTrip(blocks[1..]);
      var items := EncodeFirstMatch(blocks);
      assert items[0] == JObject(blocks[0]);
      assert items[1..] == EncodeFirstMatch(blocks[1..]);
      assert [blocks[0]] + blocks[1..] == blocks;
    }
  }

  /** Reads the wire form of WebDriverCapabilities back, with absent properties taking their defaults. */
  function ReadCapabilities(j: Json): (r: Option<WebDriverCapabilities>) {
    if !j.JObject? then None
    else
      var f := j.fields;
      if f == [] then Some(DefaultCapabilities)
      else if |f| == 1 && f[0].0 == "alwaysMatch" && f[0].1.JObject? then
        Some(WebDriverCapabilities(Some(f[0].1.fields), []))
      else if |f| == 1 && f[0].0 == "firstMatch" && f[0].1.JArray? && f[0].1.items != [] then
        match ReadFirstMatch(f[0].1.items)
        case Some(b) => Some(WebDriverCapabilities(None, b))
        case None => None
      else if |f| == 2 && f[0].0 == "alwaysMatch" && f[0].1.JObject? && f[1].0 == "firstMatch" && f[1].1.JArray? && f[1].1.items != [] then
        match ReadFirstMatch(f[1].1.items)
        case Some(b) => Some(WebDriverCapabilities(Some(f[0].1.fields), b))
        case None => None
      else None
  }

  /** Round trip: the wire form of the capabilities reads back as the same capabilities. */
  lemma CapabilitiesRoundTrip(c: WebDriverCapabilities)
    ensures ReadCapabilities(EncodeCapabilities(c)) == Some(c)
  {
    FirstMatchRoundTrip(c.firstMatch);
    if c.firstMatch != [] {
      assert EncodeFirstMatch(c.firstMatch) != [];
    }
  }

  /** The default capabilities are written as the empty object. */
  lemma DefaultCapabilitiesEncodeEmpty()
    ensures EncodeCapabilities(DefaultCapabilities) == JObject([])
  {
  }

  /**
   * `capabilities(firstMatch, alwaysMatch)`: each block runs on a fresh
   * bag, which is written as an object; alwaysMatch's object is always
   * present, and firstMatch holds one object per block, in order.
   */
  method BuildCapabilities(firstMatch: seq<seq<Setting>>, alwaysMatch: seq<Setting>) returns (r: NewSessionParameters)
    ensures r.capabilities.alwaysMatch == Some(EncodedFields(Applied([], alwaysMatch)))
    ensures |r.capabilities.firstMatch| == |firstMatch|
    ensures forall i :: 0 <= i < |firstMatch| ==> r.capabilities.firstMatch[i] == EncodedFields(Applied([], firstMatch[i]))
  {
    var always := new Caps();
    always.Apply(alwaysMatch);
    var _, a := Serialize(always);
    var blocks: seq<Fields> := [];
    var i := 0;
    while i < |firstMatch|
      invariant 0 <= i <= |firstMatch|
      invariant |blocks| == i
      invariant forall j :: 0 <= j < i ==> blocks[j] == EncodedFields(Applied([], firstMatch[j]))
    {
      var c := new Caps();
      c.Apply(firstMatch[i]);
      var _, o := Serialize(c);
      blocks := blocks + [o.fields];
      i := i + 1;
    }
    r := NewSessionParameters(WebDriverCapabilities(Some(a.fields), blocks));
  }

  /** The keys of the W3C capabilities delegates (`W3CCapabilities`), which use their property names. */
  const BrowserName := Capability(None, StringT)

  /**
   * The mock tests' payload: `capabilities { browserName = "firefox" }` is
   * written as {"capabilities": {"alwaysMatch": {"browserName": "firefox"}}},
   * with no firstMatch.
   */
  lemma FirefoxPayload()
    ensures var always := EncodedFields(Applied([], [Setting(BrowserName, "browserName", JString("firefox"))]));
      EncodeParameters(NewSessionParameters(WebDriverCapabilities(Some(always), [])))
        == JObject([("capabilities", JObject([("alwaysMatch", JObject([("browserName", JString("firefox"))]))]))])
  {
    var block := [Setting(BrowserName, "browserName", JString("firefox"))];
    assert block[..|block| - 1] == [];
    assert SettingKey(block[0]) == "browserName";
    assert Applied([], block) == Put([], "browserName", Stored(StringT, JString("firefox")));
    var always: Fields := [("browserName", JString("firefox"))];
    assert EncodedFields(Applied([], block)) == always;
    var members: Fields := [("alwaysMatch", JObject(always))];
    assert members + [] == members;
    assert EncodeCapabilities(WebDriverCapabilities(Some(always), [])) == JObject(members);
  }
}
