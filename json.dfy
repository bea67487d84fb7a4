/** The optional value used wherever the source has a nullable type (`T?`). */
module Options {
  datatype Option<+T> = None | Some(value: T) {
    function GetOr(default: T): T {
      match this
      case Some(v) => v
      case None => default
    }
  }
}

/**
 * The subset of kotlinx.serialization's JSON element tree that the client
 * handles, and the two helpers of core/util.kt.
 *
 * As in kotlinx, `JNull` is a primitive (JsonNull extends JsonPrimitive), and
 * an object is an ordered sequence of fields (JsonObject keeps insertion
 * order). Numbers are integers only.
 */
module Json {
  import opened Options

  datatype Json =
    | JNull
    | JBool(b: bool)
    | JNumber(n: int)
    | JString(s: string)
    | JArray(items: seq<Json>)
    | JObject(fields: seq<(string, Json)>)

  type Fields = seq<(string, Json)>

  /** JsonPrimitive: null, booleans, numbers and strings. */
  predicate IsPrimitive(j: Json) {
    j.JNull? || j.JBool? || j.JNumber? || j.JString?
  }

  function Digit(d: nat): (c: char)
    requires d < 10
    ensures '0' <= c <= '9'
  {
    "0123456789"[d]
  }

  /** Decimal rendering of a natural number, most significant digit first. */
  function NatToString(n: nat): (s: string)
    ensures |s| >= 1
    ensures forall i :: 0 <= i < |s| ==> '0' <= s[i] <= '9'
    ensures n < 10 <==> |s| == 1
  {
    if n < 10 then [Digit(n)] else NatToString(n / 10) + [Digit(n % 10)]
  }

  /** Kotlin's Int.toString(): a leading '-' for negative numbers. */
  function IntToString(i: int): (s: string)
    ensures |s| >= 1
    ensures (s[0] == '-') <==> i < 0
  {
    if i < 0 then "-" + NatToString(-i) else NatToString(i)
  }

  function DigitValue(c: char): nat
    requires '0' <= c <= '9'
  {
    (c as int) - ('0' as int)
  }

  /** Reads back a string of decimal digits. */
  function ParseNat(s: string): nat
    requires forall i :: 0 <= i < |s| ==> '0' <= s[i] <= '9'
  {
    if s == [] then 0 else 10 * ParseNat(s[..|s| - 1]) + DigitValue(s[|s| - 1])
  }

  lemma DigitRoundTrip(d: nat)
    requires d < 10
    ensures DigitValue(Digit(d)) == d
  {
    assert "0123456789"[d] as int == '0' as int + d by {
      if d < 5 { assert d == 0 || d == 1 || d == 2 || d == 3 || d == 4; }
      else { assert d == 5 || d == 6 || d == 7 || d == 8 || d == 9; }
    }
  }

  /** The decimal rendering reads back as the same number. */
  lemma {:induction false} NatToStringRoundTrip(n: nat)
    ensures ParseNat(NatToString(n)) == n
  {
    if n < 10 {
      DigitRoundTrip(n);
      assert NatToString(n)[..0] == [];
    } else {
      var s := NatToString(n);
      var p := NatToString(n / 10);
      assert s == p + [Digit(n % 10)];
      assert s[..|s| - 1] == p;
      DigitRoundTrip(n % 10);
      assert ParseNat(s) == 10 * ParseNat(p) + n % 10;
      NatToStringRoundTrip(n / 10);
    }
  }

  /** Reads back the text of IntToString. */
  function ParseInt(s: string): int
    requires |s| >= 1
    requires forall i :: 1 <= i < |s| ==> '0' <= s[i] <= '9'
    requires s[0] == '-' || '0' <= s[0] <= '9'
  {
    if s[0] == '-' then -(ParseNat(s[1..]) as int) else ParseNat(s)
  }

  /** The text of an integer reads back as that integer. */
  lemma IntToStringRoundTrip(i: int)
    ensures ParseInt(IntToString(i)) == i
  {
    if i < 0 {
      NegativeRoundTrip(i);
    } else {
      NatToStringRoundTrip(i);
    }
  }

  lemma NegativeRoundTrip(i: int)
    requires i < 0
    ensures ParseInt(IntToString(i)) == i
  {
    NatToStringRoundTrip(-i);
    ParseNegative(NatToString(-i), -i);
  }

  /** A '-' followed by the digits of n reads as -n. */
  lemma ParseNegative(p: string, n: nat)
    requires |p| >= 1 && forall i :: 0 <= i < |p| ==> '0' <= p[i] <= '9'
    requires ParseNat(p) == n
    ensures ParseInt("-" + p) == -(n as int)
  {
    assert ("-" + p)[1..] == p;
  }

  /** Rendering integers is injective, so distinct numbers never give the same text. */
  lemma IntToStringInjective(a: int, b: int)
    requires IntToString(a) == IntToString(b)
    ensures a == b
  {
    IntToStringRoundTrip(a);
    IntToStringRoundTrip(b);
  }

  /** JsonPrimitive.content: the unquoted text of a primitive. */
  function Content(j: Json): (s: string)
    requires IsPrimitive(j)
  {
    match j
    case JNull => "null"
    case JBool(b) => if b then "true" else "false"
    case JNumber(n) => IntToString(n)
    case JString(s) => s
  }

  /** `asObj`: the element itself when it is an object, null otherwise. */
  function AsObj(j: Json): (r: Option<Fields>)
    ensures r.Some? <==> j.JObject?
    ensures r.Some? ==> j == JObject(r.value)
  {
    if j.JObject? then Some(j.fields) else None
  }

  /** JsonObject.get(key): the value stored under `key`, or null. */
  function Get(fields: Fields, key: string): (r: Option<Json>)
    ensures r.Some? <==> exists i :: 0 <= i < |fields| && fields[i].0 == key
    ensures r.Some? ==> exists i :: 0 <= i < |fields| && fields[i] == (key, r.value)
  {
    if fields == [] then None
    else if fields[0].0 == key then Some(fields[0].1)
    else Get(fields[1..], key)
  }

  /** A lookup finds the first field when it has the key. */
  lemma GetHead(k: string, x: Json, rest: Fields)
    ensures Get([(k, x)] + rest, k) == Some(x)
  {
  }

  /** A lookup passes over a first field with another key. */
  lemma GetPast(k0: string, x: Json, rest: Fields, k: string)
    requires k0 != k
    ensures Get([(k0, x)] + rest, k) == Get(rest, k)
  {
    assert ([(k0, x)] + rest)[1..] == rest;
  }

  /** Looking up a key in a concatenation: the first part decides when it holds the key. */
  lemma {:induction false} GetAppend(a: Fields, b: Fields, key: string)
    ensures Get(a + b, key) == if Get(a, key).Some? then Get(a, key) else Get(b, key)
  {
    if a == [] {
      assert a + b == b;
    } else {
      assert (a + b)[0] == a[0];
      assert (a + b)[1..] == a[1..] + b;
      if a[0].0 != key {
        GetAppend(a[1..], b, key);
      }
    }
  }

  /** `getString`: the content of a primitive, and "" for anything else or a missing element. */
  function GetString(e: Option<Json>): string {
    if e.Some? && IsPrimitive(e.value) then Content(e.value) else ""
  }

  /** `getString` is total: a missing element, an array and an object all give "". */
  lemma GetStringOfNonPrimitive(e: Option<Json>)
    requires e.None? || e.value.JArray? || e.value.JObject?
    ensures GetString(e) == ""
  {
  }

  /** `getString` of a string primitive is that string's raw content. */
  lemma GetStringOfString(s: string)
    ensures GetString(Some(JString(s))) == s
  {
  }

  /** `getString` of the JSON null literal is the text "null", not "" (JsonNull is a primitive). */
  lemma GetStringOfNull()
    ensures GetString(Some(JNull)) == "null"
    ensures GetString(Some(JNull)) != GetString(None)
  {
  }

  /** `getString` of a number is its decimal text, which reads back as the number. */
  lemma GetStringOfNumber(n: int)
    ensures GetString(Some(JNumber(n))) == IntToString(n)
    ensures ParseInt(GetString(Some(JNumber(n)))) == n
  {
    IntToStringRoundTrip(n);
  }

  /** `asObj` keeps exactly the objects. */
  lemma AsObjExactlyObjects(j: Json)
    ensures AsObj(j).Some? <==> j.JObject?
    ensures AsObj(j).Some? ==> j == JObject(AsObj(j).value)
  {
  }

  function Keys(fields: Fields): seq<string> {
    if fields == [] then [] else [fields[0].0] + Keys(fields[1..])
  }

  /** No key occurs twice (what a JsonObject, being a map, guarantees). */
  predicate DistinctKeys(fields: Fields) {
    forall i, j :: 0 <= i < j < |fields| ==> fields[i].0 != fields[j].0
  }

  /** With distinct keys, looking up the key at position i yields the value at position i. */
  lemma {:induction false} GetAt(fields: Fields, i: nat)
    requires DistinctKeys(fields)
    requires i < |fields|
    ensures Get(fields, fields[i].0) == Some(fields[i].1)
  {
    if i > 0 {
      assert fields[0].0 != fields[i].0;
      assert DistinctKeys(fields[1..]) by {
        forall a, b | 0 <= a < b < |fields[1..]| ensures fields[1..][a].0 != fields[1..][b].0 {
          assert fields[1..][a] == fields[a + 1] && fields[1..][b] == fields[b + 1];
        }
      }
      GetAt(fields[1..], i - 1);
      assert fields[1..][i - 1] == fields[i];
    }
  }
}
