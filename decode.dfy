/**
 * What "the body decodes as WebDriverResponse<R>" means (core/ktor.kt), for
 * the value types the commands of w3c/api.kt ask for. Decoding follows the
 * default kotlinx Json configuration: unknown keys are rejected, absent
 * fields take their defaults, and `null` is accepted only by nullable types.
 */
module Decoding {
  import opened Options
  import opened Json
  import opened Wire

  /** The JSON kind a record field holds. */
  datatype FieldKind = FString | FNumber | FBool | FObject

  /** One property of a @Serializable data class. */
  datatype FieldSpec = FieldSpec(name: string, kind: FieldKind, nullable: bool, optional: bool)

  /** The type argument R of a get/post/delete call. */
  datatype ValueType =
    | EmptyT                       // object Empty, and Unit: the empty object {}
    | NullableT(inner: ValueType)  // R?: null or an R
    | StringT
    | BoolT
    | ListT(elem: ValueType)       // List<R>: an array of Rs
    | RecordT(fields: seq<FieldSpec>)
    | AnyT                         // JsonElement: any JSON

  function KindAccepts(k: FieldKind, v: Json): bool {
    match k
    case FString => v.JString?
    case FNumber => v.JNumber?
    case FBool => v.JBool?
    case FObject => v.JObject?
  }

  function FieldAccepts(f: FieldSpec, v: Json): bool {
    (v.JNull? && f.nullable) || KindAccepts(f.kind, v)
  }

  /** The declaration of property `name`, if the class has one. */
  function SpecFor(specs: seq<FieldSpec>, name: string): (r: Option<FieldSpec>)
    ensures r.Some? <==> exists i :: 0 <= i < |specs| && specs[i].name == name
    ensures r.Some? ==> r.value in specs && r.value.name == name
  {
    if specs == [] then None
    else if specs[0].name == name then Some(specs[0])
    else SpecFor(specs[1..], name)
  }

  /**
   * A record accepts an object whose every key is a declared property holding
   * an acceptable value, and in which every property without a default occurs.
   */
  predicate RecordAccepts(specs: seq<FieldSpec>, fields: Fields) {
    && (forall i :: 0 <= i < |fields| ==>
          SpecFor(specs, fields[i].0).Some? && FieldAccepts(SpecFor(specs, fields[i].0).value, fields[i].1))
    && (forall j :: 0 <= j < |specs| && !specs[j].optional ==> Get(fields, specs[j].name).Some?)
  }

  /** `decodeFromJsonElement<R>` succeeds on `v`. */
  function Accepts(t: ValueType, v: Json): bool
    decreases t, v
  {
    match t
    case EmptyT => v == JObject([])
    case NullableT(inner) => v.JNull? || Accepts(inner, v)
    case StringT => v.JString?
    case BoolT => v.JBool?
    case ListT(elem) => v.JArray? && forall i :: 0 <= i < |v.items| ==> Accepts(elem, v.items[i])
    case RecordT(specs) => v.JObject? && RecordAccepts(specs, v.fields)
    case AnyT => true
  }

  /**
   * The `value` of a WebDriverResponse envelope: the body must be an object
   * whose only key is "value" (the data class has one required property and
   * unknown keys are rejected).
   */
  function Envelope(body: Json): (r: Option<Json>)
    ensures r.Some? <==> body.JObject? && |body.fields| == 1 && body.fields[0].0 == "value"
    ensures r.Some? ==> body == JObject([("value", r.value)])
  {
    if body.JObject? && |body.fields| == 1 && body.fields[0].0 == "value" then Some(body.fields[0].1) else None
  }

  /** `decodeFromJsonElement<WebDriverResponse<R>>(body).value`, or None on a SerializationException. */
  function DecodeResponse(t: ValueType, body: Json): (r: Option<Json>)
    ensures r.Some? <==> Envelope(body).Some? && Accepts(t, Envelope(body).value)
    ensures r.Some? ==> body == JObject([("value", r.value)])
  {
    match Envelope(body)
    case Some(v) => if Accepts(t, v) then Some(v) else None
    case None => None
  }

  /** WebElementObject: {ELEMENT_KEY: id}. */
  const ElementObjectT := RecordT([FieldSpec(ElementKey, FString, false, false)])

  /** CreateSessionResponse: {sessionId, capabilities}. */
  const NewSessionT := RecordT([FieldSpec("sessionId", FString, false, false), FieldSpec("capabilities", FObject, false, false)])

  /** Status: {ready, message}. */
  const StatusT := RecordT([FieldSpec("ready", FBool, false, false), FieldSpec("message", FString, false, false)])

  /** Timeouts: three nullable integers, each defaulting to null. */
  const TimeoutsT := RecordT([
    FieldSpec("script", FNumber, true, true),
    FieldSpec("pageLoad", FNumber, true, true),
    FieldSpec("implicit", FNumber, true, true)])

  /** Rect<T>: x, y, width and height, all required. */
  const RectT := RecordT([
    FieldSpec("x", FNumber, false, false),
    FieldSpec("y", FNumber, false, false),
    FieldSpec("width", FNumber, false, false),
    FieldSpec("height", FNumber, false, false)])

  /** Cookie: name and value required; path defaults to "/", the others to null. */
  const CookieT := RecordT([
    FieldSpec("name", FString, false, false),
    FieldSpec("value", FString, false, false),
    FieldSpec("path", FString, false, true),
    FieldSpec("domain", FString, true, true),
    FieldSpec("secure", FBool, true, true),
    FieldSpec("httpOnly", FBool, true, true),
    FieldSpec("expiry", FNumber, true, true)])

  /** The `Empty?` that Unit-typed calls decode accepts exactly `null` and `{}`. */
  lemma NullableEmptyAccepts(v: Json)
    ensures Accepts(NullableT(EmptyT), v) <==> v == JNull || v == JObject([])
  {
  }

  /** Non-null `Empty` rejects `null`. */
  lemma EmptyRejectsNull()
    ensures !Accepts(EmptyT, JNull)
  {
  }

  /**
   * A W3C error body never decodes as a successful `Empty?` response: its
   * `value` is an object with keys, so the converters are always consulted.
   */
  lemma ErrorBodyIsNotEmpty(e: string, m: string, s: string)
    ensures DecodeResponse(NullableT(EmptyT), JObject([("value", JObject([
      ("error", JString(e)), ("message", JString(m)), ("stacktrace", JString(s))]))])).None?
  {
    var v := JObject([("error", JString(e)), ("message", JString(m)), ("stacktrace", JString(s))]);
    assert |v.fields| == 3;
    assert Envelope(JObject([("value", v)])) == Some(v);
    assert !Accepts(NullableT(EmptyT), v);
  }

  /** The element object of the mock tests decodes, and one without the identifier key does not. */
  lemma ElementObjectShape(id: string)
    ensures Accepts(ElementObjectT, JObject([(ElementKey, JString(id))]))
    ensures !Accepts(ElementObjectT, JObject([]))
    ensures !Accepts(ElementObjectT, JObject([("ELEMENT", JString(id))]))
  {
    var specs := [FieldSpec(ElementKey, FString, false, false)];
    assert Get([], specs[0].name).None?;
    assert SpecFor(specs, "ELEMENT").None? by {
      assert specs[0].name != "ELEMENT";
    }
  }

  /** Only `name` and `value` lack a default in Cookie. */
  lemma CookieRequiredFields()
    ensures forall j :: 0 <= j < |CookieT.fields| && !CookieT.fields[j].optional ==>
      CookieT.fields[j].name == "name" || CookieT.fields[j].name == "value"
  {
  }

  /** A cookie with only its two required fields decodes (the `cookies` test). */
  lemma CookieMinimal(name: string, value: string)
    ensures Accepts(CookieT, JObject([("name", JString(name)), ("value", JString(value))]))
  {
    var f: Fields := [("name", JString(name)), ("value", JString(value))];
    hide SpecFor;
    CookieDeclaresNameAndValue();
    CookieRequiredFields();
    assert f[1..] == [("value", JString(value))];
    assert Get(f, "name").Some? && Get(f, "value").Some? by {
      assert "name" != "value" by { assert |"name"| != |"value"|; }
    }
    assert forall i :: 0 <= i < |f| ==> f[i].0 == "name" || f[i].0 == "value";
  }

  /** Cookie declares `name` and `value` as its two leading, string-typed properties. */
  lemma CookieDeclaresNameAndValue()
    ensures SpecFor(CookieT.fields, "name") == Some(FieldSpec("name", FString, false, false))
    ensures SpecFor(CookieT.fields, "value") == Some(FieldSpec("value", FString, false, false))
  {
    var specs := CookieT.fields;
    assert "name" != "value" by { assert |"name"| != |"value"|; }
    assert specs[1..][0] == specs[1];
  }

  /** A cookie without its required `value` does not decode. */
  lemma CookieNeedsValue(name: string)
    ensures !Accepts(CookieT, JObject([("name", JString(name))]))
  {
    var specs := CookieT.fields;
    assert "name" != "value" by { assert |"name"| != |"value"|; }
    assert !specs[1].optional && specs[1].name == "value";
    assert Get([("name", JString(name))], specs[1].name).None?;
  }
}
