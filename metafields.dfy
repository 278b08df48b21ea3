/**
 * The coercion of the request's raw metafields into the typed
 * `MetafieldsSetInput` values that the write call sends upstream
 * (server.js lines 55-69): an order-preserving map whose type tag is chosen
 * only by membership of the key in two fixed key sets.
 */
module Metafields {
  import opened Wrappers
  import opened JsValues

  /** The namespace used when a field gives none (or an empty one). */
  const DefaultNamespace: string := "profile"

  /** Keys whose values are calendar dates. */
  const DateKeys: set<string> := {"pet_date_of_birth"}

  /** Keys whose values are decimal numbers. */
  const DecimalKeys: set<string> := {"pet_weight_kg", "pet_age_years"}

  /** What `String(e)` gives for the RangeError `toISOString` throws on an invalid date. */
  const InvalidDateError: string := "RangeError: Invalid time value"

  /** What `String(e)` gives for the TypeError thrown when an element of the list is null. */
  const NullElementError: string := "TypeError: Cannot read properties of null (reading 'namespace')"

  /** The three metafield types the platform is sent. */
  datatype MetafieldType = Date | NumberDecimal | SingleLineTextField

  /** The type's name as the platform spells it. */
  function TypeName(t: MetafieldType): (name: string)
    ensures t == Date <==> name == "date"
    ensures t == NumberDecimal <==> name == "number_decimal"
    ensures t == SingleLineTextField <==> name == "single_line_text_field"
  {
    match t
    case Date => "date"
    case NumberDecimal => "number_decimal"
    case SingleLineTextField => "single_line_text_field"
  }

  /**
   * One object of the incoming list. Absent or null `namespace`/`key` are
   * None; an element that is a string, number or array reads every property
   * as undefined and so is a RawField with nothing present.
   */
  datatype RawField = RawField(namespace: Option<string>, key: Option<string>, value: JsValue)

  /** An element of the incoming list: JSON null, or anything else. */
  datatype Entry = NullEntry | Element(field: RawField)

  /** A coerced field, as sent to the platform. */
  datatype TypedField = TypedField(namespace: string, key: Option<string>, kind: MetafieldType, value: string)

  /**
   * The JavaScript built-ins the coercion calls, left uninterpreted:
   * `dateToIso(s)` is `new Date(s).toISOString()`, None when that throws
   * because the date is invalid; `numberToString(s)` is `String(Number(s))`,
   * None when `Number(s)` is not finite.
   */
  datatype Builtins = Builtins(dateToIso: string -> Option<string>, numberToString: string -> Option<string>)

  predicate IsDateKey(key: Option<string>) {
    key.Some? && key.value in DateKeys
  }

  predicate IsDecimalKey(key: Option<string>) {
    key.Some? && key.value in DecimalKeys
  }

  /** `m.namespace || 'profile'`. */
  function NamespaceOf(ns: Option<string>): (r: string)
    ensures Truthy(ns) ==> r == ns.value
    ensures !Truthy(ns) ==> r == DefaultNamespace
    ensures r != ""
  {
    if Truthy(ns) then ns.value else DefaultNamespace
  }

  /**
   * The text handed to the number parser: `String(m.value).replace(',', '.')`,
   * the value's text of the same length with its first comma made a period.
   */
  function DecimalInput(v: JsValue): (s: string)
    ensures |s| == |ToJsString(v)|
    ensures var i := FirstIndexOf(ToJsString(v), ',');
      (i < |s| ==> s[i] == '.') &&
      forall k :: 0 <= k < |s| && k != i ==> s[k] == ToJsString(v)[k]
  {
    ReplaceFirst(ToJsString(v), ',', '.')
  }

  /**
   * Only the first comma of the value's text becomes a period; a text
   * without a comma reaches the number parser unchanged.
   */
  lemma DecimalInputReplacesFirstComma(v: JsValue)
    ensures ',' in ToJsString(v) ==>
      var t, i := ToJsString(v), FirstIndexOf(ToJsString(v), ',');
      DecimalInput(v) == t[..i] + "." + t[i + 1..]
    ensures ',' !in ToJsString(v) ==> DecimalInput(v) == ToJsString(v)
  {
    var t := ToJsString(v);
    if ',' in t {
      ReplaceFirstSplits(t, ',', '.');
    } else {
      ReplaceFirstAbsent(t, ',', '.');
    }
  }

  /** The callback given to `metafields.map`, on one element. */
  function CoerceOne(b: Builtins, e: Entry): (r: Result<TypedField, string>)
    ensures r.Failure? <==>
      e.NullEntry? || (IsDateKey(e.field.key) && b.dateToIso(ToJsString(e.field.value)).None?)
    ensures r.Failure? ==> r.error == (if e.NullEntry? then NullElementError else InvalidDateError)
    ensures r.Success? ==> r.value.key == e.field.key
    ensures r.Success? ==> r.value.namespace == NamespaceOf(e.field.namespace)
    ensures r.Success? ==> (r.value.kind == Date <==> e.field.key == Some("pet_date_of_birth"))
    ensures r.Success? ==> (r.value.kind == NumberDecimal <==>
      e.field.key == Some("pet_weight_kg") || e.field.key == Some("pet_age_years"))
    ensures r.Success? ==> (r.value.kind == SingleLineTextField <==> !IsDateKey(e.field.key) && !IsDecimalKey(e.field.key))
    ensures r.Success? && r.value.kind == Date ==>
      r.value.value == SliceFromStart(b.dateToIso(ToJsString(e.field.value)).value, 10)
    ensures r.Success? && r.value.kind == NumberDecimal ==>
      match b.numberToString(DecimalInput(e.field.value))
      case None => r.value.value == "0"
      case Some(num) => r.value.value == num
    ensures r.Success? && r.value.kind == SingleLineTextField ==>
      r.value.value == ToJsStringOrEmpty(e.field.value)
  {
    match e
    case NullEntry => Failure(NullElementError)
    case Element(m) =>
      var ns := NamespaceOf(m.namespace);
      if IsDateKey(m.key) then
        match b.dateToIso(ToJsString(m.value))
        case None => Failure(InvalidDateError)
        case Some(iso) => Success(TypedField(ns, m.key, Date, SliceFromStart(iso, 10)))
      else if IsDecimalKey(m.key) then
        var num := b.numberToString(DecimalInput(m.value));
        Success(TypedField(ns, m.key, NumberDecimal, if num.Some? then num.value else "0"))
      else
        Success(TypedField(ns, m.key, SingleLineTextField, ToJsStringOrEmpty(m.value)))
  }

  /**
   * `metafields.map(...)`: every element is coerced in order; the first
   * element whose callback throws ends the map with that error.
   */
  function CoerceAll(b: Builtins, es: seq<Entry>): (r: Result<seq<TypedField>, string>)
    ensures r.Success? <==> forall i :: 0 <= i < |es| ==> CoerceOne(b, es[i]).Success?
    ensures r.Success? ==> |r.value| == |es|
    ensures r.Success? ==> forall i :: 0 <= i < |es| ==> CoerceOne(b, es[i]) == Success(r.value[i])
    ensures r.Failure? ==> exists i :: (0 <= i < |es| && CoerceOne(b, es[i]) == Failure(r.error) &&
      forall j :: 0 <= j < i ==> CoerceOne(b, es[j]).Success?)
  {
    if es == [] then Success([])
    else
      match CoerceOne(b, es[0])
      case Failure(err) => Failure(err)
      case Success(f) =>
        match CoerceAll(b, es[1..])
        case Failure(err) =>
          assert forall j :: 0 <= j < |es| - 1 ==> es[1..][j] == es[j + 1];
          Failure(err)
        case Success(rest) => Success([f] + rest)
  }

  /** Output i carries the key of input i, and the type its key selects. */
  lemma CoerceAllKeepsKeys(b: Builtins, es: seq<Entry>, i: nat)
    requires CoerceAll(b, es).Success?
    requires i < |es|
    ensures es[i].Element?
    ensures CoerceAll(b, es).value[i].key == es[i].field.key
    ensures CoerceAll(b, es).value[i].namespace == NamespaceOf(es[i].field.namespace)
    ensures CoerceAll(b, es).value[i].kind == KindOfKey(es[i].field.key)
    ensures TypeName(CoerceAll(b, es).value[i].kind) == "date" <==>
      es[i].field.key == Some("pet_date_of_birth")
    ensures TypeName(CoerceAll(b, es).value[i].kind) == "number_decimal" <==>
      es[i].field.key == Some("pet_weight_kg") || es[i].field.key == Some("pet_age_years")
    ensures TypeName(CoerceAll(b, es).value[i].kind) == "single_line_text_field" <==>
      !IsDateKey(es[i].field.key) && !IsDecimalKey(es[i].field.key)
  {
    assert CoerceOne(b, es[i]).Success?;
  }

  /**
   * The type tag as a function of the key alone: two successfully coerced
   * fields with the same key have the same type, whatever their values.
   */
  function KindOfKey(key: Option<string>): (t: MetafieldType)
    ensures t == Date <==> key == Some("pet_date_of_birth")
    ensures t == NumberDecimal <==> key == Some("pet_weight_kg") || key == Some("pet_age_years")
  {
    if IsDateKey(key) then Date
    else if IsDecimalKey(key) then NumberDecimal
    else SingleLineTextField
  }

  lemma TypeDependsOnlyOnKey(b: Builtins, e: Entry)
    requires CoerceOne(b, e).Success?
    ensures CoerceOne(b, e).value.kind == KindOfKey(e.field.key)
  {
  }

  /**
   * A text field whose value is null or absent is sent as "", while a
   * decimal field with the same value goes through the number parser as the
   * word "null" or "undefined".
   */
  lemma NullishValues(b: Builtins, ns: Option<string>, key: Option<string>, v: JsValue)
    requires v.Null? || v.Undefined?
    ensures !IsDateKey(key) && !IsDecimalKey(key) ==>
      CoerceOne(b, Element(RawField(ns, key, v))).value.value == ""
    ensures IsDecimalKey(key) ==>
      DecimalInput(v) == (if v.Null? then "null" else "undefined")
  {
    if v.Null? {
      ReplaceFirstAbsent("null", ',', '.');
    } else {
      ReplaceFirstAbsent("undefined", ',', '.');
    }
  }

  /** An unparseable date fails the whole map, not just its own field. */
  lemma InvalidDateFailsAll(b: Builtins, es: seq<Entry>, i: nat)
    requires i < |es| && es[i].Element? && IsDateKey(es[i].field.key)
    requires b.dateToIso(ToJsString(es[i].field.value)).None?
    ensures CoerceAll(b, es).Failure?
    ensures (forall j :: 0 <= j < i ==> es[j].Element? && !IsDateKey(es[j].field.key)) ==>
      CoerceAll(b, es).error == InvalidDateError
  {
    assert CoerceOne(b, es[i]).Failure?;
    var r := CoerceAll(b, es);
    if forall j :: 0 <= j < i ==> es[j].Element? && !IsDateKey(es[j].field.key) {
      var k :| 0 <= k < |es| && CoerceOne(b, es[k]) == Failure(r.error) &&
        (forall j :: 0 <= j < k ==> CoerceOne(b, es[j]).Success?);
      assert k >= i;
    }
  }

  // Worked examples of the coercion; each states what it assumes of the built-ins.

  /** A one-element list coerces to the one coerced field. */
  lemma CoerceSingle(b: Builtins, e: Entry)
    requires CoerceOne(b, e).Success?
    ensures CoerceAll(b, [e]) == Success([CoerceOne(b, e).value])
  {
    assert [e][1..] == [];
    assert CoerceAll(b, []) == Success([]);
    assert [CoerceOne(b, e).value] + [] == [CoerceOne(b, e).value];
  }

  /** A comma decimal separator is read as a period: "12,5" is sent as "12.5". */
  lemma CommaDecimalExample(b: Builtins)
    requires b.numberToString("12.5") == Some("12.5")
    ensures CoerceAll(b, [Element(RawField(None, Some("pet_weight_kg"), Defined("12,5")))])
      == Success([TypedField("profile", Some("pet_weight_kg"), NumberDecimal, "12.5")])
  {
    var e := Element(RawField(None, Some("pet_weight_kg"), Defined("12,5")));
    assert FirstIndexOf("12,5", ',') == 2 by {
      assert "12,5"[2] == ',' && "12,5"[0] != ',' && "12,5"[1] != ',';
    }
    ReplaceFirstSplits("12,5", ',', '.');
    assert "12,5"[..2] + "." + "12,5"[3..] == "12.5";
    assert DecimalInput(Defined("12,5")) == "12.5";
    assert !IsDateKey(Some("pet_weight_kg")) && IsDecimalKey(Some("pet_weight_kg"));
    CoerceSingle(b, e);
  }

  /** A decimal key whose text does not parse to a finite number is sent as "0". */
  lemma NonFiniteDecimalIsZero(b: Builtins, ns: Option<string>, key: Option<string>, v: JsValue)
    requires IsDecimalKey(key)
    requires b.numberToString(DecimalInput(v)).None?
    ensures CoerceOne(b, Element(RawField(ns, key, v))) == Success(TypedField(NamespaceOf(ns), key, NumberDecimal, "0"))
  {
  }

  /** A date keeps the UTC calendar date of its ISO form. */
  lemma DateExample(b: Builtins)
    requires b.dateToIso("2020-03-15T10:00:00Z") == Some("2020-03-15T10:00:00.000Z")
    ensures CoerceAll(b, [Element(RawField(None, Some("pet_date_of_birth"), Defined("2020-03-15T10:00:00Z")))])
      == Success([TypedField("profile", Some("pet_date_of_birth"), Date, "2020-03-15")])
  {
    var e := Element(RawField(None, Some("pet_date_of_birth"), Defined("2020-03-15T10:00:00Z")));
    assert SliceFromStart("2020-03-15T10:00:00.000Z", 10) == "2020-03-15";
    assert IsDateKey(Some("pet_date_of_birth"));
    CoerceSingle(b, e);
  }

  /** Any other key is plain text in the default namespace. */
  lemma TextExample(b: Builtins)
    ensures CoerceAll(b, [Element(RawField(None, Some("favorite_toy"), Defined("ball")))])
      == Success([TypedField("profile", Some("favorite_toy"), SingleLineTextField, "ball")])
  {
    var e := Element(RawField(None, Some("favorite_toy"), Defined("ball")));
    assert !IsDateKey(Some("favorite_toy")) && !IsDecimalKey(Some("favorite_toy"));
    CoerceSingle(b, e);
  }
}
