/** OTLP attribute values and the flat view over the two record shapes. */
module Otlp {
  import opened Wrappers
  import opened Json
  import opened Events
  import OrderedKeys

  // ---- AnyValue ------------------------------------------------------------

  /** The `values` array under a wrapper key. */
  function Wrapped(v: Value, key: string): Option<seq<Value>> {
    AsArray(GetIn(Get(v, key), "values"))
  }

  lemma WrappedSmaller(v: Value, key: string, i: nat)
    requires Wrapped(v, key).Some? && i < |Wrapped(v, key).value|
    ensures Wrapped(v, key).value[i] < v
  {
    var outer := v.fields[key];
    var inner := outer.fields["values"];
    assert inner.items[i] < inner;
    assert inner < outer;
    assert outer < v;
  }

  /** `otlp_value`: collapse an AnyValue object to a plain value. */
  function OtlpValue(v: Value): Value
    decreases v, 1, 0
  {
    if Get(v, "stringValue").Some? then Get(v, "stringValue").value
    else if Get(v, "intValue").Some? then Get(v, "intValue").value
    else if Get(v, "boolValue").Some? then Get(v, "boolValue").value
    else if Get(v, "doubleValue").Some? then Get(v, "doubleValue").value
    else if Wrapped(v, "arrayValue").Some? then
      var items := Wrapped(v, "arrayValue").value;
      Arr(seq(|items|, i requires 0 <= i < |items| => WrappedSmaller(v, "arrayValue", i); OtlpValue(items[i])))
    else if Wrapped(v, "kvlistValue").Some? then
      var items := Wrapped(v, "kvlistValue").value;
      assert forall i | 0 <= i < |items| :: items[i] < v by {
        forall i | 0 <= i < |items| ensures items[i] < v { WrappedSmaller(v, "kvlistValue", i); }
      }
      Obj(Collected(items, v))
    else v
  }

  /** Insert every `{key, value}` entry in order; the last one of a key stays. */
  function Collected(entries: seq<Value>, ghost whole: Value): map<string, Value>
    requires forall i | 0 <= i < |entries| :: entries[i] < whole
    decreases whole, 0, |entries|
  {
    if entries == [] then map[]
    else
      var e := entries[|entries| - 1];
      var before := Collected(entries[..|entries| - 1], whole);
      if StrField(e, "key").Some? && Get(e, "value").Some?
      then before[StrField(e, "key").value := (assert Get(e, "value").value < e; OtlpValue(Get(e, "value").value))]
      else before
  }

  function Field(key: string, v: Value): Value {
    Obj(map[key := v])
  }

  function Entry(key: string, v: Value): Value {
    Obj(map["key" := Str(key), "value" := v])
  }

  /** Integers may be encoded as numbers or, as the JSON mapping of 64-bit integers has it, as text. */
  function IntAs(asText: bool, n: int): Value {
    if asText then Str(SignedText(n)) else Number(n)
  }

  /**
   `w` is an AnyValue for `v`: each value under the wrapper of its kind, the
   entries of an object in any order. A null has no AnyValue.
   */
  ghost predicate Encodes(asText: bool, v: Value, w: Value)
    decreases v, 1
  {
    match v
    case Null => false
    case Bool(_) => w == Field("boolValue", v)
    case Number(n) => w == Field("intValue", IntAs(asText, n))
    case Fraction(_) => w == Field("doubleValue", v)
    case Str(_) => w == Field("stringValue", v)
    case Arr(_) => exists ws: seq<Value> :: ArrayCoded(asText, v, w, ws)
    case Obj(_) => exists keys: seq<string>, ws: seq<Value> :: ObjectCoded(asText, v, w, keys, ws)
  }

  ghost predicate ArrayCoded(asText: bool, v: Value, w: Value, ws: seq<Value>)
    requires v.Arr?
    decreases v, 0
  {
    && w == Field("arrayValue", Field("values", Arr(ws)))
    && |ws| == |v.items| && forall i | 0 <= i < |v.items| :: Encodes(asText, v.items[i], ws[i])
  }

  ghost predicate ObjectCoded(asText: bool, v: Value, w: Value, keys: seq<string>, ws: seq<Value>)
    requires v.Obj?
    decreases v, 0
  {
    && w == Field("kvlistValue", Field("values", Arr(Entries(keys, ws))))
    && |keys| == |ws| && (forall k :: k in keys <==> k in v.fields)
    && forall i | 0 <= i < |keys| && keys[i] in v.fields :: Encodes(asText, v.fields[keys[i]], ws[i])
  }

  function Entries(keys: seq<string>, ws: seq<Value>): seq<Value> {
    if |keys| != |ws| then []
    else seq(|keys|, i requires 0 <= i < |keys| => Entry(keys[i], ws[i]))
  }

  /** The value with its integers as the encoding shows them. */
  function Shown(asText: bool, v: Value): Value
    decreases v
  {
    match v
    case Number(n) => IntAs(asText, n)
    case Arr(items) => Arr(seq(|items|, i requires 0 <= i < |items| => Shown(asText, items[i])))
    case Obj(fields) => Obj(map k | k in fields :: Shown(asText, fields[k]))
    case _ => v
  }

  lemma {:induction false} ShownNumbersIsSame(v: Value)
    ensures Shown(false, v) == v
    decreases v
  {
    match v
    case Arr(items) =>
      forall i | 0 <= i < |items| ensures Shown(false, items[i]) == items[i] {
        ShownNumbersIsSame(items[i]);
      }
    case Obj(fields) =>
      forall k | k in fields ensures Shown(false, fields[k]) == fields[k] {
        ShownNumbersIsSame(fields[k]);
      }
    case _ =>
  }

  lemma CollectedSnoc(es: seq<Value>, key: string, w: Value, whole: Value)
    requires (forall i | 0 <= i < |es| :: es[i] < whole) && Entry(key, w) < whole
    ensures Collected(es + [Entry(key, w)], whole) == Collected(es, whole)[key := OtlpValue(w)]
  {
    var all := es + [Entry(key, w)];
    assert all[..|all| - 1] == es;
    var e := all[|all| - 1];
    assert StrField(e, "key") == Some(key) && Get(e, "value") == Some(w);
  }

  /** `m` is `fields` cut down to `keys`. */
  ghost predicate Agrees(m: map<string, Value>, fields: map<string, Value>, keys: seq<string>) {
    forall k :: (k in m <==> k in keys) && (k in m ==> k in fields && m[k] == fields[k])
  }

  lemma AgreesSnoc(m: map<string, Value>, fields: map<string, Value>, keys: seq<string>, key: string)
    requires Agrees(m, fields, keys) && key in fields
    ensures Agrees(m[key := fields[key]], fields, keys + [key])
  {
  }

  lemma EntriesSnoc(keys: seq<string>, ws: seq<Value>)
    requires |keys| == |ws| && keys != []
    ensures var n := |keys| - 1;
      Entries(keys, ws) == Entries(keys[..n], ws[..n]) + [Entry(keys[n], ws[n])]
  {
  }

  /** Collecting encoded entries gives back the fields, in whatever order they came. */
  lemma {:induction false} CollectedEntries(keys: seq<string>, ws: seq<Value>, whole: Value, fields: map<string, Value>)
    requires |keys| == |ws|
    requires forall i | 0 <= i < |Entries(keys, ws)| :: Entries(keys, ws)[i] < whole
    requires forall i | 0 <= i < |keys| :: keys[i] in fields && OtlpValue(ws[i]) == fields[keys[i]]
    ensures Agrees(Collected(Entries(keys, ws), whole), fields, keys)
  {
    if keys != [] {
      var n := |keys| - 1;
      var init := Entries(keys[..n], ws[..n]);
      EntriesSnoc(keys, ws);
      forall i | 0 <= i < |init| ensures init[i] < whole {
        assert init[i] == Entries(keys, ws)[i];
      }
      CollectedEntries(keys[..n], ws[..n], whole, fields);
      assert Entries(keys, ws)[n] < whole;
      CollectedSnoc(init, keys[n], ws[n], whole);
      AgreesSnoc(Collected(init, whole), fields, keys[..n], keys[n]);
      assert keys == keys[..n] + [keys[n]];
    }
  }

  lemma WrappedField(key: string, items: seq<Value>)
    ensures Wrapped(Field(key, Field("values", Arr(items))), key) == Some(items)
  {
  }

  lemma EntriesInside(keys: seq<string>, ws: seq<Value>, w: Value)
    requires w == Field("kvlistValue", Field("values", Arr(Entries(keys, ws))))
    ensures forall i | 0 <= i < |Entries(keys, ws)| :: Entries(keys, ws)[i] < w
  {
    WrappedField("kvlistValue", Entries(keys, ws));
    forall i | 0 <= i < |Entries(keys, ws)| ensures Entries(keys, ws)[i] < w {
      WrappedSmaller(w, "kvlistValue", i);
    }
  }

  lemma DecodeArray(w: Value, ws: seq<Value>)
    requires w == Field("arrayValue", Field("values", Arr(ws)))
    ensures OtlpValue(w) == Arr(seq(|ws|, i requires 0 <= i < |ws| => OtlpValue(ws[i])))
  {
    WrappedField("arrayValue", ws);
  }

  lemma DecodeObject(w: Value, keys: seq<string>, ws: seq<Value>)
    requires w == Field("kvlistValue", Field("values", Arr(Entries(keys, ws))))
    ensures forall i | 0 <= i < |Entries(keys, ws)| :: Entries(keys, ws)[i] < w
    ensures OtlpValue(w) == Obj(Collected(Entries(keys, ws), w))
  {
    WrappedField("kvlistValue", Entries(keys, ws));
    EntriesInside(keys, ws, w);
  }

  lemma {:induction false} DecodeArrayCoded(asText: bool, v: Value, w: Value, ws: seq<Value>)
    requires v.Arr? && ArrayCoded(asText, v, w, ws)
    ensures OtlpValue(w) == Shown(asText, v)
    decreases v, 0
  {
    DecodeArray(w, ws);
    forall i | 0 <= i < |v.items| ensures OtlpValue(ws[i]) == Shown(asText, v.items[i]) {
      DecodeUndoesEncode(asText, v.items[i], ws[i]);
    }
  }

  lemma {:induction false} DecodeObjectCoded(asText: bool, v: Value, w: Value, keys: seq<string>, ws: seq<Value>)
    requires v.Obj? && ObjectCoded(asText, v, w, keys, ws)
    ensures OtlpValue(w) == Shown(asText, v)
    decreases v, 0
  {
    DecodeObject(w, keys, ws);
    var shown := Shown(asText, v).fields;
    forall i | 0 <= i < |keys| ensures keys[i] in shown && OtlpValue(ws[i]) == shown[keys[i]] {
      assert keys[i] in keys;
      DecodeUndoesEncode(asText, v.fields[keys[i]], ws[i]);
    }
    CollectedEntries(keys, ws, w, shown);
    SameMap(Collected(Entries(keys, ws), w), shown, keys);
  }

  lemma SameMap(m: map<string, Value>, fields: map<string, Value>, keys: seq<string>)
    requires Agrees(m, fields, keys) && forall k :: k in keys <==> k in fields
    ensures m == fields
  {
  }

  /** Decoding is a left inverse of every encoding. */
  lemma {:induction false} DecodeUndoesEncode(asText: bool, v: Value, w: Value)
    requires Encodes(asText, v, w)
    ensures OtlpValue(w) == Shown(asText, v)
    decreases v, 1
  {
    match v
    case Arr(_) =>
      var ws: seq<Value> :| ArrayCoded(asText, v, w, ws);
      DecodeArrayCoded(asText, v, w, ws);
    case Obj(_) =>
      var keys: seq<string>, ws: seq<Value> :| ObjectCoded(asText, v, w, keys, ws);
      DecodeObjectCoded(asText, v, w, keys, ws);
    case _ =>
  }

  // ---- Which values can be encoded ------------------------------------------------

  predicate NullFree(v: Value)
    decreases v
  {
    match v
    case Null => false
    case Arr(items) => forall i | 0 <= i < |items| :: NullFree(items[i])
    case Obj(fields) => forall k | k in fields :: NullFree(fields[k])
    case _ => true
  }

  /** An encoding, with object entries in key order. */
  function Encode(asText: bool, v: Value): Value
    decreases v
  {
    match v
    case Null => Obj(map[])
    case Bool(_) => Field("boolValue", v)
    case Number(n) => Field("intValue", IntAs(asText, n))
    case Fraction(_) => Field("doubleValue", v)
    case Str(_) => Field("stringValue", v)
    case Arr(items) =>
      Field("arrayValue", Field("values", Arr(seq(|items|, i requires 0 <= i < |items| => Encode(asText, items[i])))))
    case Obj(fields) =>
      var keys := OrderedKeys.Ascending(fields.Keys);
      Field("kvlistValue", Field("values", Arr(Entries(keys,
        seq(|keys|, i requires 0 <= i < |keys| => assert keys[i] in keys; Encode(asText, fields[keys[i]]))))))
  }

  /** `Encode` finds an encoding of every value without a null. */
  lemma {:induction false} NullFreeEncodes(asText: bool, v: Value)
    requires NullFree(v)
    ensures Encodes(asText, v, Encode(asText, v))
    decreases v
  {
    match v
    case Arr(items) =>
      forall i | 0 <= i < |items| ensures Encodes(asText, items[i], Encode(asText, items[i])) {
        NullFreeEncodes(asText, items[i]);
      }
      var ws := seq(|items|, i requires 0 <= i < |items| => Encode(asText, items[i]));
      assert ArrayCoded(asText, v, Encode(asText, v), ws);
    case Obj(fields) =>
      forall k | k in fields ensures Encodes(asText, fields[k], Encode(asText, fields[k])) {
        NullFreeEncodes(asText, fields[k]);
      }
      var keys := OrderedKeys.Ascending(fields.Keys);
      var ws := seq(|keys|, i requires 0 <= i < |keys| => assert keys[i] in keys; Encode(asText, fields[keys[i]]));
      assert ObjectCoded(asText, v, Encode(asText, v), keys, ws);
    case _ =>
  }

  /** Whatever has an encoding contains no null. */
  lemma {:induction false} EncodedIsNullFree(asText: bool, v: Value, w: Value)
    requires Encodes(asText, v, w)
    ensures NullFree(v)
    decreases v
  {
    match v
    case Arr(items) =>
      var ws: seq<Value> :| ArrayCoded(asText, v, w, ws);
      forall i | 0 <= i < |items| ensures NullFree(items[i]) {
        EncodedIsNullFree(asText, items[i], ws[i]);
      }
    case Obj(fields) =>
      var keys: seq<string>, ws: seq<Value> :| ObjectCoded(asText, v, w, keys, ws);
      forall k | k in fields ensures NullFree(fields[k]) {
        assert k in keys;
        var i :| 0 <= i < |keys| && keys[i] == k;
        EncodedIsNullFree(asText, fields[k], ws[i]);
      }
    case _ =>
  }

  ghost predicate Encodable(asText: bool, v: Value) {
    exists w :: Encodes(asText, v, w)
  }

  /**
   Exactly the values without a null can be encoded. What stands for a null, the empty
   AnyValue, is not read back as one: it passes through as an empty object.
   */
  lemma {:induction false} EncodableIffNullFree(asText: bool, v: Value)
    ensures NullFree(v) <==> Encodable(asText, v)
    ensures OtlpValue(Encode(asText, Null)) == Obj(map[])
  {
    if NullFree(v) {
      var w := Encode(asText, v);
      NullFreeEncodes(asText, v);
      assert Encodes(asText, v, w);
    } else if w :| Encodes(asText, v, w) {
      EncodedIsNullFree(asText, v, w);
    }
  }
}
