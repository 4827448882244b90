/**
  The snapshot codec of `state-bridge.ts`: a snapshot is `JSON.parse(JSON.stringify(value))`
  of the store's current value. JSON text is not modelled; `JSON.stringify` is modelled as a
  map from store values to JSON trees (or a throw, or `undefined`), and `JSON.parse` as the
  identity on the tree it produced.
 */
module Codec {
  import opened Optional

  /** A value the store may hold: the JSON-shaped part of JavaScript plus the members that
      `JSON.stringify` drops (`undefined`, functions, symbols), turns into `null` (NaN and the
      infinities) or throws on (BigInt values and cyclic references). */
  datatype Value =
    | VNull
    | VBool(b: bool)
    | VNumber(n: int)
    | VNonFinite
    | VString(s: string)
    | VArray(items: seq<Value>)
    | VObject(fields: seq<Field>)
    | VUndefined
    | VFunction
    | VSymbol
    | VBigInt(big: int)
    | VCycle

  /** An own enumerable property of an object, in enumeration order. */
  datatype Field = Field(key: string, val: Value)

  /** A plain, fully serialisable snapshot. */
  datatype Json =
    | JNull
    | JBool(b: bool)
    | JNumber(n: int)
    | JString(s: string)
    | JArray(items: seq<Json>)
    | JObject(members: seq<Member>)

  datatype Member = Member(key: string, val: Json)

  /** What `JSON.stringify` does with a value: throws, returns `undefined`, or returns text. */
  datatype Serialised = Threw | Absent | Text(json: Json)

  /** Values `JSON.stringify` skips: omitted as a property, `null` as an array element,
      `undefined` at the top level. */
  predicate Skipped(v: Value) {
    v.VUndefined? || v.VFunction? || v.VSymbol?
  }

  /** Some node of the value makes `JSON.stringify` throw. */
  predicate Poisoned(v: Value) {
    match v
    case VBigInt(_) => true
    case VCycle => true
    case VArray(items) => exists i | 0 <= i < |items| :: Poisoned(items[i])
    case VObject(fields) => exists i | 0 <= i < |fields| :: Poisoned(fields[i].val)
    case _ => false
  }

  /** Every node of the value is plain JSON data. */
  predicate Representable(v: Value) {
    match v
    case VNull => true
    case VBool(_) => true
    case VNumber(_) => true
    case VString(_) => true
    case VArray(items) => forall i | 0 <= i < |items| :: Representable(items[i])
    case VObject(fields) => forall i | 0 <= i < |fields| :: Representable(fields[i].val)
    case _ => false
  }

  function Serialise(v: Value): (r: Serialised)
    ensures r.Absent? <==> Skipped(v)
    ensures v.VBigInt? || v.VCycle? ==> r.Threw?
    ensures v.VNonFinite? ==> r == Text(JNull)
    ensures r.Threw? ==> v.VBigInt? || v.VCycle? || v.VArray? || v.VObject?
  {
    match v
    case VNull => Text(JNull)
    case VBool(b) => Text(JBool(b))
    case VNumber(n) => Text(JNumber(n))
    case VNonFinite => Text(JNull)
    case VString(s) => Text(JString(s))
    case VArray(items) =>
      (match SerialiseItems(items)
       case None => Threw
       case Some(js) => Text(JArray(js)))
    case VObject(fields) =>
      (match SerialiseFields(fields)
       case None => Threw
       case Some(ms) => Text(JObject(ms)))
    case VUndefined => Absent
    case VFunction => Absent
    case VSymbol => Absent
    case VBigInt(_) => Threw
    case VCycle => Threw
  }

  /** Array elements: a skipped element becomes `null`; `None` means the traversal threw. */
  function SerialiseItems(items: seq<Value>): Option<seq<Json>> {
    if items == [] then Some([])
    else
      var head := match Serialise(items[0])
        case Threw => None
        case Absent => Some(JNull)
        case Text(j) => Some(j);
      match (head, SerialiseItems(items[1..]))
      case (Some(j), Some(rest)) => Some([j] + rest)
      case _ => None
  }

  /** Object properties: a skipped property is omitted; `None` means the traversal threw. */
  function SerialiseFields(fields: seq<Field>): Option<seq<Member>> {
    if fields == [] then Some([])
    else
      match (Serialise(fields[0].val), SerialiseFields(fields[1..]))
      case (Threw, _) => None
      case (_, None) => None
      case (Absent, Some(rest)) => Some(rest)
      case (Text(j), Some(rest)) => Some([Member(fields[0].key, j)] + rest)
  }

  /** The plain store value a snapshot denotes (what `set` stores when given a snapshot). */
  function Embed(j: Json): Value {
    match j
    case JNull => VNull
    case JBool(b) => VBool(b)
    case JNumber(n) => VNumber(n)
    case JString(s) => VString(s)
    case JArray(items) => VArray(EmbedItems(items))
    case JObject(members) => VObject(EmbedMembers(members))
  }

  function EmbedItems(js: seq<Json>): (vs: seq<Value>)
    ensures |vs| == |js|
  {
    if js == [] then [] else [Embed(js[0])] + EmbedItems(js[1..])
  }

  function EmbedMembers(ms: seq<Member>): (fs: seq<Field>)
    ensures |fs| == |ms|
  {
    if ms == [] then [] else [Field(ms[0].key, Embed(ms[0].val))] + EmbedMembers(ms[1..])
  }

  /** `getSnapshot`: the parsed serialisation, or `undefined` (`None`) when `JSON.stringify`
      throws or yields `undefined` (on which `JSON.parse` throws); nothing escapes. */
  function Snapshot(v: Value): (r: Option<Json>)
    ensures r.None? <==> Poisoned(v) || Skipped(v)
    ensures Representable(v) ==> r.Some? && Embed(r.value) == v
    ensures r.Some? ==> Representable(Embed(r.value))
  {
    ThrowsIff(v);
    assert Representable(v) ==> Serialise(v).Text? && Embed(Serialise(v).json) == v by {
      if Representable(v) { RepresentableRoundTrip(v); }
    }
    assert Serialise(v).Text? ==> Representable(Embed(Serialise(v).json)) by {
      if Serialise(v).Text? { EmbedIsRepresentable(Serialise(v).json); }
    }
    match Serialise(v)
    case Text(j) => Some(j)
    case _ => None
  }

  // ---------------------------------------------------------------------------------------
  // Round trips

  /** Serialising the value a snapshot denotes gives back that snapshot. */
  lemma {:induction false} SerialiseEmbed(j: Json)
    ensures Serialise(Embed(j)) == Text(j)
  {
    match j
    case JArray(items) => SerialiseEmbedItems(items);
    case JObject(members) => SerialiseEmbedMembers(members);
    case _ =>
  }

  lemma {:induction false} SerialiseEmbedItems(js: seq<Json>)
    ensures SerialiseItems(EmbedItems(js)) == Some(js)
  {
    if js != [] {
      var vs := EmbedItems(js);
      assert vs[0] == Embed(js[0]) && vs[1..] == EmbedItems(js[1..]);
      SerialiseEmbed(js[0]);
      SerialiseEmbedItems(js[1..]);
      assert [js[0]] + js[1..] == js;
    }
  }

  lemma {:induction false} SerialiseEmbedMembers(ms: seq<Member>)
    ensures SerialiseFields(EmbedMembers(ms)) == Some(ms)
  {
    if ms != [] {
      var fs := EmbedMembers(ms);
      assert fs[0] == Field(ms[0].key, Embed(ms[0].val)) && fs[1..] == EmbedMembers(ms[1..]);
      SerialiseEmbed(ms[0].val);
      SerialiseEmbedMembers(ms[1..]);
      assert [Member(ms[0].key, ms[0].val)] + ms[1..] == ms;
    }
  }

  /** A snapshot round trip: for plain data, `JSON.parse(JSON.stringify(v))` is `v`. */
  lemma {:induction false} RepresentableRoundTrip(v: Value)
    requires Representable(v)
    ensures Serialise(v).Text? && Embed(Serialise(v).json) == v
  {
    match v
    case VArray(items) => RepresentableItemsRoundTrip(items);
    case VObject(fields) => RepresentableFieldsRoundTrip(fields);
    case _ =>
  }

  lemma {:induction false} RepresentableItemsRoundTrip(items: seq<Value>)
    requires forall i | 0 <= i < |items| :: Representable(items[i])
    ensures SerialiseItems(items).Some? && EmbedItems(SerialiseItems(items).value) == items
  {
    if items != [] {
      RepresentableRoundTrip(items[0]);
      RepresentableItemsRoundTrip(items[1..]);
      assert [items[0]] + items[1..] == items;
    }
  }

  lemma {:induction false} RepresentableFieldsRoundTrip(fields: seq<Field>)
    requires forall i | 0 <= i < |fields| :: Representable(fields[i].val)
    ensures SerialiseFields(fields).Some? && EmbedMembers(SerialiseFields(fields).value) == fields
  {
    if fields != [] {
      RepresentableRoundTrip(fields[0].val);
      RepresentableFieldsRoundTrip(fields[1..]);
      assert [Field(fields[0].key, fields[0].val)] + fields[1..] == fields;
    }
  }

  /** Every snapshot denotes plain data. */
  lemma {:induction false} EmbedIsRepresentable(j: Json)
    ensures Representable(Embed(j))
  {
    match j
    case JArray(items) =>
      forall i | 0 <= i < |items| ensures Representable(EmbedItems(items)[i]) {
        EmbedItemsAt(items, i);
        EmbedIsRepresentable(items[i]);
      }
    case JObject(members) =>
      forall i | 0 <= i < |members| ensures Representable(EmbedMembers(members)[i].val) {
        EmbedMembersAt(members, i);
        EmbedIsRepresentable(members[i].val);
      }
    case _ =>
  }

  lemma {:induction false} EmbedItemsAt(js: seq<Json>, i: nat)
    requires i < |js|
    ensures EmbedItems(js)[i] == Embed(js[i])
    decreases i
  {
    if i > 0 {
      EmbedItemsAt(js[1..], i - 1);
    }
  }

  lemma {:induction false} EmbedMembersAt(ms: seq<Member>, i: nat)
    requires i < |ms|
    ensures EmbedMembers(ms)[i] == Field(ms[i].key, Embed(ms[i].val))
    decreases i
  {
    if i > 0 {
      EmbedMembersAt(ms[1..], i - 1);
    }
  }

  // ---------------------------------------------------------------------------------------
  // When serialisation throws

  /** `JSON.stringify` throws exactly when a BigInt or a cycle is reachable. */
  lemma {:induction false} ThrowsIff(v: Value)
    ensures Serialise(v) == Threw <==> Poisoned(v)
  {
    match v
    case VArray(items) => ItemsThrowIff(items);
    case VObject(fields) => FieldsThrowIff(fields);
    case _ =>
  }

  lemma {:induction false} ItemsThrowIff(items: seq<Value>)
    ensures SerialiseItems(items).None? <==> exists i | 0 <= i < |items| :: Poisoned(items[i])
  {
    if items != [] {
      ThrowsIff(items[0]);
      ItemsThrowIff(items[1..]);
      if exists i | 0 <= i < |items| :: Poisoned(items[i]) {
        var i :| 0 <= i < |items| && Poisoned(items[i]);
        if i > 0 {
          assert Poisoned(items[1..][i - 1]);
        }
      }
      if exists k | 0 <= k < |items[1..]| :: Poisoned(items[1..][k]) {
        var k :| 0 <= k < |items[1..]| && Poisoned(items[1..][k]);
        assert Poisoned(items[k + 1]);
      }
    }
  }

  lemma {:induction false} FieldsThrowIff(fields: seq<Field>)
    ensures SerialiseFields(fields).None? <==> exists i | 0 <= i < |fields| :: Poisoned(fields[i].val)
  {
    if fields != [] {
      ThrowsIff(fields[0].val);
      FieldsThrowIff(fields[1..]);
      if exists i | 0 <= i < |fields| :: Poisoned(fields[i].val) {
        var i :| 0 <= i < |fields| && Poisoned(fields[i].val);
        if i > 0 {
          assert Poisoned(fields[1..][i - 1].val);
        }
      }
      if exists k | 0 <= k < |fields[1..]| :: Poisoned(fields[1..][k].val) {
        var k :| 0 <= k < |fields[1..]| && Poisoned(fields[1..][k].val);
        assert Poisoned(fields[k + 1].val);
      }
    }
  }

  // ---------------------------------------------------------------------------------------
  // How skipped members are rendered

  /** In an array that serialises, every element keeps its place: a skipped element becomes
      `null` and every other element becomes its own serialisation. */
  lemma {:induction false} ItemsPointwise(items: seq<Value>)
    requires SerialiseItems(items).Some?
    ensures |SerialiseItems(items).value| == |items|
    ensures forall i | 0 <= i < |items| ::
      if Skipped(items[i]) then SerialiseItems(items).value[i] == JNull
      else Serialise(items[i]) == Text(SerialiseItems(items).value[i])
  {
    if items != [] {
      ItemsPointwise(items[1..]);
      var js := SerialiseItems(items).value;
      forall i | 0 <= i < |items|
        ensures if Skipped(items[i]) then js[i] == JNull else Serialise(items[i]) == Text(js[i])
      {
        if i > 0 {
          assert items[i] == items[1..][i - 1];
        }
      }
    }
  }

  /** In an object that serialises, the members are exactly the properties whose values are
      not skipped, in enumeration order: each keeps its own key and carries the serialisation
      of its own value. */
  lemma {:induction false} FieldsKeepUnskipped(fields: seq<Field>)
    requires SerialiseFields(fields).Some?
    ensures |SerialiseFields(fields).value| == |UnskippedFields(fields)|
    ensures forall k | 0 <= k < |SerialiseFields(fields).value| ::
      && SerialiseFields(fields).value[k].key == UnskippedFields(fields)[k].key
      && Serialise(UnskippedFields(fields)[k].val) == Text(SerialiseFields(fields).value[k].val)
  {
    if fields != [] {
      FieldsKeepUnskipped(fields[1..]);
      var ms := SerialiseFields(fields).value;
      var kept := UnskippedFields(fields);
      if !Skipped(fields[0].val) {
        forall k | 0 <= k < |ms|
          ensures ms[k].key == kept[k].key && Serialise(kept[k].val) == Text(ms[k].val)
        {
          if k > 0 {
            assert ms[k] == SerialiseFields(fields[1..]).value[k - 1];
            assert kept[k] == UnskippedFields(fields[1..])[k - 1];
          }
        }
      }
    }
  }

  /** The properties whose values `JSON.stringify` does not skip, in order. */
  function UnskippedFields(fields: seq<Field>): (kept: seq<Field>)
    ensures |kept| <= |fields|
    ensures forall k | 0 <= k < |kept| :: !Skipped(kept[k].val)
  {
    if fields == [] then []
    else if Skipped(fields[0].val) then UnskippedFields(fields[1..])
    else [fields[0]] + UnskippedFields(fields[1..])
  }
}
