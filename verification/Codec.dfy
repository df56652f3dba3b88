/** The schema-directed codec between DAP values and JSON trees: dap/serialization.h,
    dap/typeof.h, dap/nlohmann_json_serializer.cpp and dap/null_json_serializer.h. */
module Codec {
  import opened Basics
  import opened Text

  /** A JSON tree. Integers and floating-point numbers are distinct, as nlohmann keeps them. */
  datatype Json =
    | JNull
    | JBool(b: bool)
    | JInt(n: int)
    | JNum(x: real)
    | JStr(s: string)
    | JArr(items: seq<Json>)
    | JObj(members: map<string, Json>)

  /** dap::any with JSON-shaped contents. */
  datatype Any =
    | ANull
    | ABool(b: bool)
    | AInt(n: int)
    | ANum(x: real)
    | AStr(s: string)
    | AArr(items: seq<Any>)
    | AObj(members: map<string, Any>)

  /** A schema: what a TypeInfo describes. A variant is serialized as the any it holds. */
  datatype Type =
    | TBool | TInt | TNum | TStr | TObject | TAny
    | TArray(elem: Type)
    | TStruct(fields: seq<Field>)

  datatype Field = Field(name: string, ty: Type, optional: bool)

  datatype Value =
    | VBool(b: bool)
    | VInt(n: int)
    | VNum(x: real)
    | VStr(s: string)
    | VObject(entries: map<string, Any>)
    | VAny(any: Any)
    | VArray(elems: seq<Value>)
    | VStruct(slots: seq<Slot>)

  datatype Slot = Absent | Present(value: Value)

  /** What a deserializer reads from: a node of the tree, or NullDeserializer for a field
      the object does not have. */
  datatype Source = Missing | Node(json: Json)

  // ---------- 64-bit integers ----------

  predicate FitsInt64(n: int) {
    -TWO_63 <= n < TWO_63
  }

  /** get<int64_t> of a JSON integer, which may be stored as an unsigned 64-bit number. */
  function ToInt64(n: int): int {
    (n + TWO_63) % TWO_64 - TWO_63
  }

  // ---------- any ----------

  function AnyToJson(a: Any): Json {
    match a
    case ANull => JNull
    case ABool(b) => JBool(b)
    case AInt(n) => JInt(n)
    case ANum(x) => JNum(x)
    case AStr(s) => JStr(s)
    case AArr(items) => JArr(seq(|items|, i requires 0 <= i < |items| => AnyToJson(items[i])))
    case AObj(members) => JObj(map k | k in members :: AnyToJson(members[k]))
  }

  function JsonToAny(j: Json): Any {
    match j
    case JNull => ANull
    case JBool(b) => ABool(b)
    case JInt(n) => AInt(ToInt64(n))
    case JNum(x) => ANum(x)
    case JStr(s) => AStr(s)
    case JArr(items) => AArr(seq(|items|, i requires 0 <= i < |items| => JsonToAny(items[i])))
    case JObj(members) => AObj(map k | k in members :: JsonToAny(members[k]))
  }

  predicate AnyInRange(a: Any) {
    match a
    case AInt(n) => FitsInt64(n)
    case AArr(items) => forall i :: 0 <= i < |items| ==> AnyInRange(items[i])
    case AObj(members) => forall k :: k in members ==> AnyInRange(members[k])
    case _ => true
  }

  lemma {:induction false} AnyRoundTrip(a: Any)
    requires AnyInRange(a)
    ensures JsonToAny(AnyToJson(a)) == a
  {
    match a {
      case AArr(items) =>
        forall i | 0 <= i < |items| ensures JsonToAny(AnyToJson(items[i])) == items[i] {
          AnyRoundTrip(items[i]);
        }
        assert JsonToAny(AnyToJson(a)).items == items;
      case AObj(members) =>
        forall k | k in members ensures JsonToAny(AnyToJson(members[k])) == members[k] {
          AnyRoundTrip(members[k]);
        }
        assert JsonToAny(AnyToJson(a)).members == members;
      case _ =>
    }
  }

  // ---------- serialization ----------

  predicate SlotHasType(f: Field, slot: Slot)
    decreases f
  {
    if slot.Absent? then f.optional else HasType(f.ty, slot.value)
  }

  /** The values a C++ variable of the described type can hold. */
  predicate HasType(t: Type, v: Value)
    decreases t
  {
    match t
    case TBool => v.VBool?
    case TInt => v.VInt? && FitsInt64(v.n)
    case TNum => v.VNum?
    case TStr => v.VStr?
    case TObject => v.VObject? && forall k :: k in v.entries ==> AnyInRange(v.entries[k])
    case TAny => v.VAny? && AnyInRange(v.any)
    case TArray(elem) => v.VArray? && forall i :: 0 <= i < |v.elems| ==> HasType(elem, v.elems[i])
    case TStruct(fields) =>
      v.VStruct? && |v.slots| == |fields| &&
      forall i :: 0 <= i < |fields| ==> SlotHasType(fields[i], v.slots[i])
  }

  function ObjectToJson(o: map<string, Any>): map<string, Json> {
    map k | k in o :: AnyToJson(o[k])
  }

  function Ser(t: Type, v: Value): Json
    requires HasType(t, v)
    decreases t, 1, 0
  {
    match t
    case TBool => JBool(v.b)
    case TInt => JInt(v.n)
    case TNum => JNum(v.x)
    case TStr => JStr(v.s)
    case TObject => JObj(ObjectToJson(v.entries))
    case TAny => AnyToJson(v.any)
    case TArray(elem) => JArr(seq(|v.elems|, i requires 0 <= i < |v.elems| => Ser(elem, v.elems[i])))
    case TStruct(fields) => JObj(SerFields(t, v.slots, |fields|))
  }

  /** The members after the first `n` fields have been written; an unset optional takes
      its name out of the object. */
  function SerFields(t: Type, slots: seq<Slot>, n: nat): map<string, Json>
    requires t.TStruct? && HasType(t, VStruct(slots)) && n <= |t.fields|
    decreases t, 0, n
  {
    if n == 0 then
      map[]
    else
      var f, slot, before := t.fields[n - 1], slots[n - 1], SerFields(t, slots, n - 1);
      assert SlotHasType(f, slot);
      if slot.Absent? then before - {f.name} else before[f.name := Ser(f.ty, slot.value)]
  }

  // ---------- deserialization ----------

  function IndexedMembers(items: seq<Json>, n: nat): map<string, Any>
    requires n <= |items|
  {
    if n == 0 then map[] else IndexedMembers(items, n - 1)[Decimal(n - 1) := JsonToAny(items[n - 1])]
  }

  /** What iterating the items of a node yields: an array has its indices as keys, a
      scalar is its own single item under the empty key. */
  function ObjectOf(j: Json): map<string, Any> {
    match j
    case JObj(members) => map k | k in members :: JsonToAny(members[k])
    case JArr(items) => IndexedMembers(items, |items|)
    case JNull => map[]
    case _ => map["" := JsonToAny(j)]
  }

  /** What the callback of field() is given, or None when field() itself fails. */
  function FieldSource(src: Source, name: string): Option<Source> {
    match src
    case Missing => None
    case Node(JObj(members)) => Some(if name in members then Node(members[name]) else Missing)
    case Node(JArr(_)) => Some(Missing)
    case Node(_) => None
  }

  function DeserScalar(t: Type, j: Json): Option<Value> {
    match (t, j)
    case (TBool, JBool(b)) => Some(VBool(b))
    case (TInt, JInt(n)) => Some(VInt(ToInt64(n)))
    case (TNum, JNum(x)) => Some(VNum(x))
    case (TNum, JInt(n)) => Some(VNum(n as real))
    case (TStr, JStr(s)) => Some(VStr(s))
    case (TObject, _) => Some(VObject(ObjectOf(j)))
    case (TAny, _) => Some(VAny(JsonToAny(j)))
    case _ => None
  }

  function Deser(t: Type, src: Source): Option<Value>
    decreases t, 1, 0
  {
    if t.TStruct? then
      var slots := DeserFields(t, src, |t.fields|);
      if slots.Some? then Some(VStruct(slots.value)) else None
    else if src.Missing? then
      None
    else if t.TArray? then
      if !src.json.JArr? then None
      else
        var elems := DeserItems(t, src.json.items, |src.json.items|);
        if elems.Some? then Some(VArray(elems.value)) else None
    else
      DeserScalar(t, src.json)
  }

  function DeserItems(t: Type, items: seq<Json>, n: nat): Option<seq<Value>>
    requires t.TArray? && n <= |items|
    decreases t, 0, n
  {
    if n == 0 then
      Some([])
    else
      var before := DeserItems(t, items, n - 1);
      if before.None? then None
      else
        var v := Deser(t.elem, Node(items[n - 1]));
        if v.None? then None else Some(before.value + [v.value])
  }

  function DeserField(f: Field, src: Source): Option<Slot>
    decreases f, 2, 0
  {
    var at := FieldSource(src, f.name);
    if at.None? then
      None
    else
      var v := Deser(f.ty, at.value);
      if v.Some? then Some(Present(v.value)) else if f.optional then Some(Absent) else None
  }

  function DeserFields(t: Type, src: Source, n: nat): Option<seq<Slot>>
    requires t.TStruct? && n <= |t.fields|
    decreases t, 0, n
  {
    if n == 0 then
      Some([])
    else
      var before := DeserFields(t, src, n - 1);
      if before.None? then None
      else
        var slot := DeserField(t.fields[n - 1], src);
        if slot.None? then None else Some(before.value + [slot.value])
  }

  // ---------- the loops, element by element ----------

  lemma {:induction false} ItemsAre(t: Type, items: seq<Json>, elems: seq<Value>, n: nat)
    requires t.TArray? && n <= |items| == |elems|
    ensures DeserItems(t, items, n) == Some(elems[..n]) <==>
            forall i :: 0 <= i < n ==> Deser(t.elem, Node(items[i])) == Some(elems[i])
  {
    hide Deser;
    if n > 0 {
      ItemsAre(t, items, elems, n - 1);
      var before := DeserItems(t, items, n - 1);
      assert elems[..n] == elems[..n - 1] + [elems[n - 1]];
      if before.Some? && Deser(t.elem, Node(items[n - 1])).Some? {
        var v := Deser(t.elem, Node(items[n - 1])).value;
        assert before.value + [v] == elems[..n] ==>
          (before.value + [v])[..|before.value|] == elems[..|before.value|] &&
          |before.value| == n - 1 && v == elems[n - 1];
      }
    }
  }

  lemma {:induction false} FieldsAre(t: Type, src: Source, slots: seq<Slot>, n: nat)
    requires t.TStruct? && n <= |t.fields| == |slots|
    ensures DeserFields(t, src, n) == Some(slots[..n]) <==>
            forall i :: 0 <= i < n ==> DeserField(t.fields[i], src) == Some(slots[i])
  {
    hide DeserField;
    if n > 0 {
      FieldsAre(t, src, slots, n - 1);
      var before := DeserFields(t, src, n - 1);
      assert slots[..n] == slots[..n - 1] + [slots[n - 1]];
      if before.Some? && DeserField(t.fields[n - 1], src).Some? {
        var v := DeserField(t.fields[n - 1], src).value;
        assert before.value + [v] == slots[..n] ==>
          (before.value + [v])[..|before.value|] == slots[..|before.value|] &&
          |before.value| == n - 1 && v == slots[n - 1];
      }
    }
  }

  predicate DistinctNames(t: Type) {
    match t
    case TArray(elem) => DistinctNames(elem)
    case TStruct(fields) =>
      (forall i, j :: 0 <= i < j < |fields| ==> fields[i].name != fields[j].name) &&
      forall i :: 0 <= i < |fields| ==> DistinctNames(fields[i].ty)
    case _ => true
  }

  /** Each set field is a member under its own name, each unset one is not a member. */
  lemma {:induction false} MembersAre(t: Type, slots: seq<Slot>, n: nat, i: nat)
    requires t.TStruct? && HasType(t, VStruct(slots)) && DistinctNames(t)
    requires i < n <= |t.fields|
    ensures SlotHasType(t.fields[i], slots[i])
    ensures var members := SerFields(t, slots, n);
            if slots[i].Absent? then t.fields[i].name !in members
            else t.fields[i].name in members &&
                 members[t.fields[i].name] == Ser(t.fields[i].ty, slots[i].value)
  {
    hide Ser;
    assert SlotHasType(t.fields[i], slots[i]);
    assert SlotHasType(t.fields[n - 1], slots[n - 1]);
    if i < n - 1 {
      MembersAre(t, slots, n - 1, i);
      assert t.fields[i].name != t.fields[n - 1].name;
    }
  }

  // ---------- the round trip ----------

  /** Only a struct without fields can be read from a field that is not there. */
  lemma FromMissing(t: Type)
    ensures Deser(t, Missing).Some? <==> t == TStruct([])
  {
    if t.TStruct? && |t.fields| > 0 {
      NoFieldsOfMissing(t, |t.fields|);
    }
  }

  lemma {:induction false} NoFieldsOfMissing(t: Type, n: nat)
    requires t.TStruct? && 0 < n <= |t.fields|
    ensures DeserFields(t, Missing, n).None?
  {
    assert DeserField(t.fields[n - 1], Missing).None?;
  }

  /** No unset optional field, at any depth, has a struct without fields as its type. */
  predicate Recoverable(t: Type, v: Value)
    requires HasType(t, v)
    decreases t
  {
    match t
    case TArray(elem) => forall i :: 0 <= i < |v.elems| ==> Recoverable(elem, v.elems[i])
    case TStruct(fields) =>
      forall i :: 0 <= i < |fields| ==> SlotHasType(fields[i], v.slots[i]) && RecoverableSlot(fields[i], v.slots[i])
    case _ => true
  }

  predicate RecoverableSlot(f: Field, slot: Slot)
    requires SlotHasType(f, slot)
    decreases f
  {
    if slot.Absent? then f.ty != TStruct([]) else Recoverable(f.ty, slot.value)
  }

  lemma {:induction false} RoundTrip(t: Type, v: Value)
    requires HasType(t, v) && DistinctNames(t)
    ensures Deser(t, Node(Ser(t, v))) == Some(v) <==> Recoverable(t, v)
    decreases t, 1
  {
    match t {
      case TObject =>
        forall k | k in v.entries ensures JsonToAny(AnyToJson(v.entries[k])) == v.entries[k] {
          AnyRoundTrip(v.entries[k]);
        }
        assert ObjectOf(Ser(t, v)) == v.entries;
      case TAny =>
        AnyRoundTrip(v.any);
      case TArray(elem) =>
        var items := Ser(t, v).items;
        forall i | 0 <= i < |items|
          ensures Deser(elem, Node(items[i])) == Some(v.elems[i]) <==> Recoverable(elem, v.elems[i])
        {
          RoundTrip(elem, v.elems[i]);
        }
        ItemsAre(t, items, v.elems, |items|);
        assert v.elems[..|items|] == v.elems;
      case TStruct(fields) =>
        var src := Node(Ser(t, v));
        forall i | 0 <= i < |fields|
          ensures DeserField(fields[i], src) == Some(v.slots[i]) <==> RecoverableSlot(fields[i], v.slots[i])
        {
          FieldRoundTrip(t, v, i);
        }
        FieldsAre(t, src, v.slots, |fields|);
        assert v.slots[..|fields|] == v.slots;
      case _ =>
    }
  }

  lemma {:induction false} FieldRoundTrip(t: Type, v: Value, i: nat)
    requires t.TStruct? && HasType(t, v) && DistinctNames(t) && i < |t.fields|
    ensures SlotHasType(t.fields[i], v.slots[i])
    ensures DeserField(t.fields[i], Node(Ser(t, v))) == Some(v.slots[i]) <==>
            RecoverableSlot(t.fields[i], v.slots[i])
    decreases t, 0
  {
    hide SerFields, Deser, Recoverable;
    var f, slot := t.fields[i], v.slots[i];
    MembersAre(t, v.slots, |t.fields|, i);
    if slot.Absent? {
      FromMissing(f.ty);
    } else {
      RoundTrip(f.ty, slot.value);
    }
  }

  // ---------- what a decoder looks at ----------

  /** The trees agree on every field the schema names; other members may differ. */
  predicate SameFields(t: Type, j: Json, k: Json)
    decreases t
  {
    j == k ||
    match t
    case TArray(elem) =>
      j.JArr? && k.JArr? && |j.items| == |k.items| &&
      forall i :: 0 <= i < |j.items| ==> SameFields(elem, j.items[i], k.items[i])
    case TStruct(fields) =>
      j.JObj? && k.JObj? && forall i :: 0 <= i < |fields| ==> SameField(fields[i], j.members, k.members)
    case _ => false
  }

  predicate SameField(f: Field, a: map<string, Json>, b: map<string, Json>)
    decreases f
  {
    (f.name in a <==> f.name in b) && (f.name in a ==> SameFields(f.ty, a[f.name], b[f.name]))
  }

  lemma {:induction false} UnknownFieldsIgnored(t: Type, j: Json, k: Json)
    requires SameFields(t, j, k)
    ensures Deser(t, Node(j)) == Deser(t, Node(k))
    decreases t
  {
    if j != k {
      if t.TArray? {
        SameItems(t, j.items, k.items, |j.items|);
      } else {
        SameSlots(t, j, k, |t.fields|);
      }
    }
  }

  lemma {:induction false} SameItems(t: Type, a: seq<Json>, b: seq<Json>, n: nat)
    requires t.TArray? && n <= |a| == |b|
    requires forall i :: 0 <= i < n ==> SameFields(t.elem, a[i], b[i])
    ensures DeserItems(t, a, n) == DeserItems(t, b, n)
    decreases t, 0, n
  {
    if n > 0 {
      SameItems(t, a, b, n - 1);
      UnknownFieldsIgnored(t.elem, a[n - 1], b[n - 1]);
    }
  }

  lemma {:induction false} SameSlots(t: Type, j: Json, k: Json, n: nat)
    requires t.TStruct? && n <= |t.fields| && j.JObj? && k.JObj?
    requires forall i :: 0 <= i < n ==> SameField(t.fields[i], j.members, k.members)
    ensures DeserFields(t, Node(j), n) == DeserFields(t, Node(k), n)
    decreases t, 0, n
  {
    if n > 0 {
      SameSlots(t, j, k, n - 1);
      var f := t.fields[n - 1];
      assert SameField(f, j.members, k.members);
      if f.name in j.members {
        UnknownFieldsIgnored(f.ty, j.members[f.name], k.members[f.name]);
      }
    }
  }

  // ---------- what a decoder can return ----------

  lemma ToAnyInRange(j: Json)
    ensures AnyInRange(JsonToAny(j))
  {
  }

  lemma {:induction false} ObjectInRange(j: Json)
    ensures forall k :: k in ObjectOf(j) ==> AnyInRange(ObjectOf(j)[k])
  {
    match j {
      case JObj(members) =>
        forall k | k in members ensures AnyInRange(JsonToAny(members[k])) { ToAnyInRange(members[k]); }
      case JArr(items) => IndexedInRange(items, |items|);
      case _ =>
    }
  }

  lemma {:induction false} IndexedInRange(items: seq<Json>, n: nat)
    requires n <= |items|
    ensures forall k :: k in IndexedMembers(items, n) ==> AnyInRange(IndexedMembers(items, n)[k])
  {
    if n > 0 {
      IndexedInRange(items, n - 1);
      ToAnyInRange(items[n - 1]);
    }
  }

  /** Whatever is accepted is a value of the schema, and one that survives being written. */
  lemma {:induction false} DecodedIsTyped(t: Type, src: Source)
    requires Deser(t, src).Some?
    ensures HasType(t, Deser(t, src).value) && Recoverable(t, Deser(t, src).value)
    decreases t, 1
  {
    var v := Deser(t, src).value;
    if t.TStruct? {
      SlotCount(t, src, |t.fields|);
      FieldsAre(t, src, v.slots, |t.fields|);
      assert v.slots[..|t.fields|] == v.slots;
      forall i | 0 <= i < |t.fields|
        ensures SlotHasType(t.fields[i], v.slots[i]) && RecoverableSlot(t.fields[i], v.slots[i])
      {
        assert DeserField(t.fields[i], src) == Some(v.slots[i]);
        DecodedField(t.fields[i], src);
      }
    } else if t.TArray? {
      ItemCount(t, src.json.items, |src.json.items|);
      ItemsAre(t, src.json.items, v.elems, |v.elems|);
      assert v.elems[..|v.elems|] == v.elems;
      forall i | 0 <= i < |v.elems| ensures HasType(t.elem, v.elems[i]) && Recoverable(t.elem, v.elems[i]) {
        DecodedIsTyped(t.elem, Node(src.json.items[i]));
      }
    } else if t.TObject? {
      ObjectInRange(src.json);
    } else if t.TAny? {
      ToAnyInRange(src.json);
    }
  }

  lemma {:induction false} DecodedField(f: Field, src: Source)
    requires DeserField(f, src).Some?
    ensures SlotHasType(f, DeserField(f, src).value) && RecoverableSlot(f, DeserField(f, src).value)
    decreases f
  {
    hide HasType, Recoverable, Deser;
    var at := FieldSource(src, f.name).value;
    if Deser(f.ty, at).Some? {
      DecodedIsTyped(f.ty, at);
    } else {
      EmptyStructFromAnything(at);
    }
  }

  lemma EmptyStructFromAnything(src: Source)
    ensures Deser(TStruct([]), src) == Some(VStruct([]))
  {
  }

  lemma ItemCount(t: Type, items: seq<Json>, n: nat)
    requires t.TArray? && n <= |items| && DeserItems(t, items, n).Some?
    ensures |DeserItems(t, items, n).value| == n
  {
  }

  lemma SlotCount(t: Type, src: Source, n: nat)
    requires t.TStruct? && n <= |t.fields| && DeserFields(t, src, n).Some?
    ensures |DeserFields(t, src, n).value| == n
  {
  }

  /** Decoding, encoding and decoding again gives what the first decoding gave: for every
      schema and every JSON tree, with no condition on either value. */
  lemma {:induction false} DecodeEncodeDecode(t: Type, j: Json)
    requires DistinctNames(t) && Deser(t, Node(j)).Some?
    ensures HasType(t, Deser(t, Node(j)).value)
    ensures Deser(t, Node(Ser(t, Deser(t, Node(j)).value))) == Deser(t, Node(j))
  {
    DecodedIsTyped(t, Node(j));
    RoundTrip(t, Deser(t, Node(j)).value);
  }

  /** The value the round trip loses: an unset optional struct without fields comes back set. */
  lemma UnsetEmptyStructComesBack(name: string)
    ensures var t := TStruct([Field(name, TStruct([]), true)]);
            HasType(t, VStruct([Absent])) &&
            Deser(t, Node(Ser(t, VStruct([Absent])))) == Some(VStruct([Present(VStruct([]))]))
  {
    var t := TStruct([Field(name, TStruct([]), true)]);
    var v := VStruct([Absent]);
    assert SlotHasType(t.fields[0], v.slots[0]);
    DistinctAlone(t);
    MembersAre(t, v.slots, 1, 0);
    EmptyStructFromAnything(Missing);
    var src := Node(Ser(t, v));
    assert DeserField(t.fields[0], src) == Some(Present(VStruct([])));
    FieldsAre(t, src, [Present(VStruct([]))], 1);
    assert [Present(VStruct([]))][..1] == [Present(VStruct([]))];
  }

  lemma DistinctAlone(t: Type)
    requires t.TStruct? && |t.fields| == 1 && t.fields[0].ty == TStruct([])
    ensures DistinctNames(t)
  {
    assert DistinctNames(t.fields[0].ty);
  }

  // ---------- what a decoder accepts ----------

  /** The kinds of JSON each schema takes; only a field's own member counts, and an optional
      field refuses nothing. */
  predicate Accepts(t: Type, j: Json)
    decreases t
  {
    match t
    case TBool => j.JBool?
    case TInt => j.JInt?
    case TNum => j.JInt? || j.JNum?
    case TStr => j.JStr?
    case TObject => true
    case TAny => true
    case TArray(elem) => j.JArr? && forall i :: 0 <= i < |j.items| ==> Accepts(elem, j.items[i])
    case TStruct(fields) =>
      fields == [] ||
      ((j.JObj? || j.JArr?) && forall i :: 0 <= i < |fields| ==> fields[i].optional || AcceptsField(fields[i], j))
  }

  predicate AcceptsField(f: Field, j: Json)
    decreases f
  {
    if j.JObj? && f.name in j.members then Accepts(f.ty, j.members[f.name]) else f.ty == TStruct([])
  }

  /** A tree is decoded exactly when it has the kinds its schema takes. */
  lemma {:induction false} AcceptedExactly(t: Type, j: Json)
    ensures Deser(t, Node(j)).Some? <==> Accepts(t, j)
    decreases t, 1, 0
  {
    if t.TArray? {
      if j.JArr? {
        ItemsAccepted(t, j.items, |j.items|);
      }
    } else if t.TStruct? {
      FieldsAccepted(t, j, |t.fields|);
    }
  }

  lemma {:induction false} ItemsAccepted(t: Type, items: seq<Json>, n: nat)
    requires t.TArray? && n <= |items|
    ensures DeserItems(t, items, n).Some? <==> forall i :: 0 <= i < n ==> Accepts(t.elem, items[i])
    decreases t, 0, n
  {
    if n > 0 {
      ItemsAccepted(t, items, n - 1);
      AcceptedExactly(t.elem, items[n - 1]);
    }
  }

  lemma {:induction false} FieldsAccepted(t: Type, j: Json, n: nat)
    requires t.TStruct? && n <= |t.fields|
    ensures DeserFields(t, Node(j), n).Some? <==>
      n == 0 ||
      ((j.JObj? || j.JArr?) && forall i :: 0 <= i < n ==> t.fields[i].optional || AcceptsField(t.fields[i], j))
    decreases t, 0, n
  {
    if n > 0 {
      hide Deser;
      FieldsAccepted(t, j, n - 1);
      FieldAccepted(t.fields[n - 1], j);
    }
  }

  /** A field that is not there or not of the right kind: an optional one stays unset and a
      required one fails, in an object or array; nothing else has fields. */
  lemma {:induction false} FieldAccepted(f: Field, j: Json)
    ensures j.JObj? || j.JArr? ==> (DeserField(f, Node(j)) == Some(Absent) <==> f.optional && !AcceptsField(f, j))
    ensures DeserField(f, Node(j)).Some? <==> (j.JObj? || j.JArr?) && (f.optional || AcceptsField(f, j))
    decreases f
  {
    hide Deser;
    FromMissing(f.ty);
    if j.JObj? && f.name in j.members {
      AcceptedExactly(f.ty, j.members[f.name]);
    }
  }

  /** An integer is read modulo two to the 64 into the signed range, and where a number is
      wanted, as that number. */
  lemma IntegersRead(n: int)
    ensures exists m :: Deser(TInt, Node(JInt(n))) == Some(VInt(m)) && FitsInt64(m) && (m - n) % TWO_64 == 0
    ensures FitsInt64(n) ==> Deser(TInt, Node(JInt(n))) == Some(VInt(n))
    ensures n == 9223372036854775808 ==> Deser(TInt, Node(JInt(n))) == Some(VInt(-9223372036854775808))
    ensures Deser(TNum, Node(JInt(n))) == Some(VNum(n as real))
  {
    var m := ToInt64(n);
    assert m - n == -TWO_64 * ((n + TWO_63) / TWO_64);
    assert Deser(TInt, Node(JInt(n))) == Some(VInt(m));
  }

  /** An array read as an object has the numerals of its indices as keys; a scalar is its own
      only entry, and null has none. */
  lemma ObjectFrom(j: Json)
    ensures j.JArr? ==> ObjectOf(j).Keys == Numerals(|j.items|)
    ensures j.JArr? ==> forall i :: 0 <= i < |j.items| ==>
              Decimal(i) in ObjectOf(j) && ObjectOf(j)[Decimal(i)] == JsonToAny(j.items[i])
    ensures j.JNull? ==> ObjectOf(j) == map[]
    ensures j.JBool? || j.JInt? || j.JNum? || j.JStr? ==> ObjectOf(j) == map["" := JsonToAny(j)]
  {
    if j.JArr? {
      IndexedKeys(j.items, |j.items|);
      IndexedAre(j.items, |j.items|);
    }
  }

  /** "0", "1" and so on. */
  function Numerals(n: nat): set<string> {
    if n == 0 then {} else Numerals(n - 1) + {Decimal(n - 1)}
  }

  lemma {:induction false} NotYet(n: nat, m: nat)
    requires n <= m
    ensures Decimal(m) !in Numerals(n)
  {
    if n > 0 {
      NotYet(n - 1, m);
      if Decimal(m) == Decimal(n - 1) {
        DecimalInjective(m, n - 1);
      }
    }
  }

  lemma {:induction false} IndexedKeys(items: seq<Json>, n: nat)
    requires n <= |items|
    ensures IndexedMembers(items, n).Keys == Numerals(n)
  {
    hide JsonToAny, Decimal;
    if n > 0 {
      IndexedKeys(items, n - 1);
    }
  }

  lemma {:induction false} IndexedAre(items: seq<Json>, n: nat)
    requires n <= |items|
    ensures forall i :: 0 <= i < n ==>
              Decimal(i) in IndexedMembers(items, n) && IndexedMembers(items, n)[Decimal(i)] == JsonToAny(items[i])
  {
    hide JsonToAny, Decimal;
    if n > 0 {
      IndexedAre(items, n - 1);
      NotYet(n - 1, n - 1);
      IndexedKeys(items, n - 1);
    }
  }

  predicate JsonInRange(j: Json) {
    match j
    case JInt(n) => FitsInt64(n)
    case JArr(items) => forall i :: 0 <= i < |items| ==> JsonInRange(items[i])
    case JObj(members) => forall k :: k in members ==> JsonInRange(members[k])
    case _ => true
  }

  /** Every tree whose integers fit in 64 bits is written back as it was read. */
  lemma {:induction false} TreeRoundTrip(j: Json)
    requires JsonInRange(j)
    ensures AnyToJson(JsonToAny(j)) == j
    ensures Deser(TAny, Node(j)) == Some(VAny(JsonToAny(j))) && AnyInRange(JsonToAny(j))
  {
    ToAnyInRange(j);
    match j {
      case JArr(items) =>
        forall i | 0 <= i < |items| ensures AnyToJson(JsonToAny(items[i])) == items[i] {
          TreeRoundTrip(items[i]);
        }
        assert AnyToJson(JsonToAny(j)).items == items;
      case JObj(members) =>
        forall k | k in members ensures AnyToJson(JsonToAny(members[k])) == members[k] {
          TreeRoundTrip(members[k]);
        }
        assert AnyToJson(JsonToAny(j)).members == members;
      case _ =>
    }
  }

  const ARGUMENTS := TStruct([
    Field("id", TInt, false), Field("all", TBool, true), Field("level", TNum, true),
    Field("lines", TArray(TStr), false), Field("on", TBool, true), Field("extra", TAny, false)])

  /** One value and its tree, written out; the unset field leaves no trace. */
  lemma WrittenOut(any: Any)
    requires AnyInRange(any)
    ensures var v := VStruct([Present(VInt(-3)), Absent, Present(VNum(1.5)), Present(VArray([VStr("a"), VStr("")])),
                              Present(VBool(true)), Present(VAny(any))]);
            HasType(ARGUMENTS, v) &&
            Ser(ARGUMENTS, v) == JObj(map[
              "id" := JInt(-3), "level" := JNum(1.5), "lines" := JArr([JStr("a"), JStr("")]), "on" := JBool(true),
              "extra" := AnyToJson(any)])
  {
    var t := ARGUMENTS;
    var list := VArray([VStr("a"), VStr("")]);
    assert HasType(TArray(TStr), list) && Ser(TArray(TStr), list) == JArr([JStr("a"), JStr("")]);
    var slots := [Present(VInt(-3)), Absent, Present(VNum(1.5)), Present(list), Present(VBool(true)),
                  Present(VAny(any))];
    forall i | 0 <= i < 6 ensures SlotHasType(t.fields[i], slots[i]) {
      assert i == 0 || i == 1 || i == 2 || i == 3 || i == 4 || i == 5;
    }
    hide AnyToJson, AnyInRange;
    assert SerFields(t, slots, 0) == map[];
    assert SerFields(t, slots, 1) == map["id" := JInt(-3)];
    assert SerFields(t, slots, 2) == map["id" := JInt(-3)];
    assert SerFields(t, slots, 3) == map["id" := JInt(-3), "level" := JNum(1.5)];
    var four := map["id" := JInt(-3), "level" := JNum(1.5), "lines" := JArr([JStr("a"), JStr("")])];
    assert SerFields(t, slots, 4) == four;
    assert SerFields(t, slots, 5) == four["on" := JBool(true)];
    assert SerFields(t, slots, 6) == four["on" := JBool(true)]["extra" := AnyToJson(any)];
    assert Ser(t, VStruct(slots)) == JObj(SerFields(t, slots, 6));
    var j := AnyToJson(any);
    assert four["on" := JBool(true)]["extra" := j] ==
      map["id" := JInt(-3), "level" := JNum(1.5), "lines" := JArr([JStr("a"), JStr("")]), "on" := JBool(true),
          "extra" := j];
  }

  /** The kinds of an any, written out. */
  lemma AnyWrittenOut()
    ensures AnyToJson(AArr([ABool(true), AInt(7), ANum(0.5), AStr("u"), ANull, AObj(map["k" := AInt(1)])])) ==
            JArr([JBool(true), JInt(7), JNum(0.5), JStr("u"), JNull, JObj(map["k" := JInt(1)])])
  {
    assert AnyToJson(AObj(map["k" := AInt(1)])) == JObj(map["k" := JInt(1)]);
  }

  // ---------- the loops of the source ----------

  method Serialize(t: Type, v: Value) returns (j: Json)
    requires HasType(t, v)
    ensures j == Ser(t, v)
    decreases t, 1, 0
  {
    match t {
      case TBool => j := JBool(v.b);
      case TInt => j := JInt(v.n);
      case TNum => j := JNum(v.x);
      case TStr => j := JStr(v.s);
      case TObject => j := JObj(ObjectToJson(v.entries));
      case TAny => j := AnyToJson(v.any);
      case TArray(elem) =>
        var items: seq<Json> := [];
        for i := 0 to |v.elems|
          invariant |items| == i
          invariant forall k :: 0 <= k < i ==> items[k] == Ser(elem, v.elems[k])
        {
          var item := Serialize(elem, v.elems[i]);
          items := items + [item];
        }
        j := JArr(items);
        assert items == Ser(t, v).items;
      case TStruct(fields) =>
        var members: map<string, Json> := map[];
        for i := 0 to |fields|
          invariant members == SerFields(t, v.slots, i)
        {
          members := SerializeField(t, v.slots, i, members);
        }
        j := JObj(members);
    }
  }

  /** FieldSerializer::field: a null member is created under the name, filled in by the
      callback, and erased again when the value turned out to be an unset optional. */
  method SerializeField(t: Type, slots: seq<Slot>, i: nat, before: map<string, Json>)
    returns (members: map<string, Json>)
    requires t.TStruct? && HasType(t, VStruct(slots)) && i < |t.fields|
    requires before == SerFields(t, slots, i)
    ensures members == SerFields(t, slots, i + 1)
    decreases t, 0, 0
  {
    var f := t.fields[i];
    assert SlotHasType(f, slots[i]);
    members := before[f.name := JNull];
    var removed := slots[i].Absent?;
    if !removed {
      var j := Serialize(f.ty, slots[i].value);
      members := members[f.name := j];
    }
    if removed {
      members := members - {f.name};
    }
  }

  method Deserialize(t: Type, src: Source) returns (v: Option<Value>)
    ensures v == Deser(t, src)
    decreases t, 1, 0
  {
    if t.TStruct? {
      var slots: seq<Slot> := [];
      for i := 0 to |t.fields|
        invariant DeserFields(t, src, i) == Some(slots)
      {
        var slot := DeserializeField(t.fields[i], src);
        if slot.None? {
          FieldFails(t, src, i, |t.fields|);
          return None;
        }
        slots := slots + [slot.value];
      }
      v := Some(VStruct(slots));
    } else if src.Missing? {
      v := None;
    } else if t.TArray? {
      if !src.json.JArr? {
        return None;
      }
      var elems: seq<Value> := [];
      for i := 0 to |src.json.items|
        invariant DeserItems(t, src.json.items, i) == Some(elems)
      {
        var elem := Deserialize(t.elem, Node(src.json.items[i]));
        if elem.None? {
          ItemFails(t, src.json.items, i, |src.json.items|);
          return None;
        }
        elems := elems + [elem.value];
      }
      v := Some(VArray(elems));
    } else {
      v := DeserScalar(t, src.json);
    }
  }

  method DeserializeField(f: Field, src: Source) returns (slot: Option<Slot>)
    ensures slot == DeserField(f, src)
    decreases f, 2, 0
  {
    var at := FieldSource(src, f.name);
    if at.None? {
      return None;
    }
    var v := Deserialize(f.ty, at.value);
    if f.optional {
      slot := Some(if v.Some? then Present(v.value) else Absent);
    } else {
      slot := if v.Some? then Some(Present(v.value)) else None;
    }
  }

  lemma ItemFails(t: Type, items: seq<Json>, i: nat, n: nat)
    requires t.TArray? && i < n <= |items| && Deser(t.elem, Node(items[i])).None?
    ensures DeserItems(t, items, n).None?
  {
  }

  lemma FieldFails(t: Type, src: Source, i: nat, n: nat)
    requires t.TStruct? && i < n <= |t.fields| && DeserField(t.fields[i], src).None?
    ensures DeserFields(t, src, n).None?
  {
  }
}
