/**
 * Go values as the reflect package shows them to the encoder and decoder.
 *
 * A struct value lists its fields in declaration order. Each field carries
 * its Go name, its raw struct tag, what `CanSet` reports for it once its
 * struct is addressable, what `CanInterface` reports for it, and its current
 * value. Whether the struct is addressable depends on how it is reached
 * (`ReachedFields`). A value whose
 * dynamic type implements proto.Message is a `Proto`; `ptr` says whether its
 * reflect kind is Ptr (a `*M` field) rather than Interface (an `any` field
 * holding a `*M`). The struct behind a message pointer is visible to
 * reflection, so a message keeps its fields; the protobuf codec treats the
 * message as opaque.
 */
module Values {
  import opened Errors
  import opened Json

  datatype Field = Field(
    name: string,
    tag: string,
    settable: bool,
    interfaceable: bool,
    value: Value)

  /** What a message pointer points to: nothing (a typed nil) or the generated struct. */
  datatype Msg =
    | NilMsg(typeName: string)
    | Msg(typeName: string, fields: seq<Field>)

  datatype Value =
    | Nil                      // the untyped nil interface; also an invalid reflect.Value
    | Proto(ptr: bool, msg: Msg)
    | Record(fields: seq<Field>)
    | NilPointer               // a nil pointer to a non-message type
    | Pointer(target: Value)   // a non-nil pointer to a non-message type
    | Plain(data: Json)        // any other value: scalars, slices, maps, interfaces holding no message

  /** reflect.Value.Kind() == reflect.Ptr */
  predicate IsPtrKind(v: Value) {
    v.NilPointer? || v.Pointer? || (v.Proto? && v.ptr)
  }

  /**
   * A target json.Unmarshal accepts: a non-nil pointer. A message is always
   * a `*M`; `NilMsg` is a typed nil.
   */
  predicate NonNilPointer(v: Value) {
    v.Pointer? || (v.Proto? && v.msg.Msg?)
  }

  /** The value a pointer points to; Nil stands for the invalid reflect.Value of a nil pointer. */
  function Pointee(v: Value): Value
    requires v.NilPointer? || v.Pointer? || v.Proto?
  {
    match v
    case Pointer(t) => t
    case Proto(_, Msg(_, fields)) => Record(fields)
    case _ => Nil
  }

  /** `if v.Kind() == reflect.Ptr { v = v.Elem() }` on a reflect.Value. */
  function ElemIfPointer(v: Value): Value {
    if IsPtrKind(v) then Pointee(v) else v
  }

  /**
   * goreflect.GetDereferencedValue and NewReflection applied to an `any`:
   * reflect.ValueOf sees the dynamic type, so a message held through an
   * interface is a pointer here, and one pointer level is removed.
   */
  function Reflected(v: Value): Value {
    if v.NilPointer? || v.Pointer? || v.Proto? then Pointee(v) else v
  }

  /**
   * GetDereferencedValue of an `any` is addressable exactly when the `any`
   * holds a pointer (a message always is one there); a struct held by value
   * is a copy.
   */
  predicate Addressable(v: Value) {
    v.Pointer? || v.Proto?
  }

  /** The fields of the struct GetDereferencedValue yields for `v`, as CanSet sees them: none can be set in a copy. */
  function ReachedFields(v: Value): (r: seq<Field>)
    requires Reflected(v).Record?
    ensures |r| == |Reflected(v).fields|
    ensures FieldNames(r) == FieldNames(Reflected(v).fields)
  {
    var fields := Reflected(v).fields;
    if Addressable(v) then fields
    else seq(|fields|, k requires 0 <= k < |fields| => fields[k].(settable := false))
  }

  /** Field `k` as reached: only its `settable` flag can differ, and it holds only behind a pointer. */
  lemma ReachedField(v: Value, k: nat)
    requires Reflected(v).Record? && k < |Reflected(v).fields|
    ensures ReachedFields(v)[k]
         == Reflected(v).fields[k].(settable := Addressable(v) && Reflected(v).fields[k].settable)
  {
  }

  /** The fields reached through `root` are structurally smaller than `root`. */
  lemma ReachedBelow(root: Value, k: nat)
    requires Reflected(root).Record? && k < |Reflected(root).fields|
    ensures ReachedFields(root)[k].value < root
  {
    FieldBelow(root, k);
    ReachedField(root, k);
  }

  /** Writes a new state of the struct behind `dest` back through its pointer; a struct passed by value is a copy, so it is left as it was. */
  function WithReflected(dest: Value, s: Value): (r: Value)
    ensures Reflected(dest).Record? && s.Record? && (dest.Pointer? || dest.Proto?) ==> Reflected(r) == s
  {
    match dest
    case Pointer(_) => Pointer(s)
    case Proto(p, Msg(n, _)) => if s.Record? then Proto(p, Msg(n, s.fields)) else dest
    case _ => dest
  }

  /** Every field the reflected struct of `root` holds is structurally smaller than `root`. */
  lemma FieldBelow(root: Value, k: nat)
    requires Reflected(root).Record? && k < |Reflected(root).fields|
    ensures Reflected(root).fields[k].value < root
  {
    match root
    case Pointer(t) =>
      assert t.fields[k] in t.fields;
    case Proto(_, Msg(_, fields)) =>
      assert fields[k] in fields;
    case Record(fields) =>
      assert fields[k] in fields;
  }

  /** The same for the struct a reflect.Value dereferences to. */
  lemma ElemFieldBelow(root: Value, k: nat)
    requires ElemIfPointer(root).Record? && k < |ElemIfPointer(root).fields|
    ensures ElemIfPointer(root).fields[k].value < root
  {
    match root
    case Pointer(t) =>
      assert t.fields[k] in t.fields;
    case Proto(_, Msg(_, fields)) =>
      assert fields[k] in fields;
    case Record(fields) =>
      assert fields[k] in fields;
  }

  /** Go forbids two fields of one struct sharing a name. */
  ghost predicate UniqueNames(fields: seq<Field>) {
    forall i, j :: 0 <= i < j < |fields| ==> fields[i].name != fields[j].name
  }

  /** The names of `fields[..n]`. */
  function Names(fields: seq<Field>, n: nat): set<string>
    requires n <= |fields|
  {
    if n == 0 then {} else Names(fields, n - 1) + {fields[n - 1].name}
  }

  /** The names of the fields among `fields[..n]` that can be interfaced. */
  function InterfaceableNames(fields: seq<Field>, n: nat): set<string>
    requires n <= |fields|
  {
    if n == 0 then {}
    else if fields[n - 1].interfaceable then InterfaceableNames(fields, n - 1) + {fields[n - 1].name}
    else InterfaceableNames(fields, n - 1)
  }

  /** The names of the fields among `fields[..n]` that can be set. */
  function SettableNames(fields: seq<Field>, n: nat): set<string>
    requires n <= |fields|
  {
    if n == 0 then {}
    else if fields[n - 1].settable then SettableNames(fields, n - 1) + {fields[n - 1].name}
    else SettableNames(fields, n - 1)
  }

  /** The Go names of a struct's fields, in declaration order: what its reflect.Type lists. */
  function FieldNames(fields: seq<Field>): (r: seq<string>)
    ensures |r| == |fields| && forall k :: 0 <= k < |fields| ==> r[k] == fields[k].name
  {
    seq(|fields|, k requires 0 <= k < |fields| => fields[k].name)
  }

  /** With unique names, the name of field `k` is not among those before `n <= k`. */
  lemma {:induction false} NameNotEarlier(fields: seq<Field>, n: nat, k: nat)
    requires UniqueNames(fields) && n <= k < |fields|
    ensures fields[k].name !in Names(fields, n)
    decreases n
  {
    if n > 0 {
      NameNotEarlier(fields, n - 1, k);
    }
  }

  /** Field names are unique in the struct behind `v` and, recursively, in every struct below it. */
  ghost predicate DeepUnique(v: Value) {
    match v
    case Record(fields) => UniqueNames(fields) && forall f | f in fields :: DeepUnique(f.value)
    case Proto(_, Msg(_, fields)) => UniqueNames(fields) && forall f | f in fields :: DeepUnique(f.value)
    case Pointer(t) => DeepUnique(t)
    case _ => true
  }

  lemma DeepUniqueFields(v: Value)
    requires DeepUnique(v) && Reflected(v).Record?
    ensures UniqueNames(Reflected(v).fields)
    ensures forall k :: 0 <= k < |Reflected(v).fields| ==> DeepUnique(Reflected(v).fields[k].value)
  {
    var fields := Reflected(v).fields;
    forall k | 0 <= k < |fields|
      ensures DeepUnique(fields[k].value)
    {
      assert fields[k] in fields;
    }
  }

  /** A field's value after changing field `k` of a struct. */
  function SetFieldValue(fields: seq<Field>, k: nat, v: Value): (r: seq<Field>)
    requires k < |fields|
    ensures |r| == |fields| && r[k].value == v && r[k].name == fields[k].name
    ensures r[k].settable == fields[k].settable && r[k].interfaceable == fields[k].interfaceable
    ensures forall j :: 0 <= j < |fields| && j != k ==> r[j] == fields[j]
  {
    fields[k := fields[k].(value := v)]
  }

  /** One entry of the encoder's `map[string]any` output. */
  datatype Encoded =
    | Verbatim(value: Value)         // the field's own value, left for encoding/json
    | RawMessage(bytes: Bytes)       // json.RawMessage: protojson output, not re-escaped
    | Object(members: map<string, Encoded>)

  /** One entry of the decoder's `mappedBody`. */
  datatype Mapped =
    | FromBody(json: Json)           // a sub-tree of the parsed body, copied as is
    | FromField(value: Value)        // the field's own (already decoded) value

  /** The protojson option fields the encoder and decoder set. */
  datatype MarshalOptions = MarshalOptions(allowPartial: bool)
  datatype UnmarshalOptions = UnmarshalOptions(allowPartial: bool, discardUnknown: bool)

  /** `&protojson.MarshalOptions{}`: the zero value. */
  const DefaultMarshalOptions := MarshalOptions(false)
  const DefaultUnmarshalOptions := UnmarshalOptions(false, false)

  /** `if options == nil { options = &protojson.XOptions{} }` */
  function MarshalOptionsOrDefault(o: Option<MarshalOptions>): (r: MarshalOptions)
    ensures o.Some? ==> r == o.value
    ensures o.None? ==> r == DefaultMarshalOptions
  {
    if o.Some? then o.value else DefaultMarshalOptions
  }

  function UnmarshalOptionsOrDefault(o: Option<UnmarshalOptions>): (r: UnmarshalOptions)
    ensures o.Some? ==> r == o.value
    ensures o.None? ==> r == DefaultUnmarshalOptions
  {
    if o.Some? then o.value else DefaultUnmarshalOptions
  }

  /**
   * The code this library calls but does not define. Each is a function of
   * its inputs and may fail; nothing else is known about it.
   */
  datatype Collaborators = Collaborators(
    // gostringsjson.GetJSONTag(structField, fieldName): raw tag, Go name -> json tag
    jsonTag: (string, string) -> Result<string>,
    // gostringsjson.GetJSONTagName(jsonTag, fieldName) -> JSON name
    jsonTagName: (string, string) -> Result<string>,
    // protojson.MarshalOptions.Marshal
    protoMarshal: (MarshalOptions, Msg) -> Result<Bytes>,
    // protojson.UnmarshalOptions.Unmarshal, writing into the message
    protoUnmarshal: (UnmarshalOptions, Bytes, Msg) -> Written<Msg>,
    // reflect.New(fieldType.Elem()) for a message type: a fresh zero message
    newMessage: string -> Msg,
    // json.Marshal of a parsed sub-tree
    jsonMarshal: Json -> Result<Bytes>,
    // json.Unmarshal(data, &m) with m a map[string]any
    jsonUnmarshalObject: Bytes -> Result<map<string, Json>>,
    // json.Unmarshal(data, p) for a non-nil pointer p: p once the decode has written through it
    jsonUnmarshalInto: (Bytes, Value) -> Written<Value>,
    // goreflect.ValueToReflectStruct(mappedBody, destValue, false)
    valueToReflectStruct: (map<string, Mapped>, Value) -> Written<Value>,
    // goreflect.MapToStruct(body, dest)
    mapToStruct: (map<string, Json>, Value) -> Written<Value>)

  /** The JSON name of a field: the tag is parsed, then the name is taken from it. */
  function JsonName(c: Collaborators, f: Field): Result<string> {
    var tag :- c.jsonTag(f.tag, f.name);
    c.jsonTagName(tag, f.name)
  }
}
