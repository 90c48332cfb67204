/**
 * decoder/protojson/mapper.go: the decoder's field classifier (NewMapper)
 * and the decode traversal that uses it (UnmarshalByReflection).
 *
 * NewMapper answers a message instance with a mapper that only says so.
 * For a struct it sorts every settable field into one bucket, checked in the
 * order proto message (on the runtime value), nested struct (after one
 * pointer dereference), regular. It computes each such field's JSON name
 * too, but the mapper it returns does not carry those names (mapper.go:118-124),
 * and the traversal skips every field whose name it cannot find there
 * (mapper.go:192-196). `Classify` takes a flag saying whether the names are
 * kept, so the constructor as written (`false`) and as evidently intended
 * (`true`) are both modelled.
 */
module DecoderMapper {
  import opened Errors
  import opened Json
  import opened Values

  datatype Mapper = Mapper(
    reflectType: seq<string>,        // the Go names of the struct type's fields, in order
    isProtoMessage: bool,
    regularFields: set<string>,
    protoMessageFields: set<string>,
    jsonFieldNames: map<string, string>,
    nestedStructs: map<string, Mapper>)

  /** `&Mapper{isProtoMessage: true}` */
  const ProtoMapper := Mapper([], true, {}, {}, map[], map[])

  /** The bucket the classifier puts a settable field in, in the order it tests them. */
  datatype Category = ProtoField | NestedField | RegularField

  function CategoryOf(v: Value): Category {
    if v.Proto? then ProtoField
    else if ElemIfPointer(v).Record? then NestedField
    else RegularField
  }

  // ---------------------------------------------------------------------
  // Classification
  // ---------------------------------------------------------------------

  /** The mapper NewMapper builds; `keepNames` says whether it keeps the JSON names it computed. */
  function Classify(c: Collaborators, destinationInstance: Value, keepNames: bool): (r: Result<Mapper>)
    ensures destinationInstance.Nil? ==> r == Err(NilDestinationInstance)
    ensures destinationInstance.Proto? ==> r == Ok(ProtoMapper)
    ensures r.Ok? && !keepNames ==> r.value.jsonFieldNames == map[]
    ensures r.Ok? && !destinationInstance.Proto? ==>
      && !r.value.isProtoMessage
      && Reflected(destinationInstance).Record?
      && r.value.reflectType == FieldNames(Reflected(destinationInstance).fields)
    decreases destinationInstance, 1
  {
    if destinationInstance.Nil? then Err(NilDestinationInstance)
    else if destinationInstance.Proto? then Ok(ProtoMapper)
    else match Reflected(destinationInstance)
      case Record(_) =>
        var fields := ReachedFields(destinationInstance);   // fieldValue.CanSet()
        var m :- ClassifyPrefix(c, destinationInstance, fields, |fields|, keepNames);
        Ok(if keepNames then m else m.(jsonFieldNames := map[]))
      case _ => Err(ReflectPanic)   // NumField of a nil pointer's Elem or of a non-struct
  }

  /** What the loop body decides for one field. */
  datatype FieldClass =
    | Ignored                               // cannot be set: in no map
    | AsProto(jsonName: string)
    | AsNested(jsonName: string, nested: Mapper)
    | AsRegular(jsonName: string)

  /** One iteration of the loop at mapper.go:63-117. */
  function ClassifyField(c: Collaborators, f: Field, keepNames: bool): Result<FieldClass>
    decreases f.value, 2
  {
    if !f.settable then Ok(Ignored)
    else
      var name :- JsonName(c, f);
      if !f.interfaceable then Err(ReflectPanic)   // fieldValue.Interface()
      else
        match CategoryOf(f.value)
        case ProtoField => Ok(AsProto(name))
        case NestedField =>
          var nested :- Classify(c, f.value, keepNames);
          Ok(AsNested(name, nested))
        case RegularField => Ok(AsRegular(name))
  }

  /** The maps after recording field `name` as `cls`. */
  function AddField(m: Mapper, name: string, cls: FieldClass): Mapper {
    match cls
    case Ignored => m
    case AsProto(j) =>
      m.(jsonFieldNames := m.jsonFieldNames[name := j], protoMessageFields := m.protoMessageFields + {name})
    case AsNested(j, nested) =>
      m.(jsonFieldNames := m.jsonFieldNames[name := j], nestedStructs := m.nestedStructs[name := nested])
    case AsRegular(j) =>
      m.(jsonFieldNames := m.jsonFieldNames[name := j], regularFields := m.regularFields + {name})
  }

  /** The maps after the loop has handled `fields[..n]` (JSON names still present); the first error ends it. */
  function ClassifyPrefix(c: Collaborators, root: Value, fields: seq<Field>, n: nat, keepNames: bool): (r: Result<Mapper>)
    requires Reflected(root).Record? && ReachedFields(root) == fields && n <= |fields|
    ensures r.Ok? ==> r.value.reflectType == FieldNames(fields) && !r.value.isProtoMessage
    decreases root, 0, n
  {
    if n == 0 then Ok(Mapper(FieldNames(fields), false, {}, {}, map[], map[]))
    else
      var m :- ClassifyPrefix(c, root, fields, n - 1, keepNames);
      ReachedBelow(root, n - 1);
      var cls :- ClassifyField(c, fields[n - 1], keepNames);
      Ok(AddField(m, fields[n - 1].name, cls))
  }

  lemma {:induction false} ClassifyErrorPersists(
    c: Collaborators, root: Value, fields: seq<Field>, n: nat, k: nat, keepNames: bool)
    requires Reflected(root).Record? && ReachedFields(root) == fields && n <= k <= |fields|
    requires ClassifyPrefix(c, root, fields, n, keepNames).Err?
    ensures ClassifyPrefix(c, root, fields, k, keepNames) == ClassifyPrefix(c, root, fields, n, keepNames)
    decreases k
  {
    if k > n {
      ClassifyErrorPersists(c, root, fields, n, k - 1, keepNames);
    }
  }

  /** One more iteration of the loop, taken from a state without error. */
  lemma ClassifyPrefixStep(c: Collaborators, root: Value, fields: seq<Field>, i: nat, keepNames: bool, m: Mapper)
    requires Reflected(root).Record? && ReachedFields(root) == fields && i < |fields|
    requires ClassifyPrefix(c, root, fields, i, keepNames) == Ok(m)
    ensures ClassifyPrefix(c, root, fields, i + 1, keepNames)
      == (match ClassifyField(c, fields[i], keepNames)
          case Ok(cls) => Ok(AddField(m, fields[i].name, cls))
          case Err(e) => Err(e))
  {
  }

  /** An iteration that ends without error classified its field without error. */
  lemma ClassifyPrefixOk(c: Collaborators, root: Value, fields: seq<Field>, i: nat, keepNames: bool, m: Mapper, m': Mapper)
    requires Reflected(root).Record? && ReachedFields(root) == fields && i < |fields|
    requires ClassifyPrefix(c, root, fields, i, keepNames) == Ok(m)
    requires ClassifyPrefix(c, root, fields, i + 1, keepNames) == Ok(m')
    ensures ClassifyField(c, fields[i], keepNames).Ok?
    ensures m' == AddField(m, fields[i].name, ClassifyField(c, fields[i], keepNames).value)
  {
    ClassifyPrefixStep(c, root, fields, i, keepNames, m);
  }

  /** The constructor's loop; the mapper it returns carries the JSON names only when `keepNames` holds. */
  method Build(c: Collaborators, destinationInstance: Value, keepNames: bool) returns (r: Result<Mapper>)
    ensures r == Classify(c, destinationInstance, keepNames)
    decreases destinationInstance, 1
  {
    if destinationInstance.Nil? {
      return Err(NilDestinationInstance);
    }
    if destinationInstance.Proto? {
      return Ok(ProtoMapper);
    }
    var reflectValue := Reflected(destinationInstance);
    if !reflectValue.Record? {
      return Err(ReflectPanic);
    }
    var m := ClassifyFields(c, destinationInstance, ReachedFields(destinationInstance), keepNames);
    if m.Err? {
      return Err(m.error);
    }
    return Ok(if keepNames then m.value else m.value.(jsonFieldNames := map[]));
  }

  /** The loop at mapper.go:63-117, filling the four maps field by field; the first error ends it. */
  method ClassifyFields(c: Collaborators, destinationInstance: Value, fields: seq<Field>, keepNames: bool)
    returns (r: Result<Mapper>)
    requires Reflected(destinationInstance).Record? && ReachedFields(destinationInstance) == fields
    ensures r == ClassifyPrefix(c, destinationInstance, fields, |fields|, keepNames)
    decreases destinationInstance, 0, |fields| + 1
  {
    var m := Mapper(FieldNames(fields), false, {}, {}, map[], map[]);
    for i := 0 to |fields|
      invariant ClassifyPrefix(c, destinationInstance, fields, i, keepNames) == Ok(m)
    {
      var next := ClassifyNext(c, destinationInstance, fields, i, keepNames, m);
      if next.Err? {
        ClassifyErrorPersists(c, destinationInstance, fields, i + 1, |fields|, keepNames);
        return next;
      }
      m := next.value;
    }
    return Ok(m);
  }

  /** One iteration of that loop, from the maps after `fields[..i]` to the maps after `fields[..i + 1]`. */
  method ClassifyNext(c: Collaborators, destinationInstance: Value, fields: seq<Field>, i: nat, keepNames: bool, m: Mapper)
    returns (r: Result<Mapper>)
    requires Reflected(destinationInstance).Record? && ReachedFields(destinationInstance) == fields && i < |fields|
    requires ClassifyPrefix(c, destinationInstance, fields, i, keepNames) == Ok(m)
    ensures r == ClassifyPrefix(c, destinationInstance, fields, i + 1, keepNames)
    decreases destinationInstance, 0, i
  {
    ClassifyPrefixStep(c, destinationInstance, fields, i, keepNames, m);
    ReachedBelow(destinationInstance, i);
    var cls := ClassifyFieldInPlace(c, fields[i], keepNames);
    if cls.Err? {
      return Err(cls.error);
    }
    return Ok(AddField(m, fields[i].name, cls.value));
  }

  /** The loop body at mapper.go:69-116 for one field: its JSON name and bucket, returning early on each error. */
  method ClassifyFieldInPlace(c: Collaborators, f: Field, keepNames: bool) returns (r: Result<FieldClass>)
    ensures r == ClassifyField(c, f, keepNames)
    decreases f.value, 2
  {
    if !f.settable {
      return Ok(Ignored);
    }
    var jsonTag := c.jsonTag(f.tag, f.name);
    if jsonTag.Err? {
      return Err(jsonTag.error);
    }
    var jsonFieldName := c.jsonTagName(jsonTag.value, f.name);
    if jsonFieldName.Err? {
      return Err(jsonFieldName.error);
    }
    if !f.interfaceable {
      return Err(ReflectPanic);
    }
    if f.value.Proto? {
      return Ok(AsProto(jsonFieldName.value));
    }
    var fieldValue := if IsPtrKind(f.value) then Pointee(f.value) else f.value;
    if fieldValue.Record? {
      var nestedMapper := Build(c, f.value, keepNames);
      if nestedMapper.Err? {
        return Err(nestedMapper.error);
      }
      return Ok(AsNested(jsonFieldName.value, nestedMapper.value));
    }
    return Ok(AsRegular(jsonFieldName.value));
  }

  /** NewMapper as written: the JSON names are computed and then left out of the mapper. */
  method NewMapper(c: Collaborators, destinationInstance: Value) returns (r: Result<Mapper>)
    ensures r == Classify(c, destinationInstance, false)
  {
    r := Build(c, destinationInstance, false);
  }

  /** NewMapper as evidently intended: the mapper keeps `jsonFieldNames`. */
  method NewMapperKeepingNames(c: Collaborators, destinationInstance: Value) returns (r: Result<Mapper>)
    ensures r == Classify(c, destinationInstance, true)
  {
    r := Build(c, destinationInstance, true);
  }

  /**
   * How mapper `m` records field `f`: absent when `f` cannot be set, else in
   * exactly its category's bucket, and with the nested struct's own mapper
   * when it is nested.
   */
  ghost predicate Records(c: Collaborators, m: Mapper, f: Field, keepNames: bool) {
    if !f.settable then
      && f.name !in m.jsonFieldNames
      && f.name !in m.protoMessageFields
      && f.name !in m.regularFields
      && f.name !in m.nestedStructs
    else
      && JsonName(c, f).Ok?
      && f.interfaceable
      && (f.name in m.protoMessageFields <==> CategoryOf(f.value) == ProtoField)
      && (f.name in m.nestedStructs <==> CategoryOf(f.value) == NestedField)
      && (f.name in m.regularFields <==> CategoryOf(f.value) == RegularField)
      && (f.name in m.nestedStructs ==> Classify(c, f.value, keepNames) == Ok(m.nestedStructs[f.name]))
  }

  /** A settable field is listed under the JSON name its tag gives. */
  ghost predicate NamedAs(c: Collaborators, m: Mapper, f: Field) {
    f.settable ==> JsonName(c, f).Ok? && f.name in m.jsonFieldNames && m.jsonFieldNames[f.name] == JsonName(c, f).value
  }

  /** The names `m` has put in one of its three buckets. */
  function Buckets(m: Mapper): set<string> {
    m.protoMessageFields + m.regularFields + m.nestedStructs.Keys
  }

  /** The names `m` mentions in any of its maps. */
  function Known(m: Mapper): set<string> {
    m.jsonFieldNames.Keys + Buckets(m)
  }

  /** `a` and `b` record `name` identically. */
  ghost predicate SameAt(a: Mapper, b: Mapper, name: string) {
    && (name in a.jsonFieldNames <==> name in b.jsonFieldNames)
    && (name in a.jsonFieldNames ==> a.jsonFieldNames[name] == b.jsonFieldNames[name])
    && (name in a.protoMessageFields <==> name in b.protoMessageFields)
    && (name in a.regularFields <==> name in b.regularFields)
    && (name in a.nestedStructs <==> name in b.nestedStructs)
    && (name in a.nestedStructs ==> a.nestedStructs[name] == b.nestedStructs[name])
  }

  lemma RecordsFrame(c: Collaborators, a: Mapper, b: Mapper, g: Field, keepNames: bool)
    requires SameAt(a, b, g.name) && Records(c, a, g, keepNames) && NamedAs(c, a, g)
    ensures Records(c, b, g, keepNames) && NamedAs(c, b, g)
  {
  }

  /** Recording a field leaves every other name as it was and records the field as Records demands. */
  lemma AddFieldRecords(c: Collaborators, m: Mapper, f: Field, cls: FieldClass, keepNames: bool)
    requires ClassifyField(c, f, keepNames) == Ok(cls)
    requires f.name !in Known(m)
    ensures Records(c, AddField(m, f.name, cls), f, keepNames) && NamedAs(c, AddField(m, f.name, cls), f)
    ensures forall name :: name != f.name ==> SameAt(m, AddField(m, f.name, cls), name)
    ensures f.settable ==>
      && AddField(m, f.name, cls).jsonFieldNames.Keys == m.jsonFieldNames.Keys + {f.name}
      && Buckets(AddField(m, f.name, cls)) == Buckets(m) + {f.name}
    ensures !f.settable ==> AddField(m, f.name, cls) == m
    ensures Known(AddField(m, f.name, cls)) <= Known(m) + {f.name}
  {
  }

  /** What the loop has established after `fields[..n]`: each handled field recorded, and nothing else known. */
  ghost predicate Partitioned(c: Collaborators, m: Mapper, fields: seq<Field>, n: nat, keepNames: bool)
    requires n <= |fields|
  {
    && (forall k :: 0 <= k < n ==> Records(c, m, fields[k], keepNames) && NamedAs(c, m, fields[k]))
    && m.jsonFieldNames.Keys == SettableNames(fields, n) && Buckets(m) == SettableNames(fields, n)
    && Known(m) <= Names(fields, n)
  }

  /** One iteration keeps Partitioned. */
  lemma PartitionedStep(c: Collaborators, prev: Mapper, fields: seq<Field>, n: nat, keepNames: bool, cls: FieldClass)
    requires 0 < n <= |fields| && UniqueNames(fields)
    requires Partitioned(c, prev, fields, n - 1, keepNames)
    requires ClassifyField(c, fields[n - 1], keepNames) == Ok(cls)
    ensures Partitioned(c, AddField(prev, fields[n - 1].name, cls), fields, n, keepNames)
  {
    var f := fields[n - 1];
    var m := AddField(prev, f.name, cls);
    NameNotEarlier(fields, n - 1, n - 1);
    AddFieldRecords(c, prev, f, cls, keepNames);
    forall k | 0 <= k < n - 1
      ensures Records(c, m, fields[k], keepNames) && NamedAs(c, m, fields[k])
    {
      RecordsFrame(c, prev, m, fields[k], keepNames);
    }
  }

  lemma {:induction false} ClassifyPrefixPartition(
    c: Collaborators, root: Value, fields: seq<Field>, n: nat, keepNames: bool, m: Mapper)
    requires Reflected(root).Record? && ReachedFields(root) == fields && n <= |fields|
    requires UniqueNames(fields)
    requires ClassifyPrefix(c, root, fields, n, keepNames) == Ok(m)
    ensures Partitioned(c, m, fields, n, keepNames)
    ensures m.reflectType == FieldNames(fields) && !m.isProtoMessage
    decreases n
  {
    if n > 0 {
      var prev := ClassifyPrefix(c, root, fields, n - 1, keepNames).value;
      ClassifyPrefixPartition(c, root, fields, n - 1, keepNames, prev);
      ClassifyPrefixOk(c, root, fields, n - 1, keepNames, prev, m);
      PartitionedStep(c, prev, fields, n, keepNames, ClassifyField(c, fields[n - 1], keepNames).value);
    }
  }

  /**
   * The classifier's promise for a struct: every field that cannot be set is
   * in no map, every other one is in exactly one bucket chosen in the order
   * proto, nested, regular, and the mapper lists the struct's field names in
   * order. The JSON names are in the mapper exactly when they are kept.
   */
  lemma ClassifyPartition(c: Collaborators, destinationInstance: Value, keepNames: bool, m: Mapper)
    requires Classify(c, destinationInstance, keepNames) == Ok(m)
    requires !destinationInstance.Proto?
    ensures Reflected(destinationInstance).Record?
    ensures
      var fields := ReachedFields(destinationInstance);
      UniqueNames(fields) ==>
        && (forall k :: 0 <= k < |fields| ==> Records(c, m, fields[k], keepNames))
        && (keepNames ==> forall k :: 0 <= k < |fields| ==> NamedAs(c, m, fields[k]))
        && Buckets(m) == SettableNames(fields, |fields|)
        && m.jsonFieldNames.Keys == (if keepNames then SettableNames(fields, |fields|) else {})
  {
    var fields := ReachedFields(destinationInstance);
    if UniqueNames(fields) {
      var raw := ClassifyPrefix(c, destinationInstance, fields, |fields|, keepNames).value;
      ClassifyPrefixPartition(c, destinationInstance, fields, |fields|, keepNames, raw);
      forall k | 0 <= k < |fields|
        ensures Records(c, m, fields[k], keepNames)
      {
        assert Records(c, raw, fields[k], keepNames);
      }
    }
  }

  /** A tag-parse error, or an error of the nested NewMapper, aborts construction and is returned unchanged. */
  lemma ClassifyFirstError(c: Collaborators, destinationInstance: Value, keepNames: bool, k: nat, e: Error)
    requires !destinationInstance.Nil? && !destinationInstance.Proto?
    requires Reflected(destinationInstance).Record? && k < |ReachedFields(destinationInstance)|
    requires ClassifyPrefix(c, destinationInstance, ReachedFields(destinationInstance), k, keepNames).Ok?
    requires ReachedFields(destinationInstance)[k].settable
    requires JsonName(c, ReachedFields(destinationInstance)[k]) == Err(e)
          || (&& JsonName(c, ReachedFields(destinationInstance)[k]).Ok?
              && ReachedFields(destinationInstance)[k].interfaceable
              && CategoryOf(ReachedFields(destinationInstance)[k].value) == NestedField
              && Classify(c, ReachedFields(destinationInstance)[k].value, keepNames) == Err(e))
    ensures Classify(c, destinationInstance, keepNames) == Err(e)
  {
    var fields := ReachedFields(destinationInstance);
    ReachedBelow(destinationInstance, k);
    ClassifyPrefixStep(c, destinationInstance, fields, k, keepNames,
      ClassifyPrefix(c, destinationInstance, fields, k, keepNames).value);
    ClassifyFieldFails(c, fields[k], keepNames, e);
    ClassifyErrorPersists(c, destinationInstance, fields, k + 1, |fields|, keepNames);
  }

  /** The mapper for a struct none of whose fields can be set: the field names and nothing else. */
  function NamesOnly(fields: seq<Field>): Mapper {
    Mapper(FieldNames(fields), false, {}, {}, map[], map[])
  }

  lemma {:induction false} ClassifyPrefixNothingSettable(
    c: Collaborators, root: Value, fields: seq<Field>, n: nat, keepNames: bool)
    requires Reflected(root).Record? && ReachedFields(root) == fields && n <= |fields|
    requires !Addressable(root)
    ensures ClassifyPrefix(c, root, fields, n, keepNames) == Ok(NamesOnly(fields))
    decreases n
  {
    if n > 0 {
      ClassifyPrefixNothingSettable(c, root, fields, n - 1, keepNames);
      ClassifyPrefixStep(c, root, fields, n - 1, keepNames, NamesOnly(fields));
    }
  }

  /**
   * A struct handed over by value is a copy, so none of its fields can be
   * set: its mapper lists the field names and classifies nothing, and no tag
   * of it is ever parsed.
   */
  lemma ByValueClassifiesNothing(c: Collaborators, fields: seq<Field>, keepNames: bool)
    ensures Classify(c, Record(fields), keepNames) == Ok(NamesOnly(fields))
  {
    ClassifyPrefixNothingSettable(c, Record(fields), ReachedFields(Record(fields)), |fields|, keepNames);
  }

  /**
   * A settable struct field held by value is classified through the copy
   * `fieldValue.Interface()` returns: its nested mapper lists the inner
   * field names and nothing else. Behind a pointer the nested struct is
   * classified in full.
   */
  lemma NestedByValueNamesOnly(c: Collaborators, destinationInstance: Value, keepNames: bool, m: Mapper, k: nat)
    requires Classify(c, destinationInstance, keepNames) == Ok(m)
    requires !destinationInstance.Proto?
    requires Reflected(destinationInstance).Record? && UniqueNames(ReachedFields(destinationInstance))
    requires k < |ReachedFields(destinationInstance)|
    requires ReachedFields(destinationInstance)[k].settable && ReachedFields(destinationInstance)[k].value.Record?
    ensures ReachedFields(destinationInstance)[k].name in m.nestedStructs
    ensures m.nestedStructs[ReachedFields(destinationInstance)[k].name]
         == NamesOnly(ReachedFields(destinationInstance)[k].value.fields)
  {
    var f := ReachedFields(destinationInstance)[k];
    ClassifyPartition(c, destinationInstance, keepNames, m);
    assert Records(c, m, f, keepNames);
    ByValueClassifiesNothing(c, f.value.fields, keepNames);
  }

  /** The two ways one settable field makes the loop fail with a tag or nested error. */
  lemma ClassifyFieldFails(c: Collaborators, f: Field, keepNames: bool, e: Error)
    requires f.settable
    requires JsonName(c, f) == Err(e)
          || (&& JsonName(c, f).Ok? && f.interfaceable && CategoryOf(f.value) == NestedField
              && Classify(c, f.value, keepNames) == Err(e))
    ensures ClassifyField(c, f, keepNames) == Err(e)
  {
  }

  // ---------------------------------------------------------------------
  // Decode traversal
  // ---------------------------------------------------------------------

  /** The destination's fields as the loop has left them, `mappedBody`, and the error that stopped the loop, if any. */
  datatype Progress = Progress(fields: seq<Field>, mapped: map<string, Mapped>, err: Option<Error>)

  /** Decoding changes field values only, never the number of fields, their names or their flags. */
  ghost predicate SameShape(before: seq<Field>, after: seq<Field>) {
    && |after| == |before|
    && (forall j :: 0 <= j < |before| ==>
          && after[j].name == before[j].name
          && after[j].settable == before[j].settable
          && after[j].interfaceable == before[j].interfaceable)
  }

  /** One iteration changes field `i` at most. */
  ghost predicate OnlyAt(before: seq<Field>, after: seq<Field>, i: nat) {
    && i < |before| == |after|
    && after == before[i := after[i]]
    && after[i].name == before[i].name
    && after[i].settable == before[i].settable
    && after[i].interfaceable == before[i].interfaceable
  }

  /** Field `i` is named in the mapper and its JSON name is a key of the parsed body. */
  predicate Present(m: Mapper, tempDest: map<string, Json>, i: nat) {
    && i < |m.reflectType|
    && m.reflectType[i] in m.jsonFieldNames
    && m.jsonFieldNames[m.reflectType[i]] in tempDest
  }

  /** `after` differs from `before` at most under `name`. */
  ghost predicate MappedOnlyAt(before: map<string, Mapped>, after: map<string, Mapped>, name: string) {
    forall x :: x != name ==> (x in after <==> x in before) && (x in before ==> after[x] == before[x])
  }

  /** Under any other key, `after` has the same entry as `before`, or none when `before` has none. */
  lemma MappedKept(before: map<string, Mapped>, after: map<string, Mapped>, name: string, x: string)
    requires MappedOnlyAt(before, after, name) && x != name
    ensures x in after <==> x in before
    ensures x in before ==> after[x] == before[x]
  {
    assert x in after <==> x in after - {name};
    assert x in before <==> x in before - {name};
    if x in before {
      assert after[x] == (after - {name})[x];
    }
  }

  /** UnmarshalByReflection, the checks on the receiver and the destination included. */
  function Unmarshal(c: Collaborators, m: Option<Mapper>, body: Bytes, dest: Value, unmarshalOptions: Option<UnmarshalOptions>)
    : Written<Value>
  {
    if m.None? then Written(dest, Some(NilMapper))
    else if dest.Nil? then Written(dest, Some(NilDestination))
    else UnmarshalWith(c, m.value, body, dest, UnmarshalOptionsOrDefault(unmarshalOptions))
  }

  /** The decode for a non-nil mapper and destination and defaulted options; the recursion for nested structs enters here. */
  function UnmarshalWith(c: Collaborators, m: Mapper, body: Bytes, dest: Value, opts: UnmarshalOptions): (r: Written<Value>)
    ensures dest.Pointer? ==> r.dest.Pointer?
    decreases m, 4
  {
    if m.isProtoMessage then
      if !dest.Proto? then Written(dest, Some(DestinationNotProtoMessage))
      else
        var w := c.protoUnmarshal(opts, body, dest.msg);
        Written(dest.(msg := w.dest), w.err)
    else
      match c.jsonUnmarshalObject(body)
      case Err(e) => Written(dest, Some(e))
      case Ok(tempDest) =>
        match Reflected(dest)
        case Record(_) =>
          var fields := ReachedFields(dest);   // fieldValue.Set and Addr need an addressable struct
          var p := UnmarshalPrefix(c, m, tempDest, fields, |fields|, opts);
          if p.err.Some? then Written(WithReflected(dest, Record(p.fields)), p.err)
          else
            var w := c.valueToReflectStruct(p.mapped, Record(p.fields));
            Written(WithReflected(dest, w.dest), w.err)
        case _ => Written(dest, Some(ReflectPanic))   // NumField of a non-struct
  }

  /** The loop state after fields `0 .. n-1`; the first error ends it. */
  function UnmarshalPrefix(
    c: Collaborators, m: Mapper, tempDest: map<string, Json>, fields: seq<Field>, n: nat, opts: UnmarshalOptions)
    : (r: Progress)
    requires n <= |fields|
    ensures SameShape(fields, r.fields)
    ensures forall j :: n <= j < |fields| ==> r.fields[j] == fields[j]
    decreases m, 3, n
  {
    if n == 0 then Progress(fields, map[], None)
    else
      var prev := UnmarshalPrefix(c, m, tempDest, fields, n - 1, opts);
      if prev.err.Some? then prev
      else UnmarshalField(c, m, tempDest, prev.fields, n - 1, prev.mapped, opts)
  }

  /** The loop keeps the number, names and flags of the fields, and leaves the fields it has not reached untouched. */
  lemma {:induction false} UnmarshalPrefixShape(
    c: Collaborators, m: Mapper, tempDest: map<string, Json>, fields: seq<Field>, n: nat, opts: UnmarshalOptions)
    requires n <= |fields|
    ensures SameShape(fields, UnmarshalPrefix(c, m, tempDest, fields, n, opts).fields)
    ensures forall j :: n <= j < |fields| ==> UnmarshalPrefix(c, m, tempDest, fields, n, opts).fields[j] == fields[j]
  {
    if n > 0 {
      UnmarshalPrefixShape(c, m, tempDest, fields, n - 1, opts);
      var prev := UnmarshalPrefix(c, m, tempDest, fields, n - 1, opts);
      if prev.err.None? {
        UnmarshalFieldCases(c, m, tempDest, prev.fields, n - 1, prev.mapped, opts);
      }
    }
  }

  /** One more iteration of the loop, taken from a state without error. */
  lemma UnmarshalPrefixStep(
    c: Collaborators, m: Mapper, tempDest: map<string, Json>, fields0: seq<Field>, i: nat, opts: UnmarshalOptions,
    fields: seq<Field>, mapped: map<string, Mapped>)
    requires i < |fields0|
    requires UnmarshalPrefix(c, m, tempDest, fields0, i, opts) == Progress(fields, mapped, None)
    ensures i < |fields|
    ensures UnmarshalPrefix(c, m, tempDest, fields0, i + 1, opts) == UnmarshalField(c, m, tempDest, fields, i, mapped, opts)
  {
  }

  /** A message decoded into `msgValue`, which becomes field `i`; it is mapped under the Go name when the decode succeeds. */
  function DecodeProtoInto(
    c: Collaborators, fields: seq<Field>, i: nat, mapped: map<string, Mapped>, name: string,
    msgValue: Value, data: Bytes, opts: UnmarshalOptions)
    : (r: Progress)
    requires i < |fields| && msgValue.Proto?
    ensures OnlyAt(fields, r.fields, i)
  {
    var w := c.protoUnmarshal(opts, data, msgValue.msg);
    var decoded := Proto(msgValue.ptr, w.dest);
    var updated := SetFieldValue(fields, i, decoded);
    if w.err.Some? then Progress(updated, mapped, w.err)
    else Progress(updated, mapped[name := FromField(decoded)], None)
  }

  /** One iteration of the loop at mapper.go:184-269. */
  function UnmarshalField(
    c: Collaborators, m: Mapper, tempDest: map<string, Json>, fields: seq<Field>, i: nat,
    mapped: map<string, Mapped>, opts: UnmarshalOptions)
    : (r: Progress)
    requires i < |fields|
    ensures |r.fields| == |fields|
    decreases m, 2
  {
    if i >= |m.reflectType| then Progress(fields, mapped, Some(ReflectPanic))   // m.reflectType.Field(i)
    else
      var name := m.reflectType[i];
      var f := fields[i];
      if name !in m.jsonFieldNames then Progress(fields, mapped, None)
      else if m.jsonFieldNames[name] !in tempDest then Progress(fields, mapped, None)
      else
        var bodyField := tempDest[m.jsonFieldNames[name]];
        if name in m.regularFields then Progress(fields, mapped[name := FromBody(bodyField)], None)
        else if name in m.protoMessageFields then
          match c.jsonMarshal(bodyField)
          case Err(e) => Progress(fields, mapped, Some(e))
          case Ok(data) =>
            if IsPtrKind(f.value) then
              if !f.settable then Progress(fields, mapped, Some(ReflectPanic))   // fieldValue.Set
              else if !f.value.Proto? then Progress(fields, mapped, Some(DecodeFieldNotProtoMessage(name)))
              else DecodeProtoInto(c, fields, i, mapped, name, Proto(true, c.newMessage(f.value.msg.typeName)), data, opts)
            else if !f.interfaceable then Progress(fields, mapped, Some(ReflectPanic))   // fieldValue.Interface()
            else if !f.value.Proto? then Progress(fields, mapped, Some(DecodeFieldNotProtoMessage(name)))
            else DecodeProtoInto(c, fields, i, mapped, name, f.value, data, opts)
        else if name in m.nestedStructs then
          match c.jsonMarshal(bodyField)
          case Err(e) => Progress(fields, mapped, Some(e))
          case Ok(data) =>
            if !f.settable then Progress(fields, mapped, Some(ReflectPanic))   // fieldValue.Addr().Interface()
            else
              var w := UnmarshalWith(c, m.nestedStructs[name], data, Pointer(f.value), opts);
              var updated := SetFieldValue(fields, i, w.dest.target);
              if w.err.Some? then Progress(updated, mapped, w.err)
              else Progress(updated, mapped[name := FromField(w.dest)], None)
        else Progress(fields, mapped, Some(DecodeFieldNotHandled(name)))
  }

  /**
   * One field of the loop: only this field and only the `mappedBody` entry
   * under its Go name can change; a field without a mapped JSON name, or
   * whose JSON name the body lacks, is skipped; a regular field is copied
   * verbatim; a field in no bucket is not handled; a mapper shorter than the
   * destination panics.
   */
  lemma UnmarshalFieldCases(
    c: Collaborators, m: Mapper, tempDest: map<string, Json>, fields: seq<Field>, i: nat,
    mapped: map<string, Mapped>, opts: UnmarshalOptions)
    requires i < |fields|
    ensures
      var r := UnmarshalField(c, m, tempDest, fields, i, mapped, opts);
      && OnlyAt(fields, r.fields, i)
      && (i >= |m.reflectType| ==> r == Progress(fields, mapped, Some(ReflectPanic)))
      && (i < |m.reflectType| ==> MappedOnlyAt(mapped, r.mapped, m.reflectType[i]))
      && (i < |m.reflectType| && !Present(m, tempDest, i) ==> r == Progress(fields, mapped, None))
      && (Present(m, tempDest, i) && m.reflectType[i] in m.regularFields ==>
            r == Progress(fields, mapped[m.reflectType[i] := FromBody(tempDest[m.jsonFieldNames[m.reflectType[i]]])], None))
      && (Present(m, tempDest, i) && m.reflectType[i] !in Buckets(m) ==>
            r == Progress(fields, mapped, Some(DecodeFieldNotHandled(m.reflectType[i]))))
  {
  }

  lemma {:induction false} UnmarshalErrorPersists(
    c: Collaborators, m: Mapper, tempDest: map<string, Json>, fields: seq<Field>, n: nat, k: nat, opts: UnmarshalOptions)
    requires n <= k <= |fields|
    requires UnmarshalPrefix(c, m, tempDest, fields, n, opts).err.Some?
    ensures UnmarshalPrefix(c, m, tempDest, fields, k, opts) == UnmarshalPrefix(c, m, tempDest, fields, n, opts)
    decreases k
  {
    if k > n {
      UnmarshalErrorPersists(c, m, tempDest, fields, n, k - 1, opts);
    }
  }

  /** UnmarshalByReflection: the checks on the receiver and the destination, then the decode proper. */
  method UnmarshalByReflection(
    c: Collaborators, m: Option<Mapper>, body: Bytes, dest: Value, unmarshalOptions: Option<UnmarshalOptions>)
    returns (r: Written<Value>)
    ensures r == Unmarshal(c, m, body, dest, unmarshalOptions)
  {
    if m.None? {
      return Written(dest, Some(NilMapper));
    }
    if dest.Nil? {
      return Written(dest, Some(NilDestination));
    }
    var opts := if unmarshalOptions.None? then DefaultUnmarshalOptions else unmarshalOptions.value;
    r := UnmarshalInto(c, m.value, body, dest, opts);
  }

  /** The body of UnmarshalByReflection past its nil checks: a loop writing fields in place and filling `mappedBody`. */
  method UnmarshalInto(c: Collaborators, m: Mapper, body: Bytes, dest: Value, opts: UnmarshalOptions)
    returns (r: Written<Value>)
    ensures r == UnmarshalWith(c, m, body, dest, opts)
    decreases m, 4
  {
    if m.isProtoMessage {
      if !dest.Proto? {
        return Written(dest, Some(DestinationNotProtoMessage));
      }
      var w := c.protoUnmarshal(opts, body, dest.msg);
      return Written(dest.(msg := w.dest), w.err);
    }
    var tempDest := c.jsonUnmarshalObject(body);
    if tempDest.Err? {
      return Written(dest, Some(tempDest.error));
    }
    var reflectValue := Reflected(dest);
    if !reflectValue.Record? {
      return Written(dest, Some(ReflectPanic));
    }
    var fields := ReachedFields(dest);
    UnmarshalWithOfRecord(c, m, body, dest, opts, tempDest.value, fields);
    var p := UnmarshalFields(c, m, tempDest.value, fields, opts);
    if p.err.Some? {
      return Written(WithReflected(dest, Record(p.fields)), p.err);
    }
    var w := c.valueToReflectStruct(p.mapped, Record(p.fields));
    return Written(WithReflected(dest, w.dest), w.err);
  }

  /** UnmarshalWith once the mapper is not a message mapper, the body has parsed and the destination is a struct. */
  lemma UnmarshalWithOfRecord(
    c: Collaborators, m: Mapper, body: Bytes, dest: Value, opts: UnmarshalOptions,
    tempDest: map<string, Json>, fields: seq<Field>)
    requires !m.isProtoMessage && c.jsonUnmarshalObject(body) == Ok(tempDest)
    requires Reflected(dest).Record? && ReachedFields(dest) == fields
    ensures
      var p := UnmarshalPrefix(c, m, tempDest, fields, |fields|, opts);
      UnmarshalWith(c, m, body, dest, opts)
        == if p.err.Some? then Written(WithReflected(dest, Record(p.fields)), p.err)
           else
             var w := c.valueToReflectStruct(p.mapped, Record(p.fields));
             Written(WithReflected(dest, w.dest), w.err)
  {
  }

  /** The loop at mapper.go:184-269: each field in turn, filling `mappedBody`; the first error ends the loop. */
  method UnmarshalFields(c: Collaborators, m: Mapper, tempDest: map<string, Json>, fields0: seq<Field>, opts: UnmarshalOptions)
    returns (p: Progress)
    ensures p == UnmarshalPrefix(c, m, tempDest, fields0, |fields0|, opts)
    decreases m, 3
  {
    var fields := fields0;
    var mappedBody: map<string, Mapped> := map[];
    for i := 0 to |fields0|
      invariant UnmarshalPrefix(c, m, tempDest, fields0, i, opts) == Progress(fields, mappedBody, None)
    {
      UnmarshalPrefixStep(c, m, tempDest, fields0, i, opts, fields, mappedBody);
      p := UnmarshalFieldInPlace(c, m, tempDest, fields, i, mappedBody, opts);
      fields := p.fields;
      mappedBody := p.mapped;
      if p.err.Some? {
        UnmarshalErrorPersists(c, m, tempDest, fields0, i + 1, |fields0|, opts);
        return p;
      }
    }
    return Progress(fields, mappedBody, None);
  }

  /** The loop body at mapper.go:184-269 for field `i`, returning early on each error. */
  method UnmarshalFieldInPlace(
    c: Collaborators, m: Mapper, tempDest: map<string, Json>, fields: seq<Field>, i: nat,
    mappedBody: map<string, Mapped>, opts: UnmarshalOptions)
    returns (p: Progress)
    requires i < |fields|
    ensures p == UnmarshalField(c, m, tempDest, fields, i, mappedBody, opts)
    decreases m, 2
  {
    if i >= |m.reflectType| {
      return Progress(fields, mappedBody, Some(ReflectPanic));
    }
    var fieldName := m.reflectType[i];
    var fieldValue := fields[i].value;
    if fieldName !in m.jsonFieldNames {
      return Progress(fields, mappedBody, None);
    }
    var jsonFieldName := m.jsonFieldNames[fieldName];
    if jsonFieldName !in tempDest {
      return Progress(fields, mappedBody, None);
    }
    var bodyField := tempDest[jsonFieldName];
    if fieldName in m.regularFields {
      return Progress(fields, mappedBody[fieldName := FromBody(bodyField)], None);
    }
    if fieldName in m.protoMessageFields {
      var marshaledField := c.jsonMarshal(bodyField);
      if marshaledField.Err? {
        return Progress(fields, mappedBody, Some(marshaledField.error));
      }
      if IsPtrKind(fieldValue) {
        if !fields[i].settable {
          return Progress(fields, mappedBody, Some(ReflectPanic));
        }
        if !fieldValue.Proto? {
          return Progress(fields, mappedBody, Some(DecodeFieldNotProtoMessage(fieldName)));
        }
        fieldValue := Proto(true, c.newMessage(fieldValue.msg.typeName));
      } else {
        if !fields[i].interfaceable {
          return Progress(fields, mappedBody, Some(ReflectPanic));
        }
        if !fieldValue.Proto? {
          return Progress(fields, mappedBody, Some(DecodeFieldNotProtoMessage(fieldName)));
        }
      }
      var w := c.protoUnmarshal(opts, marshaledField.value, fieldValue.msg);
      var decoded := Proto(fieldValue.ptr, w.dest);
      var updated := SetFieldValue(fields, i, decoded);
      if w.err.Some? {
        return Progress(updated, mappedBody, w.err);
      }
      return Progress(updated, mappedBody[fieldName := FromField(decoded)], None);
    }
    if fieldName in m.nestedStructs {
      var marshaledNestedBody := c.jsonMarshal(bodyField);
      if marshaledNestedBody.Err? {
        return Progress(fields, mappedBody, Some(marshaledNestedBody.error));
      }
      if !fields[i].settable {
        return Progress(fields, mappedBody, Some(ReflectPanic));
      }
      var w := UnmarshalInto(c, m.nestedStructs[fieldName], marshaledNestedBody.value, Pointer(fieldValue), opts);
      var updated := SetFieldValue(fields, i, w.dest.target);
      if w.err.Some? {
        return Progress(updated, mappedBody, w.err);
      }
      return Progress(updated, mappedBody[fieldName := FromField(w.dest)], None);
    }
    return Progress(fields, mappedBody, Some(DecodeFieldNotHandled(fieldName)));
  }

  // ---------------------------------------------------------------------
  // Properties of the decode traversal
  // ---------------------------------------------------------------------

  /**
   * The order of the checks: a nil mapper before a nil destination; a
   * message mapper refuses a destination that is not a message and
   * otherwise hands the whole body to the protobuf codec; a body that does
   * not parse is reported before any field is touched.
   */
  lemma UnmarshalChecks(c: Collaborators, m: Option<Mapper>, body: Bytes, dest: Value, o: Option<UnmarshalOptions>)
    ensures m.None? ==> Unmarshal(c, m, body, dest, o) == Written(dest, Some(NilMapper))
    ensures m.Some? && dest.Nil? ==> Unmarshal(c, m, body, dest, o) == Written(dest, Some(NilDestination))
    ensures m.Some? && !dest.Nil? && m.value.isProtoMessage && !dest.Proto? ==>
      Unmarshal(c, m, body, dest, o) == Written(dest, Some(DestinationNotProtoMessage))
    ensures m.Some? && m.value.isProtoMessage && dest.Proto? ==>
      var w := c.protoUnmarshal(UnmarshalOptionsOrDefault(o), body, dest.msg);
      Unmarshal(c, m, body, dest, o) == Written(Proto(dest.ptr, w.dest), w.err)
    ensures m.Some? && !dest.Nil? && !m.value.isProtoMessage && c.jsonUnmarshalObject(body).Err? ==>
      Unmarshal(c, m, body, dest, o) == Written(dest, Some(c.jsonUnmarshalObject(body).error))
  {
  }

  /** The loop reads the parsed body only under the JSON names the mapper lists: other keys are ignored. */
  lemma {:induction false} UnmarshalReadsMappedKeys(
    c: Collaborators, m: Mapper, t1: map<string, Json>, t2: map<string, Json>, fields: seq<Field>, n: nat, opts: UnmarshalOptions)
    requires n <= |fields|
    requires forall name :: name in m.jsonFieldNames ==>
      && (m.jsonFieldNames[name] in t1 <==> m.jsonFieldNames[name] in t2)
      && (m.jsonFieldNames[name] in t1 ==> t1[m.jsonFieldNames[name]] == t2[m.jsonFieldNames[name]])
    ensures UnmarshalPrefix(c, m, t1, fields, n, opts) == UnmarshalPrefix(c, m, t2, fields, n, opts)
    decreases n
  {
    if n > 0 {
      UnmarshalReadsMappedKeys(c, m, t1, t2, fields, n - 1, opts);
    }
  }

  /** With no JSON names in the mapper every field is skipped: nothing is written and `mappedBody` stays empty. */
  lemma {:induction false} NoNamesMapsNothing(
    c: Collaborators, m: Mapper, tempDest: map<string, Json>, fields: seq<Field>, n: nat, opts: UnmarshalOptions)
    requires n <= |fields| && n <= |m.reflectType|
    requires m.jsonFieldNames == map[]
    ensures UnmarshalPrefix(c, m, tempDest, fields, n, opts) == Progress(fields, map[], None)
    decreases n
  {
    if n > 0 {
      NoNamesMapsNothing(c, m, tempDest, fields, n - 1, opts);
      UnmarshalFieldCases(c, m, tempDest, fields, n - 1, map[], opts);
    }
  }

  /**
   * A regular field present in the body is copied verbatim into
   * `mappedBody` under its Go name, provided the mapper's field list is the
   * destination's and the loop ends without error.
   */
  lemma RegularFieldCopied(
    c: Collaborators, m: Mapper, tempDest: map<string, Json>, fields: seq<Field>, n: nat, k: nat, opts: UnmarshalOptions)
    requires k < n <= |fields|
    requires m.reflectType == FieldNames(fields) && UniqueNames(fields)
    requires Present(m, tempDest, k) && fields[k].name in m.regularFields
    requires UnmarshalPrefix(c, m, tempDest, fields, n, opts).err.None?
    ensures fields[k].name in UnmarshalPrefix(c, m, tempDest, fields, n, opts).mapped
    ensures UnmarshalPrefix(c, m, tempDest, fields, n, opts).mapped[fields[k].name]
         == FromBody(tempDest[m.jsonFieldNames[fields[k].name]])
  {
    var x := fields[k].name;
    if UnmarshalPrefix(c, m, tempDest, fields, k + 1, opts).err.Some? {
      UnmarshalErrorPersists(c, m, tempDest, fields, k + 1, n, opts);   // an error after k + 1 fields would last to n
    }
    var prev := UnmarshalPrefix(c, m, tempDest, fields, k, opts);
    assert prev.err.None?;
    UnmarshalPrefixStep(c, m, tempDest, fields, k, opts, prev.fields, prev.mapped);
    UnmarshalFieldCases(c, m, tempDest, prev.fields, k, prev.mapped, opts);
    MappedEntryKept(c, m, tempDest, fields, k + 1, n, x, opts);
  }

  /** Fields whose Go names differ from `x` leave the `mappedBody` entry under `x` as it was. */
  lemma {:induction false} MappedEntryKept(
    c: Collaborators, m: Mapper, tempDest: map<string, Json>, fields: seq<Field>, n0: nat, n: nat, x: string, opts: UnmarshalOptions)
    requires n0 <= n <= |fields| && n <= |m.reflectType|
    requires forall j :: n0 <= j < n ==> m.reflectType[j] != x
    requires UnmarshalPrefix(c, m, tempDest, fields, n, opts).err.None?
    ensures x in UnmarshalPrefix(c, m, tempDest, fields, n, opts).mapped <==> x in UnmarshalPrefix(c, m, tempDest, fields, n0, opts).mapped
    ensures x in UnmarshalPrefix(c, m, tempDest, fields, n0, opts).mapped ==>
      UnmarshalPrefix(c, m, tempDest, fields, n, opts).mapped[x] == UnmarshalPrefix(c, m, tempDest, fields, n0, opts).mapped[x]
    decreases n
  {
    if n > n0 {
      var prev := UnmarshalPrefix(c, m, tempDest, fields, n - 1, opts);
      assert prev.err.None?;
      MappedEntryKept(c, m, tempDest, fields, n0, n - 1, x, opts);
      PrefixKeepsOthers(c, m, tempDest, fields, n, x, opts);
    }
  }

  /** Field `n - 1` leaves the `mappedBody` entry under every other Go name as it was. */
  lemma PrefixKeepsOthers(c: Collaborators, m: Mapper, tempDest: map<string, Json>, fields: seq<Field>, n: nat, x: string, opts: UnmarshalOptions)
    requires 0 < n <= |fields| && n <= |m.reflectType| && m.reflectType[n - 1] != x
    requires UnmarshalPrefix(c, m, tempDest, fields, n - 1, opts).err.None?
    ensures x in UnmarshalPrefix(c, m, tempDest, fields, n, opts).mapped <==> x in UnmarshalPrefix(c, m, tempDest, fields, n - 1, opts).mapped
    ensures x in UnmarshalPrefix(c, m, tempDest, fields, n - 1, opts).mapped ==>
      UnmarshalPrefix(c, m, tempDest, fields, n, opts).mapped[x] == UnmarshalPrefix(c, m, tempDest, fields, n - 1, opts).mapped[x]
  {
    var prev := UnmarshalPrefix(c, m, tempDest, fields, n - 1, opts);
    UnmarshalPrefixStep(c, m, tempDest, fields, n - 1, opts, prev.fields, prev.mapped);
    UnmarshalFieldKeepsOthers(c, m, tempDest, prev.fields, n - 1, prev.mapped, opts, x);
  }

  /** One field of the loop leaves the `mappedBody` entry under every other Go name as it was. */
  lemma UnmarshalFieldKeepsOthers(
    c: Collaborators, m: Mapper, tempDest: map<string, Json>, fields: seq<Field>, i: nat,
    mapped: map<string, Mapped>, opts: UnmarshalOptions, x: string)
    requires i < |fields| && i < |m.reflectType| && x != m.reflectType[i]
    ensures x in UnmarshalField(c, m, tempDest, fields, i, mapped, opts).mapped <==> x in mapped
    ensures x in mapped ==> UnmarshalField(c, m, tempDest, fields, i, mapped, opts).mapped[x] == mapped[x]
  {
    UnmarshalFieldCases(c, m, tempDest, fields, i, mapped, opts);
    MappedKept(mapped, UnmarshalField(c, m, tempDest, fields, i, mapped, opts).mapped, m.reflectType[i], x);
  }

  /**
   * The mapper NewMapper builds, as written: decoding the very struct type it
   * was built from passes an empty `mappedBody` on, whatever the body holds.
   */
  lemma AsWrittenDecodesNothing(
    c: Collaborators, instance: Value, m: Mapper, body: Bytes, dest: Value, opts: UnmarshalOptions)
    requires Classify(c, instance, false) == Ok(m) && !instance.Proto?
    requires Reflected(dest).Record? && |Reflected(dest).fields| <= |Reflected(instance).fields|
    requires c.jsonUnmarshalObject(body).Ok?
    ensures
      var w := c.valueToReflectStruct(map[], Record(ReachedFields(dest)));
      UnmarshalWith(c, m, body, dest, opts) == Written(WithReflected(dest, w.dest), w.err)
  {
    var fields := ReachedFields(dest);
    NoNamesMapsNothing(c, m, c.jsonUnmarshalObject(body).value, fields, |fields|, opts);
  }

  /**
   * The same field, as written and corrected: a settable regular field whose
   * JSON name is in the body is left out of `mappedBody` by the mapper
   * NewMapper returns, and copied under its Go name by one that keeps the
   * JSON names.
   */
  lemma DroppedNamesLoseRegularField(
    c: Collaborators, instance: Value, tempDest: map<string, Json>, k: nat, opts: UnmarshalOptions, mAsWritten: Mapper, mKept: Mapper)
    requires !instance.Proto? && Classify(c, instance, false) == Ok(mAsWritten) && Classify(c, instance, true) == Ok(mKept)
    requires Reflected(instance).Record? && UniqueNames(ReachedFields(instance))
    requires k < |ReachedFields(instance)|
    requires ReachedFields(instance)[k].settable && CategoryOf(ReachedFields(instance)[k].value) == RegularField
    requires JsonName(c, ReachedFields(instance)[k]).Ok? && JsonName(c, ReachedFields(instance)[k]).value in tempDest
    requires UnmarshalPrefix(c, mKept, tempDest, ReachedFields(instance), |ReachedFields(instance)|, opts).err.None?
    ensures
      var fields := ReachedFields(instance);
      && ReachedFields(instance)[k].name !in UnmarshalPrefix(c, mAsWritten, tempDest, fields, |fields|, opts).mapped
      && fields[k].name in UnmarshalPrefix(c, mKept, tempDest, fields, |fields|, opts).mapped
      && UnmarshalPrefix(c, mKept, tempDest, fields, |fields|, opts).mapped[fields[k].name]
         == FromBody(tempDest[JsonName(c, fields[k]).value])
  {
    var fields := ReachedFields(instance);
    NoNamesMapsNothing(c, mAsWritten, tempDest, fields, |fields|, opts);
    ClassifyPartition(c, instance, true, mKept);
    assert Records(c, mKept, fields[k], true) && NamedAs(c, mKept, fields[k]);
    RegularFieldCopied(c, mKept, tempDest, fields, |fields|, k, opts);
  }

  /** A message pointer field is always given a fresh message before the protobuf decode: its old content plays no part. */
  lemma ProtoPointerReallocated(
    c: Collaborators, m: Mapper, tempDest: map<string, Json>, fields: seq<Field>, i: nat,
    mapped: map<string, Mapped>, opts: UnmarshalOptions, data: Bytes)
    requires i < |fields| && Present(m, tempDest, i)
    requires m.reflectType[i] !in m.regularFields && m.reflectType[i] in m.protoMessageFields
    requires c.jsonMarshal(tempDest[m.jsonFieldNames[m.reflectType[i]]]) == Ok(data)
    requires fields[i].settable && fields[i].value.Proto? && fields[i].value.ptr
    ensures
      var w := c.protoUnmarshal(opts, data, c.newMessage(fields[i].value.msg.typeName));
      var r := UnmarshalField(c, m, tempDest, fields, i, mapped, opts);
      && r.fields[i].value == Proto(true, w.dest)
      && r.err == w.err
      && (w.err.None? ==> r.mapped == mapped[m.reflectType[i] := FromField(Proto(true, w.dest))])
  {
  }

  /**
   * A message held in an interface-typed field is decoded into the message
   * the field already holds: nothing is allocated, and the message is mapped
   * under the Go name once the decode succeeds.
   */
  lemma InterfaceMessageDecodedInPlace(
    c: Collaborators, m: Mapper, tempDest: map<string, Json>, fields: seq<Field>, i: nat,
    mapped: map<string, Mapped>, opts: UnmarshalOptions, data: Bytes)
    requires i < |fields| && Present(m, tempDest, i)
    requires m.reflectType[i] !in m.regularFields && m.reflectType[i] in m.protoMessageFields
    requires c.jsonMarshal(tempDest[m.jsonFieldNames[m.reflectType[i]]]) == Ok(data)
    requires fields[i].interfaceable && fields[i].value.Proto? && !fields[i].value.ptr
    ensures
      var w := c.protoUnmarshal(opts, data, fields[i].value.msg);
      var r := UnmarshalField(c, m, tempDest, fields, i, mapped, opts);
      && r.fields == SetFieldValue(fields, i, Proto(false, w.dest))
      && r.err == w.err
      && r.mapped == (if w.err.None? then mapped[m.reflectType[i] := FromField(Proto(false, w.dest))] else mapped)
  {
  }

  /**
   * The failures of a present field in the proto or nested bucket: a failed
   * re-encoding is returned with nothing written; a proto-bucket value that
   * is not a message gives ErrFieldNotProtoMessage; `Set` on a field that
   * cannot be set, `Interface` on one that cannot be interfaced and `Addr`
   * on one that cannot be set panic.
   */
  lemma UnmarshalFieldFailures(
    c: Collaborators, m: Mapper, tempDest: map<string, Json>, fields: seq<Field>, i: nat,
    mapped: map<string, Mapped>, opts: UnmarshalOptions)
    requires i < |fields| && Present(m, tempDest, i)
    requires m.reflectType[i] !in m.regularFields
    ensures
      var name := m.reflectType[i];
      var marshaled := c.jsonMarshal(tempDest[m.jsonFieldNames[name]]);
      var f := fields[i];
      var r := UnmarshalField(c, m, tempDest, fields, i, mapped, opts);
      && ((name in m.protoMessageFields || name in m.nestedStructs) && marshaled.Err? ==>
            r == Progress(fields, mapped, Some(marshaled.error)))
      && (name in m.protoMessageFields && marshaled.Ok? && (if IsPtrKind(f.value) then !f.settable else !f.interfaceable) ==>
            r == Progress(fields, mapped, Some(ReflectPanic)))
      && (name in m.protoMessageFields && marshaled.Ok? && (if IsPtrKind(f.value) then f.settable else f.interfaceable)
          && !f.value.Proto? ==>
            r == Progress(fields, mapped, Some(DecodeFieldNotProtoMessage(name))))
      && (name !in m.protoMessageFields && name in m.nestedStructs && marshaled.Ok? && !f.settable ==>
            r == Progress(fields, mapped, Some(ReflectPanic)))
  {
  }

  /** A nested field is decoded by its own mapper into the field itself, through the field's address. */
  lemma NestedDecodedInPlace(
    c: Collaborators, m: Mapper, tempDest: map<string, Json>, fields: seq<Field>, i: nat,
    mapped: map<string, Mapped>, opts: UnmarshalOptions, data: Bytes)
    requires i < |fields| && Present(m, tempDest, i)
    requires m.reflectType[i] !in m.regularFields && m.reflectType[i] !in m.protoMessageFields
    requires m.reflectType[i] in m.nestedStructs
    requires c.jsonMarshal(tempDest[m.jsonFieldNames[m.reflectType[i]]]) == Ok(data)
    requires fields[i].settable
    ensures
      var w := UnmarshalWith(c, m.nestedStructs[m.reflectType[i]], data, Pointer(fields[i].value), opts);
      var r := UnmarshalField(c, m, tempDest, fields, i, mapped, opts);
      && w.dest.Pointer?
      && r.fields[i].value == w.dest.target
      && r.err == w.err
      && (w.err.None? ==> r.mapped == mapped[m.reflectType[i] := FromField(w.dest)])
  {
  }
}
