/**
 * encoder/protojson/mapper.go: the encoder's field classifier (NewMapper)
 * and the traversal that uses it (PrecomputeMarshalByReflection).
 *
 * NewMapper sorts every field that can be interfaced into one bucket:
 * proto-message fields (decided on the runtime value), regular fields (the
 * field's kind is not Struct, so pointers to structs are regular) and nested
 * structs, which get a mapper of their own. It records the JSON name of each
 * of these fields.
 */
module EncoderMapper {
  import opened Errors
  import opened Json
  import opened Values

  datatype Mapper = Mapper(
    protoMessageFields: set<string>,
    regularFields: set<string>,
    jsonFieldNames: map<string, string>,
    nestedStructs: map<string, Mapper>)

  const NoFields := Mapper({}, {}, map[], map[])

  /** The bucket the classifier puts an interfaceable field in, in the order it tests them. */
  datatype Category = ProtoField | RegularField | NestedField

  function CategoryOf(v: Value): Category {
    if v.Proto? then ProtoField
    else if !v.Record? then RegularField
    else NestedField
  }

  // ---------------------------------------------------------------------
  // Classification
  // ---------------------------------------------------------------------

  /** The mapper NewMapper builds for `structInstance`. */
  function Classify(c: Collaborators, structInstance: Value): (r: Result<Mapper>)
    ensures structInstance.Nil? ==> r == Err(NilStructInstance)
    ensures !structInstance.Nil? && !Reflected(structInstance).Record? ==> r == Err(ReflectPanic)
    decreases structInstance, 1
  {
    if structInstance.Nil? then Err(NilStructInstance)
    else match Reflected(structInstance)
      case Record(fields) => ClassifyPrefix(c, structInstance, fields, |fields|)
      case _ => Err(ReflectPanic)
  }

  /** What the loop body decides for one field. */
  datatype FieldClass =
    | Ignored                               // cannot be interfaced: in no map
    | AsProto(jsonName: string)
    | AsRegular(jsonName: string)
    | AsNested(jsonName: string, nested: Mapper)

  /** One iteration of the loop at mapper.go:52-101. */
  function ClassifyField(c: Collaborators, f: Field): Result<FieldClass>
    decreases f.value, 2
  {
    if !f.interfaceable then Ok(Ignored)
    else
      var name :- JsonName(c, f);
      match CategoryOf(f.value)
      case ProtoField => Ok(AsProto(name))
      case RegularField => Ok(AsRegular(name))
      case NestedField =>
        var nested :- Classify(c, f.value);
        Ok(AsNested(name, nested))
  }

  /** The maps after recording field `name` as `cls`. */
  function AddField(m: Mapper, name: string, cls: FieldClass): Mapper {
    match cls
    case Ignored => m
    case AsProto(j) =>
      m.(jsonFieldNames := m.jsonFieldNames[name := j], protoMessageFields := m.protoMessageFields + {name})
    case AsRegular(j) =>
      m.(jsonFieldNames := m.jsonFieldNames[name := j], regularFields := m.regularFields + {name})
    case AsNested(j, nested) =>
      m.(jsonFieldNames := m.jsonFieldNames[name := j], nestedStructs := m.nestedStructs[name := nested])
  }

  /** The maps after the loop has handled `fields[..n]`; the first error ends it. */
  function ClassifyPrefix(c: Collaborators, root: Value, fields: seq<Field>, n: nat): Result<Mapper>
    requires Reflected(root) == Record(fields) && n <= |fields|
    decreases root, 0, n
  {
    if n == 0 then Ok(NoFields)
    else
      var m :- ClassifyPrefix(c, root, fields, n - 1);
      FieldBelow(root, n - 1);
      var cls :- ClassifyField(c, fields[n - 1]);
      Ok(AddField(m, fields[n - 1].name, cls))
  }

  lemma {:induction false} ClassifyErrorPersists(c: Collaborators, root: Value, fields: seq<Field>, n: nat, k: nat)
    requires Reflected(root) == Record(fields) && n <= k <= |fields|
    requires ClassifyPrefix(c, root, fields, n).Err?
    ensures ClassifyPrefix(c, root, fields, k) == ClassifyPrefix(c, root, fields, n)
    decreases k
  {
    if k > n {
      ClassifyErrorPersists(c, root, fields, n, k - 1);
    }
  }

  /** NewMapper: a `for i` loop filling the four maps, recursing into nested structs. */
  method NewMapper(c: Collaborators, structInstance: Value) returns (r: Result<Mapper>)
    ensures r == Classify(c, structInstance)
    decreases structInstance, 1
  {
    if structInstance.Nil? {
      return Err(NilStructInstance);
    }
    var reflected := Reflected(structInstance);
    if !reflected.Record? {
      return Err(ReflectPanic);
    }
    var fields := reflected.fields;
    var protoMessageFields: set<string> := {};
    var regularFields: set<string> := {};
    var jsonFieldNames: map<string, string> := map[];
    var nestedStructs: map<string, Mapper> := map[];
    for i := 0 to |fields|
      invariant ClassifyPrefix(c, structInstance, fields, i)
        == Ok(Mapper(protoMessageFields, regularFields, jsonFieldNames, nestedStructs))
    {
      var f := fields[i];
      if !f.interfaceable {
        continue;
      }
      var jsonTag := c.jsonTag(f.tag, f.name);
      if jsonTag.Err? {
        ClassifyErrorPersists(c, structInstance, fields, i + 1, |fields|);
        return Err(jsonTag.error);
      }
      var jsonFieldName := c.jsonTagName(jsonTag.value, f.name);
      if jsonFieldName.Err? {
        ClassifyErrorPersists(c, structInstance, fields, i + 1, |fields|);
        return Err(jsonFieldName.error);
      }
      jsonFieldNames := jsonFieldNames[f.name := jsonFieldName.value];
      if f.value.Proto? {
        protoMessageFields := protoMessageFields + {f.name};
      } else if !f.value.Record? {
        regularFields := regularFields + {f.name};
      } else {
        FieldBelow(structInstance, i);
        var nested := NewMapper(c, f.value);
        if nested.Err? {
          ClassifyErrorPersists(c, structInstance, fields, i + 1, |fields|);
          return Err(nested.error);
        }
        nestedStructs := nestedStructs[f.name := nested.value];
      }
    }
    return Ok(Mapper(protoMessageFields, regularFields, jsonFieldNames, nestedStructs));
  }

  /** How mapper `m` records field `f`: absent when `f` cannot be interfaced, else under its JSON name in exactly its category's bucket. */
  ghost predicate Records(c: Collaborators, m: Mapper, f: Field) {
    if !f.interfaceable then
      && f.name !in m.jsonFieldNames
      && f.name !in m.protoMessageFields
      && f.name !in m.regularFields
      && f.name !in m.nestedStructs
    else
      && JsonName(c, f).Ok?
      && f.name in m.jsonFieldNames
      && m.jsonFieldNames[f.name] == JsonName(c, f).value
      && (f.name in m.protoMessageFields <==> CategoryOf(f.value) == ProtoField)
      && (f.name in m.regularFields <==> CategoryOf(f.value) == RegularField)
      && (f.name in m.nestedStructs <==> CategoryOf(f.value) == NestedField)
      && (f.name in m.nestedStructs ==> Classify(c, f.value) == Ok(m.nestedStructs[f.name]))
  }

  /** The names the mapper knows are exactly those of the interfaceable fields, and every one of them has a bucket. */
  ghost predicate Covers(m: Mapper, fields: seq<Field>, n: nat)
    requires n <= |fields|
  {
    && m.jsonFieldNames.Keys == InterfaceableNames(fields, n)
    && Buckets(m) == m.jsonFieldNames.Keys
  }

  /** `a` and `b` record `name` identically. */
  ghost predicate SameAt(a: Mapper, b: Mapper, name: string) {
    && (name in a.jsonFieldNames <==> name in b.jsonFieldNames)
    && (name in a.jsonFieldNames ==> a.jsonFieldNames[name] == b.jsonFieldNames[name])
    && (name in a.protoMessageFields <==> name in b.protoMessageFields)
    && (name in a.regularFields <==> name in b.regularFields)
    && (name in a.nestedStructs <==> name in b.nestedStructs)
    && (name in a.nestedStructs ==> a.nestedStructs[name] == b.nestedStructs[name])
  }

  lemma RecordsFrame(c: Collaborators, a: Mapper, b: Mapper, g: Field)
    requires SameAt(a, b, g.name) && Records(c, a, g)
    ensures Records(c, b, g)
  {
  }

  /** The names `m` has put in one of its three buckets. */
  function Buckets(m: Mapper): set<string> {
    m.protoMessageFields + m.regularFields + m.nestedStructs.Keys
  }

  /** The names `m` mentions in any of its maps. */
  function Known(m: Mapper): set<string> {
    m.jsonFieldNames.Keys + m.protoMessageFields + m.regularFields + m.nestedStructs.Keys
  }

  /** Recording a field leaves every other name as it was and records the field as Records demands. */
  lemma AddFieldRecords(c: Collaborators, m: Mapper, f: Field, cls: FieldClass)
    requires ClassifyField(c, f) == Ok(cls)
    requires f.name !in Known(m)
    ensures Records(c, AddField(m, f.name, cls), f)
    ensures forall name :: name != f.name ==> SameAt(m, AddField(m, f.name, cls), name)
    ensures f.interfaceable ==> AddField(m, f.name, cls).jsonFieldNames.Keys == m.jsonFieldNames.Keys + {f.name}
    ensures !f.interfaceable ==> AddField(m, f.name, cls) == m
    ensures Known(AddField(m, f.name, cls)) <= Known(m) + {f.name}
    ensures Buckets(m) == m.jsonFieldNames.Keys ==>
      Buckets(AddField(m, f.name, cls)) == AddField(m, f.name, cls).jsonFieldNames.Keys
  {
  }

  /** What the loop has established after `fields[..n]`: each handled field recorded, and nothing else known. */
  ghost predicate Partitioned(c: Collaborators, m: Mapper, fields: seq<Field>, n: nat)
    requires n <= |fields|
  {
    && (forall k :: 0 <= k < n ==> Records(c, m, fields[k]))
    && Covers(m, fields, n)
    && Known(m) <= Names(fields, n)
  }

  /** One iteration keeps Partitioned. */
  lemma PartitionedStep(c: Collaborators, prev: Mapper, fields: seq<Field>, n: nat, cls: FieldClass)
    requires 0 < n <= |fields| && UniqueNames(fields)
    requires Partitioned(c, prev, fields, n - 1)
    requires ClassifyField(c, fields[n - 1]) == Ok(cls)
    ensures Partitioned(c, AddField(prev, fields[n - 1].name, cls), fields, n)
  {
    var f := fields[n - 1];
    var m := AddField(prev, f.name, cls);
    NameNotEarlier(fields, n - 1, n - 1);
    AddFieldRecords(c, prev, f, cls);
    forall k | 0 <= k < n - 1
      ensures Records(c, m, fields[k])
    {
      RecordsFrame(c, prev, m, fields[k]);
    }
  }

  /** An iteration that ends without error classified its field without error. */
  lemma ClassifyPrefixOk(c: Collaborators, root: Value, fields: seq<Field>, i: nat, m: Mapper, m': Mapper)
    requires Reflected(root) == Record(fields) && i < |fields|
    requires ClassifyPrefix(c, root, fields, i) == Ok(m)
    requires ClassifyPrefix(c, root, fields, i + 1) == Ok(m')
    ensures ClassifyField(c, fields[i]).Ok?
    ensures m' == AddField(m, fields[i].name, ClassifyField(c, fields[i]).value)
  {
  }

  lemma {:induction false} ClassifyPrefixPartition(c: Collaborators, root: Value, fields: seq<Field>, n: nat, m: Mapper)
    requires Reflected(root) == Record(fields) && n <= |fields|
    requires UniqueNames(fields)
    requires ClassifyPrefix(c, root, fields, n) == Ok(m)
    ensures Partitioned(c, m, fields, n)
    decreases n
  {
    if n > 0 {
      var prev := ClassifyPrefix(c, root, fields, n - 1).value;
      ClassifyPrefixPartition(c, root, fields, n - 1, prev);
      ClassifyPrefixOk(c, root, fields, n - 1, prev, m);
      PartitionedStep(c, prev, fields, n, ClassifyField(c, fields[n - 1]).value);
    }
  }

  /**
   * The classifier's promise: a nil instance is refused; on success every
   * interfaceable field is recorded under its JSON name in exactly one
   * bucket (proto, else regular when not a struct, else nested with the
   * nested struct's own mapper), and no other name appears.
   */
  lemma ClassifyPartition(c: Collaborators, structInstance: Value, m: Mapper)
    requires Classify(c, structInstance) == Ok(m)
    ensures !structInstance.Nil? && Reflected(structInstance).Record?
    ensures UniqueNames(Reflected(structInstance).fields) ==>
      && (forall k :: 0 <= k < |Reflected(structInstance).fields| ==> Records(c, m, Reflected(structInstance).fields[k]))
      && Covers(m, Reflected(structInstance).fields, |Reflected(structInstance).fields|)
  {
    var fields := Reflected(structInstance).fields;
    if UniqueNames(fields) {
      ClassifyPrefixPartition(c, structInstance, fields, |fields|, m);
    }
  }

  /** Tag-parse errors, and errors of the nested NewMapper, abort construction and are returned unchanged. */
  lemma ClassifyFirstError(c: Collaborators, structInstance: Value, k: nat, e: Error)
    requires Reflected(structInstance).Record? && !structInstance.Nil?
    requires k < |Reflected(structInstance).fields|
    requires ClassifyPrefix(c, structInstance, Reflected(structInstance).fields, k).Ok?
    requires Reflected(structInstance).fields[k].interfaceable
    requires JsonName(c, Reflected(structInstance).fields[k]) == Err(e)
          || (&& JsonName(c, Reflected(structInstance).fields[k]).Ok?
              && Reflected(structInstance).fields[k].value.Record?
              && Classify(c, Reflected(structInstance).fields[k].value) == Err(e))
    ensures Classify(c, structInstance) == Err(e)
  {
    var fields := Reflected(structInstance).fields;
    ClassifyFieldFails(c, fields[k], e);
    ClassifyPrefixStepErr(c, structInstance, fields, k, e);
    ClassifyErrorPersists(c, structInstance, fields, k + 1, |fields|);
  }

  /** The two ways one interfaceable field makes the loop fail with a tag or nested error. */
  lemma ClassifyFieldFails(c: Collaborators, f: Field, e: Error)
    requires f.interfaceable
    requires JsonName(c, f) == Err(e)
          || (&& JsonName(c, f).Ok? && f.value.Record? && Classify(c, f.value) == Err(e))
    ensures ClassifyField(c, f) == Err(e)
  {
  }

  /** A field that fails to classify ends the loop with its error. */
  lemma ClassifyPrefixStepErr(c: Collaborators, root: Value, fields: seq<Field>, i: nat, e: Error)
    requires Reflected(root) == Record(fields) && i < |fields|
    requires ClassifyPrefix(c, root, fields, i).Ok?
    requires ClassifyField(c, fields[i]) == Err(e)
    ensures ClassifyPrefix(c, root, fields, i + 1) == Err(e)
  {
  }

  // ---------------------------------------------------------------------
  // Encode traversal
  // ---------------------------------------------------------------------

  /** What one field contributes to the output map. */
  datatype Entry = Skip | Put(key: string, value: Encoded)

  function Add(acc: map<string, Encoded>, e: Entry): map<string, Encoded> {
    if e.Put? then acc[e.key := e.value] else acc
  }

  /** One iteration of the loop at mapper.go:139-196: lookups in the order regular, nested, proto. */
  function EncodeField(c: Collaborators, m: Mapper, f: Field, opts: MarshalOptions): (r: Result<Entry>)
    ensures r == Ok(Skip) <==> f.name !in m.jsonFieldNames
    ensures r.Ok? && r.value.Put? ==> f.interfaceable && r.value.key == m.jsonFieldNames[f.name]
    ensures f.name in m.jsonFieldNames && f.interfaceable && f.name in m.regularFields ==>
      r == Ok(Put(m.jsonFieldNames[f.name], Verbatim(f.value)))
    ensures f.name in m.jsonFieldNames && f.interfaceable && f.name !in m.regularFields && f.name in m.nestedStructs ==>
      r == (match Precompute(c, m.nestedStructs[f.name], f.value, opts)
            case Ok(nested) => Ok(Put(m.jsonFieldNames[f.name], Object(nested)))
            case Err(e) => Err(e))
    ensures f.name in m.jsonFieldNames && f.interfaceable && f.name !in m.regularFields && f.name !in m.nestedStructs ==>
      && (f.name !in m.protoMessageFields ==> r == Err(EncodeFieldNotHandled(f.name)))
      && (f.name in m.protoMessageFields && !f.value.Proto? ==> r == Err(EncodeFieldNotProtoMessage(f.name)))
      && (f.name in m.protoMessageFields && f.value.Proto? ==>
            r == (match c.protoMarshal(opts, f.value.msg)
                  case Ok(data) => Ok(Put(m.jsonFieldNames[f.name], RawMessage(data)))
                  case Err(e) => Err(e)))
    decreases f.value, 2
  {
    if f.name !in m.jsonFieldNames then Ok(Skip)
    else if !f.interfaceable then Err(ReflectPanic)   // field.Interface() on an unexported field
    else
      var key := m.jsonFieldNames[f.name];
      if f.name in m.regularFields then Ok(Put(key, Verbatim(f.value)))
      else if f.name in m.nestedStructs then
        var nested :- Precompute(c, m.nestedStructs[f.name], f.value, opts);
        Ok(Put(key, Object(nested)))
      else if f.name in m.protoMessageFields then
        if !f.value.Proto? then Err(EncodeFieldNotProtoMessage(f.name))
        else
          var data :- c.protoMarshal(opts, f.value.msg);
          Ok(Put(key, RawMessage(data)))
      else Err(EncodeFieldNotHandled(f.name))
  }

  /** The map PrecomputeMarshalByReflection returns for `body`, options already defaulted. */
  function Precompute(c: Collaborators, m: Mapper, body: Value, opts: MarshalOptions): Result<map<string, Encoded>>
    decreases body, 1
  {
    match Reflected(body)
    case Record(fields) => PrecomputePrefix(c, m, body, fields, |fields|, opts)
    case _ => Err(ReflectPanic)
  }

  function PrecomputePrefix(c: Collaborators, m: Mapper, root: Value, fields: seq<Field>, n: nat, opts: MarshalOptions)
    : Result<map<string, Encoded>>
    requires Reflected(root) == Record(fields) && n <= |fields|
    decreases root, 0, n
  {
    if n == 0 then Ok(map[])
    else
      var acc :- PrecomputePrefix(c, m, root, fields, n - 1, opts);
      FieldBelow(root, n - 1);
      var entry :- EncodeField(c, m, fields[n - 1], opts);
      Ok(Add(acc, entry))
  }

  lemma {:induction false} PrecomputeErrorPersists(
    c: Collaborators, m: Mapper, root: Value, fields: seq<Field>, n: nat, k: nat, opts: MarshalOptions)
    requires Reflected(root) == Record(fields) && n <= k <= |fields|
    requires PrecomputePrefix(c, m, root, fields, n, opts).Err?
    ensures PrecomputePrefix(c, m, root, fields, k, opts) == PrecomputePrefix(c, m, root, fields, n, opts)
    decreases k
  {
    if k > n {
      PrecomputeErrorPersists(c, m, root, fields, n, k - 1, opts);
    }
  }

  /** One more iteration of the loop, taken from a state without error. */
  lemma PrecomputePrefixStep(
    c: Collaborators, m: Mapper, root: Value, fields: seq<Field>, i: nat, opts: MarshalOptions, acc: map<string, Encoded>)
    requires Reflected(root) == Record(fields) && i < |fields|
    requires PrecomputePrefix(c, m, root, fields, i, opts) == Ok(acc)
    ensures PrecomputePrefix(c, m, root, fields, i + 1, opts)
      == (match EncodeField(c, m, fields[i], opts) case Ok(e) => Ok(Add(acc, e)) case Err(e) => Err(e))
  {
  }

  /** PrecomputeMarshalByReflection: defaults the options, then builds the result field by field. */
  method PrecomputeMarshalByReflection(
    c: Collaborators, m: Mapper, body: Value, marshalOptions: Option<MarshalOptions>)
    returns (r: Result<map<string, Encoded>>)
    ensures r == Precompute(c, m, body, MarshalOptionsOrDefault(marshalOptions))
    decreases body, 1
  {
    var opts := if marshalOptions.None? then DefaultMarshalOptions else marshalOptions.value;
    var reflectValue := Reflected(body);
    if !reflectValue.Record? {
      return Err(ReflectPanic);
    }
    r := PrecomputeFields(c, m, body, reflectValue.fields, opts);
  }

  /** The loop at mapper.go:139-196, writing into `result` and returning on the first error. */
  method PrecomputeFields(c: Collaborators, m: Mapper, body: Value, fields: seq<Field>, opts: MarshalOptions)
    returns (r: Result<map<string, Encoded>>)
    requires Reflected(body) == Record(fields)
    ensures r == PrecomputePrefix(c, m, body, fields, |fields|, opts)
    decreases body, 0
  {
    var result: map<string, Encoded> := map[];
    for i := 0 to |fields|
      invariant PrecomputePrefix(c, m, body, fields, i, opts) == Ok(result)
    {
      PrecomputePrefixStep(c, m, body, fields, i, opts, result);
      FieldBelow(body, i);
      var entry := EncodeFieldInPlace(c, m, fields[i], opts);
      if entry.Err? {
        PrecomputeErrorPersists(c, m, body, fields, i + 1, |fields|, opts);
        return Err(entry.error);
      }
      result := Add(result, entry.value);
    }
    return Ok(result);
  }

  /** The body of that loop for one field: lookups in the order regular, nested, proto. */
  method EncodeFieldInPlace(c: Collaborators, m: Mapper, f: Field, opts: MarshalOptions) returns (r: Result<Entry>)
    ensures r == EncodeField(c, m, f, opts)
    decreases f.value, 2
  {
    if f.name !in m.jsonFieldNames {
      return Ok(Skip);
    }
    if !f.interfaceable {
      return Err(ReflectPanic);
    }
    var jsonFieldName := m.jsonFieldNames[f.name];
    if f.name in m.regularFields {
      return Ok(Put(jsonFieldName, Verbatim(f.value)));
    }
    if f.name in m.nestedStructs {
      var nestedResult := PrecomputeMarshalByReflection(c, m.nestedStructs[f.name], f.value, Some(opts));
      if nestedResult.Err? {
        return Err(nestedResult.error);
      }
      return Ok(Put(jsonFieldName, Object(nestedResult.value)));
    }
    if f.name in m.protoMessageFields {
      if !f.value.Proto? {
        return Err(EncodeFieldNotProtoMessage(f.name));
      }
      var data := c.protoMarshal(opts, f.value.msg);
      if data.Err? {
        return Err(data.error);
      }
      return Ok(Put(jsonFieldName, RawMessage(data.value)));
    }
    return Err(EncodeFieldNotHandled(f.name));
  }

  /** The JSON keys the mapped fields among `fields[..n]` are written under. */
  function MappedKeys(m: Mapper, fields: seq<Field>, n: nat): set<string>
    requires n <= |fields|
  {
    if n == 0 then {}
    else if fields[n - 1].name in m.jsonFieldNames then MappedKeys(m, fields, n - 1) + {m.jsonFieldNames[fields[n - 1].name]}
    else MappedKeys(m, fields, n - 1)
  }

  /** On success the output keys are exactly the JSON names of the fields the mapper knows; Go names never appear as such. */
  lemma {:induction false} PrecomputeKeys(c: Collaborators, m: Mapper, root: Value, fields: seq<Field>, n: nat, opts: MarshalOptions)
    requires Reflected(root) == Record(fields) && n <= |fields|
    requires PrecomputePrefix(c, m, root, fields, n, opts).Ok?
    ensures PrecomputePrefix(c, m, root, fields, n, opts).value.Keys == MappedKeys(m, fields, n)
    decreases n
  {
    if n > 0 {
      PrecomputeKeys(c, m, root, fields, n - 1, opts);
      FieldBelow(root, n - 1);
    }
  }

  /**
   * The entry under a field's JSON key is what that field produced, unless a
   * later field was written under the same key (the later write wins).
   */
  lemma {:induction false} PrecomputeEntry(
    c: Collaborators, m: Mapper, root: Value, fields: seq<Field>, n: nat, k: nat, opts: MarshalOptions)
    requires Reflected(root) == Record(fields) && k < n <= |fields|
    requires PrecomputePrefix(c, m, root, fields, n, opts).Ok?
    requires fields[k].name in m.jsonFieldNames
    requires forall j :: k < j < n && fields[j].name in m.jsonFieldNames ==>
      m.jsonFieldNames[fields[j].name] != m.jsonFieldNames[fields[k].name]
    ensures m.jsonFieldNames[fields[k].name] in PrecomputePrefix(c, m, root, fields, n, opts).value
    ensures EncodeField(c, m, fields[k], opts)
      == Ok(Put(m.jsonFieldNames[fields[k].name], PrecomputePrefix(c, m, root, fields, n, opts).value[m.jsonFieldNames[fields[k].name]]))
    decreases n
  {
    FieldBelow(root, n - 1);
    if k < n - 1 {
      PrecomputeEntry(c, m, root, fields, n - 1, k, opts);
    }
  }

  /** The first field whose encoding fails decides the error, and no map is returned. */
  lemma PrecomputeFirstError(c: Collaborators, m: Mapper, body: Value, k: nat, opts: MarshalOptions, e: Error)
    requires Reflected(body).Record? && k < |Reflected(body).fields|
    requires PrecomputePrefix(c, m, body, Reflected(body).fields, k, opts).Ok?
    requires EncodeField(c, m, Reflected(body).fields[k], opts) == Err(e)
    ensures Precompute(c, m, body, opts) == Err(e)
  {
    var fields := Reflected(body).fields;
    FieldBelow(body, k);
    assert PrecomputePrefix(c, m, body, fields, k + 1, opts) == Err(e);
    PrecomputeErrorPersists(c, m, body, fields, k + 1, |fields|, opts);
  }

  /**
   * A mapper NewMapper built from a value routes every field of that value:
   * encoding the same value fails only when the protobuf codec does.
   */
  lemma ClassifiedEncodes(c: Collaborators, v: Value, m: Mapper, opts: MarshalOptions)
    requires Classify(c, v) == Ok(m)
    requires DeepUnique(v)
    requires forall msg: Msg :: c.protoMarshal(opts, msg).Ok?
    ensures Precompute(c, m, v, opts).Ok?
    decreases v, 1
  {
    ClassifyPartition(c, v, m);
    var fields := Reflected(v).fields;
    DeepUniqueFields(v);
    ClassifiedEncodesPrefix(c, v, fields, |fields|, m, opts);
  }

  lemma {:induction false} ClassifiedEncodesPrefix(c: Collaborators, root: Value, fields: seq<Field>, n: nat, m: Mapper, opts: MarshalOptions)
    requires Reflected(root) == Record(fields) && n <= |fields|
    requires forall k :: 0 <= k < |fields| ==> Records(c, m, fields[k])
    requires forall k :: 0 <= k < |fields| ==> DeepUnique(fields[k].value)
    requires forall msg: Msg :: c.protoMarshal(opts, msg).Ok?
    ensures PrecomputePrefix(c, m, root, fields, n, opts).Ok?
    decreases root, 0, n
  {
    if n > 0 {
      ClassifiedEncodesPrefix(c, root, fields, n - 1, m, opts);
      var f := fields[n - 1];
      FieldBelow(root, n - 1);
      assert Records(c, m, f);
      if f.interfaceable && CategoryOf(f.value) == NestedField {
        ClassifiedEncodes(c, f.value, m.nestedStructs[f.name], opts);
      }
    }
  }
}
