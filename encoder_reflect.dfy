/**
 * encoder/protojson/utils.go: the mapper-less encoder. It walks a value
 * directly, keying the output by Go field name; JSON tags play no part.
 * processField writes into a map owned by its caller, so that map is an
 * object here.
 */
module EncoderReflect {
  import opened Errors
  import opened Json
  import opened Values

  /** The `map[string]any` that processField fills in place. */
  class ResultMap {
    var entries: map<string, Encoded>

    constructor()
      ensures entries == map[]
    {
      entries := map[];
    }
  }

  /** What processField stores for a field's value: message bytes, a nested map, or the value itself. */
  function EncodeValue(c: Collaborators, field: Value, interfaceable: bool, opts: MarshalOptions): (r: Result<Encoded>)
    ensures !interfaceable ==> r == Err(ReflectPanic)
    ensures interfaceable && field.Proto? ==>
      r == (match c.protoMarshal(opts, field.msg) case Ok(data) => Ok(RawMessage(data)) case Err(e) => Err(e))
    ensures interfaceable && field.Record? ==>
      r == (match Marshal(c, field, opts) case Ok(members) => Ok(Object(members)) case Err(e) => Err(e))
    ensures interfaceable && !field.Proto? && !field.Record? ==> r == Ok(Verbatim(field))
    ensures r.Ok? && r.value.Object? ==> field.Record? && Marshal(c, field, opts) == Ok(r.value.members)
    decreases field, 2
  {
    if !interfaceable then Err(ReflectPanic)   // field.Interface() on an unexported field
    else if field.Proto? then
      var data :- c.protoMarshal(opts, field.msg);
      Ok(RawMessage(data))
    else if field.Record? then
      var nested :- Marshal(c, field, opts);
      Ok(Object(nested))
    else Ok(Verbatim(field))
  }

  /** processField: nothing without a field descriptor; otherwise one key, the Go name, written on success and none on failure. */
  method ProcessField(
    c: Collaborators, field: Value, interfaceable: bool, fieldType: Option<string>,
    marshalOptions: MarshalOptions, result: ResultMap)
    returns (err: Option<Error>)
    modifies result
    ensures fieldType.None? ==> err.None? && result.entries == old(result.entries)
    ensures fieldType.Some? ==>
      match EncodeValue(c, field, interfaceable, marshalOptions)
      case Ok(e) => err.None? && result.entries == old(result.entries)[fieldType.value := e]
      case Err(e) => err == Some(e) && result.entries == old(result.entries)
    decreases field, 2
  {
    if fieldType.None? {
      return None;
    }
    if !interfaceable {
      return Some(ReflectPanic);
    }
    if field.Proto? {
      var data := c.protoMarshal(marshalOptions, field.msg);
      if data.Err? {
        return Some(data.error);
      }
      result.entries := result.entries[fieldType.value := RawMessage(data.value)];
    } else if field.Record? {
      var nested := PrecomputeMarshalByReflection(c, field, Some(marshalOptions));
      if nested.Err? {
        return Some(nested.error);
      }
      result.entries := result.entries[fieldType.value := Object(nested.value)];
    } else {
      result.entries := result.entries[fieldType.value := Verbatim(field)];
    }
    return None;
  }

  /** The map PrecomputeMarshalByReflection returns for `v`, options already defaulted. */
  function Marshal(c: Collaborators, v: Value, opts: MarshalOptions): (r: Result<map<string, Encoded>>)
    ensures !ElemIfPointer(v).Record? ==> r == Err(ReflectPanic)
    decreases v, 1
  {
    match ElemIfPointer(v)
    case Record(fields) => MarshalPrefix(c, v, fields, |fields|, opts)
    case _ => Err(ReflectPanic)
  }

  /** The map after the loop has handled `fields[..n]`; fields that cannot be interfaced are passed over. */
  function MarshalPrefix(c: Collaborators, root: Value, fields: seq<Field>, n: nat, opts: MarshalOptions)
    : Result<map<string, Encoded>>
    requires ElemIfPointer(root) == Record(fields) && n <= |fields|
    decreases root, 0, n
  {
    if n == 0 then Ok(map[])
    else
      var acc :- MarshalPrefix(c, root, fields, n - 1, opts);
      var f := fields[n - 1];
      if !f.interfaceable then Ok(acc)
      else
        ElemFieldBelow(root, n - 1);
        var e :- EncodeValue(c, f.value, true, opts);
        Ok(acc[f.name := e])
  }

  lemma {:induction false} MarshalErrorPersists(c: Collaborators, root: Value, fields: seq<Field>, n: nat, k: nat, opts: MarshalOptions)
    requires ElemIfPointer(root) == Record(fields) && n <= k <= |fields|
    requires MarshalPrefix(c, root, fields, n, opts).Err?
    ensures MarshalPrefix(c, root, fields, k, opts) == MarshalPrefix(c, root, fields, n, opts)
    decreases k
  {
    if k > n {
      MarshalErrorPersists(c, root, fields, n, k - 1, opts);
    }
  }

  /** PrecomputeMarshalByReflection: defaults the options, dereferences once, then lets processField fill a fresh map. */
  method PrecomputeMarshalByReflection(c: Collaborators, v: Value, marshalOptions: Option<MarshalOptions>)
    returns (r: Result<map<string, Encoded>>)
    ensures r == Marshal(c, v, MarshalOptionsOrDefault(marshalOptions))
    decreases v, 1
  {
    var opts := if marshalOptions.None? then DefaultMarshalOptions else marshalOptions.value;
    var s := if IsPtrKind(v) then Pointee(v) else v;
    if !s.Record? {
      return Err(ReflectPanic);
    }
    var fields := s.fields;
    var result := new ResultMap();
    for i := 0 to |fields|
      invariant MarshalPrefix(c, v, fields, i, opts) == Ok(result.entries)
    {
      var f := fields[i];
      if !f.interfaceable {
        continue;
      }
      ElemFieldBelow(v, i);
      var err := ProcessField(c, f.value, true, Some(f.name), opts, result);
      if err.Some? {
        MarshalErrorPersists(c, v, fields, i + 1, |fields|, opts);
        return Err(err.value);
      }
    }
    return Ok(result.entries);
  }

  /** On success the keys are exactly the Go names of the fields that can be interfaced. */
  lemma {:induction false} MarshalKeys(c: Collaborators, root: Value, fields: seq<Field>, n: nat, opts: MarshalOptions)
    requires ElemIfPointer(root) == Record(fields) && n <= |fields|
    requires MarshalPrefix(c, root, fields, n, opts).Ok?
    ensures MarshalPrefix(c, root, fields, n, opts).value.Keys == InterfaceableNames(fields, n)
    decreases n
  {
    if n > 0 {
      MarshalKeys(c, root, fields, n - 1, opts);
      ElemFieldBelow(root, n - 1);
    }
  }

  /** With unique field names, each interfaceable field's entry is the one processField computed for it. */
  lemma {:induction false} MarshalEntry(c: Collaborators, root: Value, fields: seq<Field>, n: nat, k: nat, opts: MarshalOptions)
    requires ElemIfPointer(root) == Record(fields) && k < n <= |fields|
    requires UniqueNames(fields)
    requires MarshalPrefix(c, root, fields, n, opts).Ok?
    requires fields[k].interfaceable
    ensures fields[k].name in MarshalPrefix(c, root, fields, n, opts).value
    ensures EncodeValue(c, fields[k].value, true, opts) == Ok(MarshalPrefix(c, root, fields, n, opts).value[fields[k].name])
    decreases n
  {
    ElemFieldBelow(root, n - 1);
    if k < n - 1 {
      MarshalEntry(c, root, fields, n - 1, k, opts);
    }
  }

  /** The first interfaceable field whose processing fails decides the error, and no map is returned. */
  lemma MarshalFirstError(c: Collaborators, v: Value, k: nat, opts: MarshalOptions, e: Error)
    requires ElemIfPointer(v).Record? && k < |ElemIfPointer(v).fields|
    requires MarshalPrefix(c, v, ElemIfPointer(v).fields, k, opts).Ok?
    requires ElemIfPointer(v).fields[k].interfaceable
    requires EncodeValue(c, ElemIfPointer(v).fields[k].value, true, opts) == Err(e)
    ensures Marshal(c, v, opts) == Err(e)
  {
    var fields := ElemIfPointer(v).fields;
    ElemFieldBelow(v, k);
    assert MarshalPrefix(c, v, fields, k + 1, opts) == Err(e);
    MarshalErrorPersists(c, v, fields, k + 1, |fields|, opts);
  }

  /** The JSON tag functions are never consulted: changing them changes no output. */
  lemma MarshalIgnoresTags(
    c: Collaborators, v: Value, opts: MarshalOptions,
    tag: (string, string) -> Result<string>, tagName: (string, string) -> Result<string>)
    ensures Marshal(c.(jsonTag := tag, jsonTagName := tagName), v, opts) == Marshal(c, v, opts)
    decreases v, 1
  {
    match ElemIfPointer(v)
    case Record(fields) =>
      MarshalPrefixIgnoresTags(c, v, fields, |fields|, opts, tag, tagName);
    case _ =>
  }

  lemma {:induction false} MarshalPrefixIgnoresTags(
    c: Collaborators, root: Value, fields: seq<Field>, n: nat, opts: MarshalOptions,
    tag: (string, string) -> Result<string>, tagName: (string, string) -> Result<string>)
    requires ElemIfPointer(root) == Record(fields) && n <= |fields|
    ensures MarshalPrefix(c.(jsonTag := tag, jsonTagName := tagName), root, fields, n, opts)
         == MarshalPrefix(c, root, fields, n, opts)
    decreases root, 0, n
  {
    if n > 0 {
      MarshalPrefixIgnoresTags(c, root, fields, n - 1, opts, tag, tagName);
      ElemFieldBelow(root, n - 1);
      var f := fields[n - 1];
      if f.interfaceable && f.value.Record? && !f.value.Proto? {
        MarshalIgnoresTags(c, f.value, opts, tag, tagName);
      }
    }
  }
}
