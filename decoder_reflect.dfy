/**
 * decoder/protojson/utils.go: the mapper-less decoder. It parses the body
 * into a map, unmarshals the entries named after settable fields (by Go
 * name) into those fields in place, and finally hands the whole body to
 * goreflect.MapToStruct.
 *
 * The struct branch at utils.go:101-126 cannot be reached: for a field of
 * kind Struct the test at :78 calls `field.Elem()`, and reflect panics on
 * Elem of a struct. The model stops there with ReflectPanic.
 *
 * The specification functions take `byAddress`, which says how encoding/json
 * is handed a field: `false` is the code as written (`field.Interface()`, a
 * copy of the field), `true` the evidently intended `field.Addr().Interface()`.
 * The methods model the code as written.
 */
module DecoderReflect {
  import opened Errors
  import opened Json
  import opened Values
  import opened Decoder

  /** The struct's fields as the loop has left them, and the error that stopped it, if any. */
  datatype Progress = Progress(fields: seq<Field>, err: Option<Error>)

  /** Decoding changes field values only, never the number of fields, their names or their flags. */
  ghost predicate SameShape(before: seq<Field>, after: seq<Field>) {
    && |after| == |before|
    && (forall j :: 0 <= j < |before| ==>
          && after[j].name == before[j].name
          && after[j].settable == before[j].settable
          && after[j].interfaceable == before[j].interfaceable)
  }

  /** One iteration changes field `i` at most. */
  ghost predicate OnlyAt(before: seq<Field>, after: seq<Field>, i: nat) {
    && i < |before| == |after|
    && after == before[i := after[i]]
    && after[i].name == before[i].name
    && after[i].settable == before[i].settable
    && after[i].interfaceable == before[i].interfaceable
  }

  /**
   * json.Unmarshal of `data` into a field holding `v`. As written
   * (utils.go:92-94) it is handed `field.Interface()`, a copy of the field's
   * value: anything but a non-nil pointer is refused with
   * InvalidUnmarshalError, and a pointer is written through. With
   * `byAddress` it is handed `field.Addr().Interface()` instead, and what
   * the decode leaves behind the address becomes the field.
   */
  function UnmarshalIntoField(c: Collaborators, data: Bytes, v: Value, byAddress: bool): Written<Value> {
    if byAddress then
      var w := c.jsonUnmarshalInto(data, Pointer(v));
      Written(if w.dest.Pointer? then w.dest.target else v, w.err)
    else if NonNilPointer(v) then c.jsonUnmarshalInto(data, v)
    else Written(v, Some(InvalidUnmarshal))
  }

  /** utils.go:78-98: a non-struct field present in the body is re-encoded and then decoded by encoding/json. */
  function DecodeGeneric(c: Collaborators, body: map<string, Json>, fields: seq<Field>, i: nat, byAddress: bool)
    : (r: Progress)
    requires i < |fields|
    ensures OnlyAt(fields, r.fields, i)
    ensures fields[i].value.Record? ==> r == Progress(fields, Some(ReflectPanic))
    ensures !fields[i].value.Record? && fields[i].name !in body ==> r == Progress(fields, None)
    ensures !fields[i].value.Record? && fields[i].name in body && c.jsonMarshal(body[fields[i].name]).Err? ==>
      r == Progress(fields, Some(c.jsonMarshal(body[fields[i].name]).error))
    ensures !byAddress && !fields[i].value.Record? && fields[i].name in body && c.jsonMarshal(body[fields[i].name]).Ok? ==>
      if NonNilPointer(fields[i].value) then
        var w := c.jsonUnmarshalInto(c.jsonMarshal(body[fields[i].name]).value, fields[i].value);
        r == Progress(SetFieldValue(fields, i, w.dest), w.err)
      else r == Progress(fields, Some(InvalidUnmarshal))
    ensures byAddress && !fields[i].value.Record? && fields[i].name in body && c.jsonMarshal(body[fields[i].name]).Ok? ==>
      var w := c.jsonUnmarshalInto(c.jsonMarshal(body[fields[i].name]).value, Pointer(fields[i].value));
      && r.err == w.err
      && (w.dest.Pointer? ==> r.fields == SetFieldValue(fields, i, w.dest.target))
      && (!w.dest.Pointer? ==> r.fields == fields)
  {
    var f := fields[i];
    if f.value.Record? then Progress(fields, Some(ReflectPanic))   // field.Elem() on a struct
    else if f.name !in body then Progress(fields, None)
    else
      match c.jsonMarshal(body[f.name])
      case Err(e) => Progress(fields, Some(e))
      case Ok(data) =>
        var w := UnmarshalIntoField(c, data, f.value, byAddress);
        Progress(SetFieldValue(fields, i, w.dest), w.err)
  }

  /** One iteration of the loop at utils.go:43-127. */
  function DecodeField(
    c: Collaborators, body: map<string, Json>, fields: seq<Field>, i: nat, opts: UnmarshalOptions, byAddress: bool)
    : (r: Progress)
    requires i < |fields|
    ensures OnlyAt(fields, r.fields, i)
    ensures !fields[i].settable ==> r == Progress(fields, None)
    ensures fields[i].settable && !fields[i].interfaceable ==> r == Progress(fields, Some(ReflectPanic))
    ensures fields[i].settable && fields[i].name !in body && !fields[i].value.Record? ==>
      r.fields == fields && r.err.None? == fields[i].interfaceable
    ensures fields[i].settable && fields[i].value.Record? ==> r == Progress(fields, Some(ReflectPanic))
    ensures fields[i].settable && fields[i].interfaceable && !fields[i].value.Proto? ==>
      r == DecodeGeneric(c, body, fields, i, byAddress)
  {
    var f := fields[i];
    if !f.settable then Progress(fields, None)
    else if !f.interfaceable then Progress(fields, Some(ReflectPanic))   // field.Interface()
    else if f.value.Proto? then
      if f.name !in body then Progress(fields, None)
      else
        match c.jsonMarshal(body[f.name])
        case Err(e) => Progress(fields, Some(e))
        case Ok(data) =>
          var w := c.protoUnmarshal(opts, data, f.value.msg);
          var updated := SetFieldValue(fields, i, Proto(f.value.ptr, w.dest));
          if w.err.Some? then Progress(updated, w.err)
          else DecodeGeneric(c, body, updated, i, byAddress)   // no `continue`: the field is decoded again
    else DecodeGeneric(c, body, fields, i, byAddress)
  }

  /** The fields after the loop has handled `fields[..n]`; the first error ends it. */
  function DecodePrefix(
    c: Collaborators, body: map<string, Json>, fields: seq<Field>, n: nat, opts: UnmarshalOptions, byAddress: bool)
    : (r: Progress)
    requires n <= |fields|
    ensures |r.fields| == |fields|
  {
    if n == 0 then Progress(fields, None)
    else
      var prev := DecodePrefix(c, body, fields, n - 1, opts, byAddress);
      if prev.err.Some? then prev
      else DecodeField(c, body, prev.fields, n - 1, opts, byAddress)
  }

  /** The loop keeps every field's name and flags, and does not touch a field it has not reached. */
  lemma {:induction false} DecodePrefixShape(
    c: Collaborators, body: map<string, Json>, fields: seq<Field>, n: nat, opts: UnmarshalOptions, byAddress: bool)
    requires n <= |fields|
    ensures SameShape(fields, DecodePrefix(c, body, fields, n, opts, byAddress).fields)
    ensures forall j :: n <= j < |fields| ==> DecodePrefix(c, body, fields, n, opts, byAddress).fields[j] == fields[j]
    decreases n
  {
    if n > 0 {
      DecodePrefixShape(c, body, fields, n - 1, opts, byAddress);
    }
  }

  lemma {:induction false} DecodeErrorPersists(
    c: Collaborators, body: map<string, Json>, fields: seq<Field>, n: nat, k: nat,
    opts: UnmarshalOptions, byAddress: bool)
    requires n <= k <= |fields|
    requires DecodePrefix(c, body, fields, n, opts, byAddress).err.Some?
    ensures DecodePrefix(c, body, fields, k, opts, byAddress) == DecodePrefix(c, body, fields, n, opts, byAddress)
    decreases k
  {
    if k > n {
      DecodeErrorPersists(c, body, fields, n, k - 1, opts, byAddress);
      DecodePrefixErrStep(c, body, fields, k - 1, opts, byAddress);
    }
  }

  /** An iteration that starts from an error changes nothing. */
  lemma DecodePrefixErrStep(
    c: Collaborators, body: map<string, Json>, fields: seq<Field>, i: nat, opts: UnmarshalOptions, byAddress: bool)
    requires i < |fields|
    requires DecodePrefix(c, body, fields, i, opts, byAddress).err.Some?
    ensures DecodePrefix(c, body, fields, i + 1, opts, byAddress) == DecodePrefix(c, body, fields, i, opts, byAddress)
  {
  }

  /** One more iteration of the loop, taken from a state without error. */
  lemma DecodePrefixStep(
    c: Collaborators, body: map<string, Json>, fields0: seq<Field>, i: nat,
    opts: UnmarshalOptions, byAddress: bool, fields: seq<Field>)
    requires i < |fields0|
    requires DecodePrefix(c, body, fields0, i, opts, byAddress) == Progress(fields, None)
    ensures i < |fields|
    ensures DecodePrefix(c, body, fields0, i + 1, opts, byAddress) == DecodeField(c, body, fields, i, opts, byAddress)
  {
  }

  /** DecodeNested once the destination is known to be a struct. */
  lemma DecodeNestedOfRecord(
    c: Collaborators, body: map<string, Json>, dest: Value, opts: UnmarshalOptions, byAddress: bool, fields: seq<Field>)
    requires Reflected(dest).Record? && ReachedFields(dest) == fields
    ensures
      var p := DecodePrefix(c, body, fields, |fields|, opts, byAddress);
      DecodeNested(c, body, dest, opts, byAddress)
        == if p.err.Some? then Written(WithReflected(dest, Record(p.fields)), p.err)
           else c.mapToStruct(body, WithReflected(dest, Record(p.fields)))
  {
  }

  /** decodeNestedProtoMessages with the options already defaulted. */
  function DecodeNested(
    c: Collaborators, body: map<string, Json>, dest: Value, opts: UnmarshalOptions, byAddress: bool): Written<Value> {
    match Reflected(dest)
    case Record(_) =>
      var fields := ReachedFields(dest);   // field.CanSet() needs an addressable struct
      var p := DecodePrefix(c, body, fields, |fields|, opts, byAddress);
      var written := WithReflected(dest, Record(p.fields));
      if p.err.Some? then Written(written, p.err)
      else c.mapToStruct(body, written)
    case _ => Written(dest, Some(ReflectPanic))   // Type() of a nil value, NumField of a non-struct
  }

  /** UnmarshalByReflection with the options already defaulted. */
  function Unmarshal(c: Collaborators, reader: Reader, dest: Value, opts: UnmarshalOptions): Written<Value> {
    match ReadAll(reader)
    case Err(e) => Written(dest, Some(e))
    case Ok(data) =>
      if dest.Proto? then
        var w := c.protoUnmarshal(opts, data, dest.msg);
        Written(dest.(msg := w.dest), w.err)
      else
        match c.jsonUnmarshalObject(data)
        case Err(e) => Written(dest, Some(e))
        case Ok(body) => DecodeNested(c, body, dest, opts, false)
  }

  /** The body of the loop at utils.go:43-127 for field `i`, returning early on each error. */
  method DecodeFieldInPlace(
    c: Collaborators, body: map<string, Json>, fields: seq<Field>, i: nat, opts: UnmarshalOptions)
    returns (p: Progress)
    requires i < |fields|
    ensures p == DecodeField(c, body, fields, i, opts, false)
  {
    var field := fields[i];
    var key := field.name;
    var current := fields;
    if !field.settable {
      return Progress(fields, None);
    }
    if !field.interfaceable {
      return Progress(fields, Some(ReflectPanic));
    }
    if field.value.Proto? {
      if key !in body {
        return Progress(fields, None);
      }
      var marshaledField := c.jsonMarshal(body[key]);
      if marshaledField.Err? {
        return Progress(fields, Some(marshaledField.error));
      }
      var w := c.protoUnmarshal(opts, marshaledField.value, field.value.msg);
      current := SetFieldValue(fields, i, Proto(field.value.ptr, w.dest));
      if w.err.Some? {
        return Progress(current, w.err);
      }
      field := current[i];
    }
    if field.value.Record? {
      return Progress(current, Some(ReflectPanic));
    }
    if key !in body {
      return Progress(current, None);
    }
    var marshaled := c.jsonMarshal(body[key]);
    if marshaled.Err? {
      return Progress(current, Some(marshaled.error));
    }
    if !NonNilPointer(field.value) {
      return Progress(current, Some(InvalidUnmarshal));   // json.Unmarshal of the copy field.Interface() returns
    }
    var w := c.jsonUnmarshalInto(marshaled.value, field.value);
    return Progress(SetFieldValue(current, i, w.dest), w.err);
  }

  /** decodeNestedProtoMessages: a loop over the fields, writing each one in place, then MapToStruct. */
  method DecodeNestedProtoMessages(
    c: Collaborators, body: map<string, Json>, dest: Value, unmarshalOptions: Option<UnmarshalOptions>)
    returns (r: Written<Value>)
    ensures r == DecodeNested(c, body, dest, UnmarshalOptionsOrDefault(unmarshalOptions), false)
  {
    var opts := if unmarshalOptions.None? then DefaultUnmarshalOptions else unmarshalOptions.value;
    var v := Reflected(dest);
    if !v.Record? {
      return Written(dest, Some(ReflectPanic));
    }
    var fields := ReachedFields(dest);
    DecodeNestedOfRecord(c, body, dest, opts, false, fields);
    var p := DecodeFields(c, body, fields, opts);
    if p.err.Some? {
      return Written(WithReflected(dest, Record(p.fields)), p.err);
    }
    return c.mapToStruct(body, WithReflected(dest, Record(p.fields)));
  }

  /** The loop at utils.go:43-127: each field in turn is written in place, and the first error ends the loop. */
  method DecodeFields(c: Collaborators, body: map<string, Json>, fields0: seq<Field>, opts: UnmarshalOptions)
    returns (p: Progress)
    ensures p == DecodePrefix(c, body, fields0, |fields0|, opts, false)
  {
    var fields := fields0;
    for i := 0 to |fields0|
      invariant DecodePrefix(c, body, fields0, i, opts, false) == Progress(fields, None)
    {
      DecodePrefixStep(c, body, fields0, i, opts, false, fields);
      p := DecodeFieldInPlace(c, body, fields, i, opts);
      fields := p.fields;
      if p.err.Some? {
        DecodeErrorPersists(c, body, fields0, i + 1, |fields0|, opts, false);
        return p;
      }
    }
    return Progress(fields, None);
  }

  /** UnmarshalByReflection: read everything, then either one protobuf decode or the map-based decode. */
  method UnmarshalByReflection(
    c: Collaborators, reader: Reader, dest: Value, unmarshalOptions: Option<UnmarshalOptions>)
    returns (r: Written<Value>)
    ensures r == Unmarshal(c, reader, dest, UnmarshalOptionsOrDefault(unmarshalOptions))
  {
    var opts := if unmarshalOptions.None? then DefaultUnmarshalOptions else unmarshalOptions.value;
    var data := ReadAll(reader);
    if data.Err? {
      return Written(dest, Some(data.error));
    }
    if dest.Proto? {
      var w := c.protoUnmarshal(opts, data.value, dest.msg);
      return Written(dest.(msg := w.dest), w.err);
    }
    var body := c.jsonUnmarshalObject(data.value);
    if body.Err? {
      return Written(dest, Some(body.error));
    }
    r := DecodeNestedProtoMessages(c, body.value, dest, Some(opts));
  }

  /**
   * The order of the checks: a read error is returned first with `dest`
   * untouched; a message destination gets one protobuf decode of all the
   * data; a body that does not parse is reported before any field is decoded.
   */
  lemma UnmarshalOrder(c: Collaborators, reader: Reader, dest: Value, opts: UnmarshalOptions)
    ensures ReadAll(reader).Err? ==> Unmarshal(c, reader, dest, opts) == Written(dest, Some(ReadAll(reader).error))
    ensures ReadAll(reader).Ok? && dest.Proto? ==>
      var w := c.protoUnmarshal(opts, ReadAll(reader).value, dest.msg);
      Unmarshal(c, reader, dest, opts) == Written(Proto(dest.ptr, w.dest), w.err)
    ensures ReadAll(reader).Ok? && !dest.Proto? && c.jsonUnmarshalObject(ReadAll(reader).value).Err? ==>
      Unmarshal(c, reader, dest, opts) == Written(dest, Some(c.jsonUnmarshalObject(ReadAll(reader).value).error))
    ensures ReadAll(reader).Ok? && !dest.Proto? && c.jsonUnmarshalObject(ReadAll(reader).value).Ok? ==>
      Unmarshal(c, reader, dest, opts) == DecodeNested(c, c.jsonUnmarshalObject(ReadAll(reader).value).value, dest, opts, false)
  {
  }

  /** Over fields none of which can be set, the loop changes nothing. */
  lemma {:induction false} NothingSettableSkipped(
    c: Collaborators, body: map<string, Json>, fields: seq<Field>, n: nat, opts: UnmarshalOptions, byAddress: bool)
    requires n <= |fields|
    requires forall k :: 0 <= k < |fields| ==> !fields[k].settable
    ensures DecodePrefix(c, body, fields, n, opts, byAddress) == Progress(fields, None)
    decreases n
  {
    if n > 0 {
      NothingSettableSkipped(c, body, fields, n - 1, opts, byAddress);
      DecodePrefixStep(c, body, fields, n - 1, opts, byAddress, fields);
    }
  }

  /**
   * A destination passed by value is a copy: no field can be set, so every
   * field is skipped and the parsed body goes to `MapToStruct` with the
   * destination as it was.
   */
  lemma ByValueDestinationSkipsFields(
    c: Collaborators, body: map<string, Json>, fields: seq<Field>, opts: UnmarshalOptions, byAddress: bool)
    ensures DecodeNested(c, body, Record(fields), opts, byAddress) == c.mapToStruct(body, Record(fields))
  {
    NothingSettableSkipped(c, body, ReachedFields(Record(fields)), |fields|, opts, byAddress);
  }

  /** `body1` and `body2` hold the same entries under the Go names of `fields`. */
  ghost predicate AgreeOnNames(body1: map<string, Json>, body2: map<string, Json>, fields: seq<Field>) {
    forall j :: 0 <= j < |fields| ==>
      && (fields[j].name in body1 <==> fields[j].name in body2)
      && (fields[j].name in body1 ==> body1[fields[j].name] == body2[fields[j].name])
  }

  /**
   * Body entries are looked up by Go field name: entries under any other key
   * (JSON names from tags included) do not affect the fields.
   */
  lemma {:induction false} DecodePrefixReadsGoNames(
    c: Collaborators, body1: map<string, Json>, body2: map<string, Json>, fields: seq<Field>, n: nat,
    opts: UnmarshalOptions, byAddress: bool)
    requires n <= |fields|
    requires AgreeOnNames(body1, body2, fields)
    ensures DecodePrefix(c, body1, fields, n, opts, byAddress) == DecodePrefix(c, body2, fields, n, opts, byAddress)
    decreases n
  {
    if n > 0 {
      DecodePrefixReadsGoNames(c, body1, body2, fields, n - 1, opts, byAddress);
      var prev := DecodePrefix(c, body1, fields, n - 1, opts, byAddress);
      DecodePrefixShape(c, body1, fields, n - 1, opts, byAddress);
      var x := fields[n - 1].name;
      assert prev.fields[n - 1].name == x;
      assert (x in body1 <==> x in body2) && (x in body1 ==> body1[x] == body2[x]);
      DecodeFieldReadsGoName(c, body1, body2, prev.fields, n - 1, opts, byAddress);
    }
  }

  /** One iteration reads the body only under the field's own Go name. */
  lemma DecodeFieldReadsGoName(
    c: Collaborators, body1: map<string, Json>, body2: map<string, Json>, fields: seq<Field>, i: nat,
    opts: UnmarshalOptions, byAddress: bool)
    requires i < |fields|
    requires fields[i].name in body1 <==> fields[i].name in body2
    requires fields[i].name in body1 ==> body1[fields[i].name] == body2[fields[i].name]
    ensures DecodeField(c, body1, fields, i, opts, byAddress) == DecodeField(c, body2, fields, i, opts, byAddress)
  {
  }

  /**
   * A message field present in the body is decoded twice: once by the
   * protobuf codec, then, because the branch does not `continue`, again by
   * encoding/json into the decoded message (a typed nil is refused there).
   */
  lemma ProtoFieldDecodedTwice(
    c: Collaborators, body: map<string, Json>, fields: seq<Field>, i: nat, opts: UnmarshalOptions, data: Bytes)
    requires i < |fields|
    requires fields[i].settable && fields[i].interfaceable && fields[i].value.Proto?
    requires fields[i].name in body && c.jsonMarshal(body[fields[i].name]) == Ok(data)
    requires c.protoUnmarshal(opts, data, fields[i].value.msg).err.None?
    ensures
      var decoded := Proto(fields[i].value.ptr, c.protoUnmarshal(opts, data, fields[i].value.msg).dest);
      var w := c.jsonUnmarshalInto(data, decoded);
      DecodeField(c, body, fields, i, opts, false)
        == if decoded.msg.Msg? then Progress(SetFieldValue(fields, i, w.dest), w.err)
           else Progress(SetFieldValue(fields, i, decoded), Some(InvalidUnmarshal))
  {
  }

  /**
   * The error returns of a message field present in the body: a failed
   * re-encoding leaves the fields as they were; a failed protobuf decode
   * keeps what that decode wrote into the message, and no encoding/json
   * decode follows.
   */
  lemma ProtoFieldErrorsReturned(
    c: Collaborators, body: map<string, Json>, fields: seq<Field>, i: nat, opts: UnmarshalOptions, byAddress: bool)
    requires i < |fields|
    requires fields[i].settable && fields[i].interfaceable && fields[i].value.Proto? && fields[i].name in body
    ensures c.jsonMarshal(body[fields[i].name]).Err? ==>
      DecodeField(c, body, fields, i, opts, byAddress) == Progress(fields, Some(c.jsonMarshal(body[fields[i].name]).error))
    ensures c.jsonMarshal(body[fields[i].name]).Ok? ==>
      var w := c.protoUnmarshal(opts, c.jsonMarshal(body[fields[i].name]).value, fields[i].value.msg);
      w.err.Some? ==>
        DecodeField(c, body, fields, i, opts, byAddress)
          == Progress(SetFieldValue(fields, i, Proto(fields[i].value.ptr, w.dest)), w.err)
  {
  }

  /**
   * As written, a settable field that holds no message, no struct and no
   * non-nil pointer (a `string`, a slice, a map, a nil pointer) is refused
   * as soon as its Go name is in the body: json.Unmarshal is handed a copy
   * of it. The field keeps its value.
   */
  lemma CopiedFieldRefused(
    c: Collaborators, body: map<string, Json>, fields: seq<Field>, i: nat, opts: UnmarshalOptions)
    requires i < |fields|
    requires fields[i].settable && fields[i].interfaceable && !fields[i].value.Proto? && !fields[i].value.Record?
    requires !NonNilPointer(fields[i].value)
    requires fields[i].name in body && c.jsonMarshal(body[fields[i].name]).Ok?
    ensures DecodeField(c, body, fields, i, opts, false) == Progress(fields, Some(InvalidUnmarshal))
  {
  }

  /** `struct{ Name string }` with a `Name` entry in the body, passed by pointer. */
  function NameStruct(s: string): Value {
    Pointer(Record([Field("Name", "", true, true, Plain(JString(s)))]))
  }

  /**
   * As written, decoding a body with a `Name` entry into `&struct{ Name
   * string }` fails with InvalidUnmarshalError before MapToStruct runs, and
   * `Name` keeps its value.
   */
  lemma StringFieldRejected(c: Collaborators, body: map<string, Json>, opts: UnmarshalOptions, s: string)
    requires "Name" in body && c.jsonMarshal(body["Name"]).Ok?
    ensures DecodeNested(c, body, NameStruct(s), opts, false) == Written(NameStruct(s), Some(InvalidUnmarshal))
  {
    var fields := ReachedFields(NameStruct(s));
    assert fields == Reflected(NameStruct(s)).fields;
    DecodeNestedOfRecord(c, body, NameStruct(s), opts, false, fields);
    DecodePrefixStep(c, body, fields, 0, opts, false, fields);
    CopiedFieldRefused(c, body, fields, 0, opts);
  }

  /**
   * Decoding through the field's address: a present settable field that is
   * neither a message nor a struct fails exactly when encoding/json does
   * and, when the decode writes through the address, takes what it wrote.
   */
  lemma AddressedFieldDecoded(
    c: Collaborators, body: map<string, Json>, fields: seq<Field>, i: nat, opts: UnmarshalOptions, data: Bytes)
    requires i < |fields|
    requires fields[i].settable && fields[i].interfaceable && !fields[i].value.Proto? && !fields[i].value.Record?
    requires fields[i].name in body && c.jsonMarshal(body[fields[i].name]) == Ok(data)
    ensures
      var w := c.jsonUnmarshalInto(data, Pointer(fields[i].value));
      var r := DecodeField(c, body, fields, i, opts, true);
      && r.err == w.err
      && (w.dest.Pointer? ==> r.fields == SetFieldValue(fields, i, w.dest.target))
  {
  }

  /**
   * Decoding through the field's address, `&struct{ Name string }` takes
   * the decoded `Name` and the whole body then goes to MapToStruct.
   */
  lemma StringFieldDecodedByAddress(
    c: Collaborators, body: map<string, Json>, opts: UnmarshalOptions, s: string, data: Bytes)
    requires "Name" in body && c.jsonMarshal(body["Name"]) == Ok(data)
    requires c.jsonUnmarshalInto(data, Pointer(Plain(JString(s)))).err.None?
    requires c.jsonUnmarshalInto(data, Pointer(Plain(JString(s)))).dest.Pointer?
    ensures
      var decoded := c.jsonUnmarshalInto(data, Pointer(Plain(JString(s)))).dest.target;
      DecodeNested(c, body, NameStruct(s), opts, true)
        == c.mapToStruct(body, Pointer(Record([Field("Name", "", true, true, decoded)])))
  {
    var fields := ReachedFields(NameStruct(s));
    assert fields == Reflected(NameStruct(s)).fields;
    DecodeNestedOfRecord(c, body, NameStruct(s), opts, true, fields);
    DecodePrefixStep(c, body, fields, 0, opts, true, fields);
    AddressedFieldDecoded(c, body, fields, 0, opts, data);
    var decoded := c.jsonUnmarshalInto(data, Pointer(Plain(JString(s)))).dest.target;
    assert SetFieldValue(fields, 0, decoded) == [Field("Name", "", true, true, decoded)];
  }

  /**
   * After a loop that ends without error, the whole parsed body, not only
   * the entries the loop used, is applied to the updated destination.
   */
  lemma WholeBodyApplied(
    c: Collaborators, body: map<string, Json>, dest: Value, opts: UnmarshalOptions, byAddress: bool)
    requires Reflected(dest).Record?
    ensures
      var fields := ReachedFields(dest);
      var p := DecodePrefix(c, body, fields, |fields|, opts, byAddress);
      && (p.err.None? ==> DecodeNested(c, body, dest, opts, byAddress) == c.mapToStruct(body, WithReflected(dest, Record(p.fields))))
      && (p.err.Some? ==> DecodeNested(c, body, dest, opts, byAddress) == Written(WithReflected(dest, Record(p.fields)), p.err))
  {
  }

  /** A settable field whose Go name is absent from the body keeps its value, and so does every field that cannot be set. */
  lemma {:induction false} UntouchedFields(
    c: Collaborators, body: map<string, Json>, fields: seq<Field>, n: nat,
    opts: UnmarshalOptions, byAddress: bool, k: nat)
    requires k < |fields| && n <= |fields|
    requires !fields[k].settable || (fields[k].name !in body && !fields[k].value.Record?)
    ensures DecodePrefix(c, body, fields, n, opts, byAddress).fields[k] == fields[k]
    decreases n
  {
    if n > 0 {
      UntouchedFields(c, body, fields, n - 1, opts, byAddress, k);
      var prev := DecodePrefix(c, body, fields, n - 1, opts, byAddress);
      assert prev.fields[k] == fields[k];
    }
  }
}
