# go-json protojson encoder and decoder, modelled in Dafny

This project models the reflection-driven core of the `go-json` library's
protobuf-aware JSON encoder and decoder:

- **The classifiers.** Each package has a `NewMapper`. It sorts the fields of
  one struct value into three buckets: protobuf messages, nested structs
  (each with a mapper of its own), and regular fields. It also records each
  field's JSON name.
- **The traversals that use a mapper.**
  - The encoder's `PrecomputeMarshalByReflection` builds a `map[string]any` keyed by
    JSON name. Messages go in as raw protojson bytes.
  - The decoder's `UnmarshalByReflection` parses the body into a map. It
    copies regular entries verbatim into `mappedBody`, decodes message fields
    with protojson, decodes nested structs recursively, and hands
    `mappedBody` to `goreflect.ValueToReflectStruct`.
- **The older mapper-less variants** in `encoder/protojson/utils.go` and
  `decoder/protojson/utils.go`. They route straight from the value and key by
  Go field name.
- **`ToReader`** in `decoder/utils.go`. It turns a reader, a string or a byte
  slice into an `io.Reader`.

## How the Go program is represented

Go reflection becomes an explicit value datatype, `Values.Value`:

- A struct is a `Record` listing its fields in declaration order.
- Each `Field` carries its Go name, its raw tag, what `CanSet` reports for
  it once its struct is addressable, what `CanInterface` reports for it, and
  its value.
- Whether a struct is addressable depends on how it is reached.
  `GetDereferencedValue` of a pointer gives an addressable struct. A struct
  held by value in an `any` is a copy, and none of its fields can be set.
  `Values.ReachedFields` applies this rule. It matters for `NewMapper(T{})`,
  and for the classifier's recursion on `fieldValue.Interface()` of a
  by-value struct field.
- A protobuf message is a `Proto`. It remembers whether the field's kind is
  pointer or interface. It also keeps the generated struct behind the
  pointer, which reflection can see.
- The remaining values are the untyped `Nil`, non-message pointers and
  `Plain` JSON-like data.

Everything the library calls but does not define is a field of
`Values.Collaborators`: a function of its inputs that may fail. That covers
the tag parser, protojson, encoding/json, `ValueToReflectStruct`,
`MapToStruct` and `reflect.New` of a message type. A point where Go's
reflect package would panic ends the model with the error `ReflectPanic`.

Operations that write into a destination in place return a
`Written(dest, err)` pair. Writes made before an error stay visible in
`dest`. `processField` mutates its caller's map, so that map is a class
(`EncoderReflect.ResultMap`).

Each loop of the source is a Dafny method with a `for` loop. Each is proved
equal to a specification function, usually a fold over the first `n` fields.
The properties are then proved about that function.

The model follows the code in these points:

- it caches no mappers;
- it returns nested errors unchanged rather than wrapped with a field path;
- it panics (here: `ReflectPanic`) rather than returning an error in the
  cases noted in the contracts.

## Model

| member | source | states |
|---|---|---|
| `Decoder.ToReader` | decoder/utils.go:19-30 | A reader comes back unchanged. A string or byte slice yields a reader whose content is exactly those bytes. The result is `ErrInvalidInstance` exactly for nil and every other input. |
| `EncoderMapper.Classify` | encoder/protojson/mapper.go:34-52 | A nil instance is refused with `ErrNilStructInstance`. A value that is not a struct after one dereference is refused. |
| `EncoderMapper.NewMapper` | encoder/protojson/mapper.go:34-108 | The loop that fills the four maps and recurses into nested structs builds exactly the mapper `Classify` describes, errors included. |
| `EncoderMapper.AddFieldRecords` | encoder/protojson/mapper.go:76-100 | Recording one field puts it under its JSON name in exactly its category's bucket. Every other name is left as it was. |
| `EncoderMapper.ClassifyPrefixPartition` | encoder/protojson/mapper.go:52-101 | After the first n fields (names unique), every field is recorded as described below. `jsonFieldNames` holds exactly the interfaceable fields, and the three buckets together hold the same names. |
| `EncoderMapper.ClassifyPartition` | encoder/protojson/mapper.go:59-100 | A field that cannot be interfaced is in no map. Each other field has a JSON-name entry and exactly one bucket: proto if its value is a message, else regular if its kind is not struct (so pointers to structs are regular), else nested with the nested struct's own mapper. |
| `EncoderMapper.ClassifyFirstError` | encoder/protojson/mapper.go:64-98 | A tag-parse error, or an error from the nested `NewMapper`, aborts construction and is returned unchanged. |
| `EncoderMapper.EncodeField` | encoder/protojson/mapper.go:139-195 | A field with no JSON-name entry is skipped, and only such fields are. Every entry is written under the field's JSON name. The buckets are checked in the order regular, nested, proto. A regular field stores its value verbatim. A nested field stores the map its own mapper builds, and that mapper's error is returned unchanged. A proto-bucket value that is not a message gives `ErrFieldNotProtoMessage(name)`. A message's entry is protojson's raw output. A mapped field in no bucket gives `ErrFieldNotHandled(name)`. |
| `EncoderMapper.PrecomputeMarshalByReflection` | encoder/protojson/mapper.go:122-198 | Nil options default to the zero options. A value that is not a struct is refused. Otherwise the result is exactly `Precompute`: on error no map, only the error. |
| `EncoderMapper.PrecomputeFields` | encoder/protojson/mapper.go:139-197 | The loop with early returns yields exactly the fold `PrecomputePrefix` over all fields. |
| `EncoderMapper.EncodeFieldInPlace` | encoder/protojson/mapper.go:140-195 | The loop body, recursing into nested structs, computes exactly `EncodeField`. |
| `EncoderMapper.PrecomputeKeys` | encoder/protojson/mapper.go:144-191 | On success the output's keys are exactly the JSON names of the fields the mapper lists. |
| `EncoderMapper.PrecomputeEntry` | encoder/protojson/mapper.go:155-191 | The entry under a field's JSON key is what that field produced, unless a later field shares the key (the later write wins). |
| `EncoderMapper.PrecomputeFirstError` | encoder/protojson/mapper.go:162-195 | The first field whose encoding fails decides the error of the whole call. |
| `EncoderMapper.ClassifiedEncodes` | encoder/protojson/mapper.go:52-195 | Take a mapper `NewMapper` built from a value with unique field names. Encoding that same value with it never misroutes a field: it fails only if protojson does. |
| `EncoderReflect.EncodeValue` | encoder/protojson/utils.go:34-62 | Encoding one field value: a message becomes its raw protojson bytes and a marshal error is returned as is. A struct becomes its recursively built map, or the recursive call's error. Any other value is stored verbatim. A field that cannot be interfaced is refused. |
| `EncoderReflect.ProcessField` | encoder/protojson/utils.go:23-64 | Without a field descriptor it is a no-op returning no error. Otherwise it writes exactly one key, the Go field name, on success, and nothing on failure. |
| `EncoderReflect.Marshal` | encoder/protojson/utils.go:87-97 | A value that is not a struct after removing one pointer level is refused. |
| `EncoderReflect.PrecomputeMarshalByReflection` | encoder/protojson/utils.go:78-117 | Nil options default to the zero options. One pointer level is removed. The loop that lets `processField` fill a fresh map yields exactly `Marshal`. |
| `EncoderReflect.MarshalKeys` | encoder/protojson/utils.go:97-115 | On success the keys are exactly the Go names of the fields that can be interfaced. |
| `EncoderReflect.MarshalEntry` | encoder/protojson/utils.go:39-61 | With unique names, each interfaceable field's entry is the encoding of its value. |
| `EncoderReflect.MarshalFirstError` | encoder/protojson/utils.go:106-114 | The first interfaceable field whose processing fails decides the error, and no map is returned. |
| `EncoderReflect.MarshalIgnoresTags` | encoder/protojson/utils.go:78-117 | The JSON tag functions are never consulted: replacing them changes no output. |
| `EncoderAgreement.EncodersAgree` | encoder/protojson/mapper.go:139-195 | Suppose every JSON name equals the Go name. Then encoding a value through the mapper built from it gives exactly what the mapper-less encoder gives, errors included. |
| `DecoderReflect.DecodeGeneric` | decoder/protojson/utils.go:78-98 | A struct-kind field ends in a panic (`field.Elem()` on a struct). An absent key leaves everything unchanged. A present entry is re-encoded by encoding/json, whose error is returned. As written, json.Unmarshal is then handed a copy of the field (`field.Interface()`). A field that is not a non-nil pointer is refused with `InvalidUnmarshalError` and keeps its value. A pointer is written through: the field takes the result and the decode error is returned. Decoding through the field's address instead, the decode's error is returned and the field takes what was written behind the address. Only the field at hand can change. |
| `DecoderReflect.DecodeField` | decoder/protojson/utils.go:45-99 | A field that cannot be set is skipped entirely. A settable field whose Go name is absent from the body is left unchanged. A struct-kind field panics. A settable, interfaceable field that holds no message takes the generic branch, `DecodeGeneric`. Only this field changes, and never its name or flags. |
| `DecoderReflect.DecodePrefixShape` | decoder/protojson/utils.go:43-127 | The loop keeps the number, names and flags of the fields. The fields it has not reached are untouched. |
| `DecoderReflect.DecodeFieldInPlace` | decoder/protojson/utils.go:45-126 | The loop body with its early returns computes exactly `DecodeField`. |
| `DecoderReflect.DecodeNestedProtoMessages` | decoder/protojson/utils.go:24-131 | Nil options default. A destination that is not a struct panics. After the loop, `MapToStruct` is applied unless the loop failed: exactly `DecodeNested`. |
| `DecoderReflect.DecodeFields` | decoder/protojson/utils.go:43-127 | The loop writes fields in place and stops at the first error, which keeps earlier writes: exactly the fold `DecodePrefix`. |
| `DecoderReflect.UnmarshalByReflection` | decoder/protojson/utils.go:144-174 | Reads everything, then does either one protobuf decode or the map-based decode: exactly `Unmarshal`. |
| `DecoderReflect.UnmarshalOrder` | decoder/protojson/utils.go:155-173 | A read error is returned first with the destination untouched. A message destination gets exactly one protobuf decode of all the data. A body that does not parse is reported before any field is decoded. |
| `DecoderReflect.DecodePrefixReadsGoNames` | decoder/protojson/utils.go:47-105 | Body entries are looked up by Go field name. Two bodies that agree under the fields' Go names give the same fields. |
| `DecoderReflect.ProtoFieldDecodedTwice` | decoder/protojson/utils.go:55-98 | A present message field is decoded by protojson. Because no `continue` follows, it is then decoded again by encoding/json into the decoded message; a typed nil message is refused there with `InvalidUnmarshalError`. |
| `DecoderReflect.ProtoFieldErrorsReturned` | decoder/protojson/utils.go:55-75 | For a present message field, a json.Marshal error is returned with the fields unchanged. A protojson error is returned with the field holding what protojson wrote, and no encoding/json decode follows. |
| `DecoderReflect.CopiedFieldRefused` | decoder/protojson/utils.go:78-97 | As written, a settable field holding no message, no struct and no non-nil pointer (a string, a slice, a map, a nil pointer) is refused with `InvalidUnmarshalError` once its Go name is in the body, and keeps its value. |
| `DecoderReflect.StringFieldRejected` | decoder/protojson/utils.go:43-130 | As written, `&struct{ Name string }` with a `Name` entry in the body fails with `InvalidUnmarshalError` before `MapToStruct` runs, and `Name` is unchanged. |
| `DecoderReflect.AddressedFieldDecoded` | decoder/protojson/utils.go:78-97 | Decoding through the field's address, a present settable field with no message and no struct fails exactly when encoding/json does, and takes what encoding/json wrote behind the address. |
| `DecoderReflect.StringFieldDecodedByAddress` | decoder/protojson/utils.go:43-130 | Decoding through the field's address, `&struct{ Name string }` takes the decoded `Name`, and the whole body then goes to `MapToStruct`. |
| `DecoderReflect.ByValueDestinationSkipsFields` | decoder/protojson/utils.go:41-130 | For a destination passed by value, no field can be set (utils.go:50). Every field is skipped, and the body goes to `MapToStruct` with the destination unchanged. |
| `DecoderReflect.WholeBodyApplied` | decoder/protojson/utils.go:127-130 | After a loop without error, the whole parsed body reaches `MapToStruct`; after an error, the partly written destination is returned with that error. |
| `DecoderReflect.UntouchedFields` | decoder/protojson/utils.go:49-83 | A field that cannot be set keeps its value through the whole loop. So does a settable non-struct field whose Go name is absent. |
| `DecoderMapper.Classify` | decoder/protojson/mapper.go:36-125 | Nil gives `ErrNilDestinationInstance`. A message instance gives a mapper that is only marked `isProtoMessage`, and no field is inspected. The mapper built for a struct lists its field names in order. As written it carries no JSON names. |
| `DecoderMapper.Build` | decoder/protojson/mapper.go:38-124 | The nil, message and non-struct checks, then the loop, build exactly the mapper `Classify` describes, errors included. |
| `DecoderMapper.ClassifyFields` | decoder/protojson/mapper.go:63-117 | The loop filling the four maps yields exactly the fold `ClassifyPrefix` over all fields. |
| `DecoderMapper.ClassifyNext` | decoder/protojson/mapper.go:63-117 | One more iteration, from a state without error, reaches the fold over one more field. |
| `DecoderMapper.ClassifyFieldInPlace` | decoder/protojson/mapper.go:64-116 | The loop body with its early returns, recursing for nested structs, computes exactly `ClassifyField`. |
| `DecoderMapper.NewMapper` | decoder/protojson/mapper.go:36-125 | The constructor as written: `Classify` with the computed JSON names dropped. |
| `DecoderMapper.NewMapperKeepingNames` | decoder/protojson/mapper.go:118-124 | The constructor as evidently intended: the mapper keeps `jsonFieldNames`. |
| `DecoderMapper.AddFieldRecords` | decoder/protojson/mapper.go:86-116 | Recording one field puts it under its JSON name in exactly its category's bucket. Every other name is left as it was. |
| `DecoderMapper.ClassifyPrefixPartition` | decoder/protojson/mapper.go:63-117 | After the first n fields (names unique), every field is recorded as described below. The computed JSON names and the three buckets together hold exactly the settable fields. |
| `DecoderMapper.ClassifyPartition` | decoder/protojson/mapper.go:69-124 | A field that cannot be set, as `ReachedFields` reports it, is in no map. Each settable field is in exactly one bucket, chosen in order: proto on the runtime value, else nested if a struct after one pointer dereference (with its own mapper), else regular. The JSON names are in the mapper exactly when they are kept. |
| `DecoderMapper.ByValueClassifiesNothing` | decoder/protojson/mapper.go:59-124 | A struct passed by value is a copy. None of its fields can be set, so its mapper lists the field names and nothing else. No tag of it is parsed, so it cannot fail. |
| `DecoderMapper.NestedByValueNamesOnly` | decoder/protojson/mapper.go:90-113 | A settable struct field held by value is classified through the copy `fieldValue.Interface()` returns. Its nested mapper lists the inner field names and nothing else. |
| `DecoderMapper.ClassifyFirstError` | decoder/protojson/mapper.go:74-110 | A tag-parse error, or an error from the nested `NewMapper`, aborts construction and is returned unchanged. |
| `DecoderMapper.UnmarshalWith` | decoder/protojson/mapper.go:158-275 | Decoding into a pointer leaves a pointer, so the recursive decode into a field's address can be written back into that field. |
| `DecoderMapper.UnmarshalPrefixShape` | decoder/protojson/mapper.go:183-269 | The loop keeps the number, names and flags of the destination's fields. The fields it has not reached are untouched. |
| `DecoderMapper.DecodeProtoInto` | decoder/protojson/mapper.go:233-243 | The protobuf decode into a message changes only that field. |
| `DecoderMapper.UnmarshalFieldCases` | decoder/protojson/mapper.go:184-268 | A field with no mapped JSON name, or one absent from the body, is skipped. Regular is checked first and copies the body entry verbatim under the Go name. A present field in no bucket gives `ErrFieldNotHandled(name)`. Only the entry under this field's Go name can change, and only this field. A mapper shorter than the destination panics. |
| `DecoderMapper.UnmarshalByReflection` | decoder/protojson/mapper.go:138-276 | The method with the nil checks, the options default and the loop yields exactly `Unmarshal`. |
| `DecoderMapper.UnmarshalInto` | decoder/protojson/mapper.go:158-275 | The message and parse checks, the loop and `ValueToReflectStruct` yield exactly `UnmarshalWith`. |
| `DecoderMapper.UnmarshalFields` | decoder/protojson/mapper.go:184-269 | The loop writing fields in place and filling `mappedBody`, recursing for nested structs, yields exactly the fold `UnmarshalPrefix`. |
| `DecoderMapper.UnmarshalFieldInPlace` | decoder/protojson/mapper.go:184-268 | The loop body with its early returns computes exactly `UnmarshalField`. |
| `DecoderMapper.UnmarshalChecks` | decoder/protojson/mapper.go:143-177 | A nil mapper is refused before a nil destination. A message mapper refuses a destination that is not a message, and otherwise gives the whole body to protojson unchanged. A malformed body is reported before any field is touched. |
| `DecoderMapper.UnmarshalReadsMappedKeys` | decoder/protojson/mapper.go:192-202 | The loop reads the body only under the JSON names the mapper lists. Body keys that match no field are ignored. |
| `DecoderMapper.NoNamesMapsNothing` | decoder/protojson/mapper.go:192-196 | With no JSON names in the mapper, every field is skipped: nothing is written and `mappedBody` stays empty. |
| `DecoderMapper.RegularFieldCopied` | decoder/protojson/mapper.go:204-209 | Take a present regular field whose mapper lists the destination's fields. If the loop ends without error, the body entry sits verbatim in `mappedBody` under the field's Go name. |
| `DecoderMapper.AsWrittenDecodesNothing` | decoder/protojson/mapper.go:118-196 | Decoding through the mapper `NewMapper` returns hands an empty `mappedBody` to `ValueToReflectStruct`, whatever the body holds. |
| `DecoderMapper.DroppedNamesLoseRegularField` | decoder/protojson/mapper.go:87-209 | For a settable regular field whose JSON name is in the body: the returned mapper leaves it out of `mappedBody`, while a mapper keeping the names copies its entry under the Go name. |
| `DecoderMapper.ProtoPointerReallocated` | decoder/protojson/mapper.go:219-243 | A message pointer field always gets a fresh message before the protobuf decode, so its old content plays no part. |
| `DecoderMapper.InterfaceMessageDecodedInPlace` | decoder/protojson/mapper.go:212-243 | A message held in an interface-typed field is decoded into the message it already holds. No fresh message is allocated. The field takes protojson's result, the protojson error is returned, and on success the message is mapped under the Go name. |
| `DecoderMapper.UnmarshalFieldFailures` | decoder/protojson/mapper.go:212-265 | For a present field in the proto or nested bucket, a json.Marshal error is returned with nothing written. A proto-bucket value that is not a message gives `ErrFieldNotProtoMessage(name)`. `Set` on an unsettable pointer field, `Interface` on an uninterfaceable one and `Addr` on an unsettable nested field panic. |
| `DecoderMapper.NestedDecodedInPlace` | decoder/protojson/mapper.go:246-264 | A nested field is decoded by its own mapper through the field's address. The field takes the decoded value and the nested error is returned unchanged. On success, `mappedBody` holds the field's address under its Go name. |

## Findings

| source | as written | input that shows it | evidently intended | confidence | as-written member | corrected member |
|---|---|---|---|---|---|---|
| decoder/protojson/mapper.go:118-124 | `NewMapper` computes `jsonFieldNames` (line 87) but leaves it out of the `Mapper` it returns. `UnmarshalByReflection` then finds no JSON name at lines 192-196 and skips every field. | A struct with one exported regular field `Name string` tagged `json:"name"`, passed to `NewMapper` by pointer and decoded from `{"name":"x"}`. `mappedBody` stays empty and `Name` is not set. | The mapper carries `jsonFieldNames`, so `Name` is copied into `mappedBody` and set from `"x"`. | high; not executed | `DecoderMapper.AsWrittenDecodesNothing` | `DecoderMapper.NewMapperKeepingNames` |
| decoder/protojson/utils.go:92-94 | The mapper-less decoder hands `field.Interface()`, a copy of the field's value, to `json.Unmarshal`. encoding/json refuses any target that is not a non-nil pointer with `InvalidUnmarshalError`, which the loop returns. | `struct{ Name string }`, passed by pointer to `UnmarshalByReflection`, with body `{"Name":"x"}`. The call fails with `InvalidUnmarshalError` and `Name` is not set. | `json.Unmarshal(marshaledField, field.Addr().Interface())`: `Name` is set from `"x"` and the body then goes to `MapToStruct`. | high; not executed | `DecoderReflect.StringFieldRejected` | `DecoderReflect.StringFieldDecodedByAddress` |

`DecoderMapper.NewMapper` models the constructor as written. The lemma
`DecoderMapper.DroppedNamesLoseRegularField` puts both versions side by side
on the same field. `DecoderMapper.RegularFieldCopied` proves the intended
behaviour for any mapper that carries the names.

The specification functions of the mapper-less decoder take a flag
`byAddress`. With `false` they model `field.Interface()` as written, and the
methods use that. With `true` they model `field.Addr().Interface()`.
`DecoderReflect.CopiedFieldRefused` and `DecoderReflect.AddressedFieldDecoded`
state the two versions for any field.

## Left out

- Go reflection panics are the error value `ReflectPanic`; unwinding and `recover` are not modelled.
- The helper packages are not part of this model: `goreflect` (`GetDereferencedValue`, `GetDereferencedType`, `NewReflection`, `ValueToReflectStruct`, `MapToStruct`) and `gostringsjson` (`GetJSONTag`, `GetJSONTagName`). The dereferencing helpers are taken to remove exactly one pointer level. The others are uninterpreted collaborator functions.
- protojson and encoding/json are uninterpreted functions. Round trips through them, and which errors they raise, are not modelled. The one exception: json.Unmarshal refuses a target that is not a non-nil pointer with `InvalidUnmarshalError`. That check runs after encoding/json's syntax check, which output of json.Marshal is taken to pass. Of the protojson options only `AllowPartial` and `DiscardUnknown` are represented; both are passed through.
- A field's static type is read off its value. An interface-typed field is represented by what it holds: a message is `Proto` with `ptr` false, a non-message pointer is `Pointer` or `NilPointer`, nil is `Nil`, a struct is `Record`, anything else is `Plain`. So an interface-typed field holding a struct cannot be told apart from a struct field.
- The decoder mapper's `reflectType` keeps only the field names. `reflect.New(fieldType.Elem())` uses the message type name taken from the destination's field.
- DecoderMapper.UnmarshalField: for a non-message pointer field in the proto bucket, Go first stores a fresh pointer in the field and then returns `ErrFieldNotProtoMessage`. The model returns the error with the field unchanged.
- A nil `*Mapper` stored in `nestedStructs` cannot be represented. `NewMapper` never stores one.
- EncoderMapper.PrecomputeMarshalByReflection: a nil `*Mapper` receiver cannot be represented, since the method takes a mapper value. With a nil receiver Go panics on `m.jsonFieldNames` at encoder/protojson/mapper.go:145 once the struct has a field; a struct without fields gives an empty map and no error. The decoder's nil receiver is modelled (`ErrNilMapper`).
- A nil `io.Reader` (`io.ReadAll` would panic) cannot be represented.
- Pointers are modelled by value. Two fields sharing one pointer, and writes seen through another alias, are not modelled. A write through `dest` comes back as the new destination value.
- The properties that relate fields to map entries assume unique field names within a struct, as Go requires. Embedded-field promotion is not modelled.
- Error texts are not modelled; the error variants carry the field name that the format strings use.
- The JSON pass-through packages (`encoder/json`, `decoder/json`) are plain I/O wrappers over encoding/json and are not part of this model.
- The wiring in `encoder/protojson/encoder.go` and `decoder/protojson/decoder.go` is not part of this model. It only sets options and calls the traversals. Its never-used mapper cache and the `[]byte`/`io.Reader` mismatch at decoder/protojson/decoder.go:128 are left out with it.
- The unreachable struct branch of the mapper-less decoder (decoder/protojson/utils.go:101-126) is not modelled: reaching it requires `field.Elem()` on a struct, which panics first.
