/**
 * The two encoders side by side: the mapper-based traversal of
 * encoder/protojson/mapper.go and the mapper-less one of
 * encoder/protojson/utils.go route every field the same way. They differ
 * only in the keys: JSON names against Go names.
 */
module EncoderAgreement {
  import opened Errors
  import opened Values
  import M = EncoderMapper
  import R = EncoderReflect

  /**
   * When every JSON name is the Go name, encoding a value through the mapper
   * built from it gives exactly what the mapper-less encoder gives, errors
   * included.
   */
  lemma EncodersAgree(c: Collaborators, v: Value, m: M.Mapper, opts: MarshalOptions)
    requires M.Classify(c, v) == Ok(m)
    requires Reflected(v) == ElemIfPointer(v)
    requires DeepUnique(v)
    requires forall f: Field :: JsonName(c, f) == Ok(f.name)
    ensures M.Precompute(c, m, v, opts) == R.Marshal(c, v, opts)
    decreases v, 1
  {
    M.ClassifyPartition(c, v, m);
    var fields := Reflected(v).fields;
    DeepUniqueFields(v);
    PrefixesAgree(c, v, fields, |fields|, m, opts);
  }

  lemma {:induction false} PrefixesAgree(c: Collaborators, root: Value, fields: seq<Field>, n: nat, m: M.Mapper, opts: MarshalOptions)
    requires Reflected(root) == Record(fields) && ElemIfPointer(root) == Record(fields) && n <= |fields|
    requires forall k :: 0 <= k < |fields| ==> M.Records(c, m, fields[k])
    requires forall k :: 0 <= k < |fields| ==> DeepUnique(fields[k].value)
    requires forall f: Field :: JsonName(c, f) == Ok(f.name)
    ensures M.PrecomputePrefix(c, m, root, fields, n, opts) == R.MarshalPrefix(c, root, fields, n, opts)
    decreases root, 0, n
  {
    if n > 0 {
      PrefixesAgree(c, root, fields, n - 1, m, opts);
      var f := fields[n - 1];
      FieldBelow(root, n - 1);
      assert M.Records(c, m, f);
      if f.interfaceable {
        assert m.jsonFieldNames[f.name] == f.name;
        match M.CategoryOf(f.value)
        case ProtoField =>
        case RegularField =>
        case NestedField =>
          EncodersAgree(c, f.value, m.nestedStructs[f.name], opts);
      }
    }
  }
}
