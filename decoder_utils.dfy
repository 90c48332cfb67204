/**
 * decoder/utils.go: ToReader turns the `any` a caller hands the decoder into
 * an io.Reader.
 *
 * A Go string is a sequence of bytes, so a string argument is modelled by
 * its bytes. A reader is modelled by what reading it to the end
 * (io.ReadAll) yields; a reader the caller supplies may fail.
 */
module Decoder {
  import opened Errors
  import opened Json

  datatype Reader =
    | Stream(readAll: Result<Bytes>)   // any io.Reader: its content, or its read error
    | StringsReader(s: Bytes)          // *strings.Reader
    | BytesReader(b: Bytes)            // *bytes.Reader

  /** The dynamic types the type switch distinguishes. */
  datatype Input =
    | ReaderInput(reader: Reader)
    | StringInput(s: Bytes)
    | ByteSliceInput(b: Bytes)
    | NilInput
    | OtherInput

  /** io.ReadAll */
  function ReadAll(r: Reader): Result<Bytes> {
    match r
    case Stream(outcome) => outcome
    case StringsReader(s) => Ok(s)
    case BytesReader(b) => Ok(b)
  }

  /** ToReader: a reader unchanged, a string or a byte slice wrapped, anything else refused. */
  function ToReader(x: Input): (r: Result<Reader>)
    ensures x.ReaderInput? ==> r == Ok(x.reader)
    ensures x.StringInput? ==> r.Ok? && ReadAll(r.value) == Ok(x.s)
    ensures x.ByteSliceInput? ==> r.Ok? && ReadAll(r.value) == Ok(x.b)
    ensures r.Err? <==> x.NilInput? || x.OtherInput?
    ensures r.Err? ==> r.error == InvalidInstance
  {
    match x
    case ReaderInput(reader) => Ok(reader)
    case StringInput(s) => Ok(StringsReader(s))
    case ByteSliceInput(b) => Ok(BytesReader(b))
    case _ => Err(InvalidInstance)
  }
}
