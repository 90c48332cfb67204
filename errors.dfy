/**
 * Error values of the encoder and decoder packages, and the wrappers the
 * rest of the model returns them in.
 *
 * Errors that the source formats with a field name (ErrFieldNotHandled,
 * ErrFieldNotProtoMessage) carry that name as a parameter. The encoder and
 * the decoder package each have their own format string, so each has its
 * own variant.
 */
module Errors {

  datatype Error =
    // package decoder
    | InvalidInstance                      // ErrInvalidInstance
    // package decoder/protojson
    | NilMapper                            // ErrNilMapper
    | NilDestination                       // ErrNilDestination
    | NilDestinationInstance               // ErrNilDestinationInstance
    | DestinationNotProtoMessage           // ErrDestinationNotProtoMessage
    | DecodeFieldNotHandled(field: string)       // "field not handled on decoding: %s"
    | DecodeFieldNotProtoMessage(field: string)  // "field %s is not a proto message"
    // package encoder/protojson
    | NilStructInstance                    // ErrNilStructInstance
    | EncodeFieldNotHandled(field: string)       // "field not handled on encoding: %s"
    | EncodeFieldNotProtoMessage(field: string)  // "field is not a proto message: %s"
    // an error produced by a collaborator (encoding/json, protojson, the tag
    // parser, goreflect, a reader); it is passed on unchanged
    | Collaborator(reason: string)
    // encoding/json's *InvalidUnmarshalError: json.Unmarshal was handed a
    // target that is not a non-nil pointer
    | InvalidUnmarshal
    // a point where Go's reflect package would panic; the model stops there
    | ReflectPanic

  datatype Option<+T> = None | Some(value: T)

  /** A value or the error that replaced it: Go's `(T, error)` pair. */
  datatype Result<+T> = Ok(value: T) | Err(error: Error) {
    predicate IsFailure() { Err? }

    function PropagateFailure<U>(): Result<U>
      requires Err?
    {
      Err(error)
    }

    function Extract(): T
      requires Ok?
    {
      value
    }
  }

  /**
   * The state of a destination after an operation that writes into it in
   * place, together with the error the operation returned. Writes done
   * before an error stay visible in `dest`.
   */
  datatype Written<+T> = Written(dest: T, err: Option<Error>)
}
