/**
 * The protobuf messages and gRPC status values that the CorkCore service
 * exchanges with its clients, reduced to the fields the service reads or
 * writes. Optional message fields become `Option`; an RPC outcome is a
 * `Result` whose error side is a gRPC `Status`.
 */
module Proto {

  /** An unsigned 8-bit value (Rust `u8`). */
  type byte = x: int | 0 <= x < 256

  datatype Option<+T> = None | Some(value: T)

  /** The gRPC status codes the service produces. */
  datatype Code = InvalidArgument | Unavailable | Unimplemented

  datatype Status = Status(code: Code, message: string) {

    /** `Status::invalid_argument(message)`. */
    static function InvalidArgument(message: string): Status {
      Status(Code.InvalidArgument, message)
    }

    /** `Status::unavailable(message)`. */
    static function Unavailable(message: string): Status {
      Status(Code.Unavailable, message)
    }

    /** `Status::unimplemented(message)`. */
    static function Unimplemented(message: string): Status {
      Status(Code.Unimplemented, message)
    }
  }

  /** `Result<T, Status>`: either a response or a gRPC error. */
  datatype Result<+T> = Ok(value: T) | Err(error: Status)

  /** `cork.v1.Sha256`: a declared digest, meant to hold 32 bytes. */
  datatype Sha256 = Sha256(bytes32: seq<byte>)

  /** `cork.v1.CanonicalJsonDocument`. */
  datatype CanonicalJsonDocument = CanonicalJsonDocument(
    canonicalJsonUtf8: seq<byte>,
    sha256: Option<Sha256>,
    schemaId: string)

  /** `cork.v1.RunHandle`. */
  datatype RunHandle = RunHandle(runId: string)

  /** `cork.v1.RunEvent`: a sequence-numbered event of one run. */
  datatype RunEvent = RunEvent(eventSeq: int, payload: seq<byte>)

  /** `cork.v1.SubmitRunRequest`: the two documents the integrity gate reads. */
  datatype SubmitRunRequest = SubmitRunRequest(
    contractManifest: Option<CanonicalJsonDocument>,
    policy: Option<CanonicalJsonDocument>)

  /** `cork.v1.SubmitRunResponse`: never produced, since submission is not implemented. */
  datatype SubmitRunResponse = SubmitRunResponse(runId: string)

  /** `cork.v1.StreamRunEventsRequest`. */
  datatype StreamRunEventsRequest = StreamRunEventsRequest(
    handle: Option<RunHandle>,
    sinceEventSeq: int)

  /** `cork.v1.ApplyGraphPatchRequest`. */
  datatype ApplyGraphPatchRequest = ApplyGraphPatchRequest(
    handle: Option<RunHandle>,
    patch: Option<CanonicalJsonDocument>,
    actorId: string)

  /** `cork.v1.ApplyGraphPatchResponse`. */
  datatype ApplyGraphPatchResponse = ApplyGraphPatchResponse(
    accepted: bool,
    rejectionReason: string)
}
