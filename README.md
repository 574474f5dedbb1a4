# CorkCore service core, modelled in Dafny

This project models the request handling of the CorkCore gRPC service
(`crates/cork-core/src/api/core_service.rs`) and proves properties of it:

- the **integrity gate** `verify_canonical_sha256`, which reconciles a canonical
  JSON document's declared SHA-256 digest with the digest of its bytes and
  answers pass, mismatch (with both digests) or malformed declaration;
- the lowercase **hex encoder** `bytes_to_hex` used in rejection reasons;
- the **decision rules** of `apply_graph_patch` (a mismatch is a soft rejection
  with a formatted reason), `submit_run` (a mismatch is a hard error, and a
  request that passes the gate still ends in `unimplemented`) and the request
  checks of `stream_run_events`;
- the **run registry** `event_log_for_run`, a get-or-create on the service's
  map from run id to event log, as a class whose method updates that map;
- the **forwarding task** spawned by `stream_run_events`, modelled sequentially:
  it replays the subscription's backlog, then forwards live items, stops
  silently when the consumer has gone, and sends exactly one
  `unavailable("event stream lagged")` on the first lag.

Files, one module each:

- `proto.dfy` (`Proto`): the protobuf messages the service reads and writes,
  gRPC `Status`, `Result` and `Option`.
- `hex.dfy` (`Hex`): `bytes_to_hex`, its specification `HexOf` and its inverse `UnHex`.
- `integrity.dfy` (`Integrity`): `Sha256Verification` and `verify_canonical_sha256`.
- `forwarding.dfy` (`Forwarding`): the outward channel as a class, the forwarding
  loops as methods, and the specification of what the consumer receives.
- `core_service.dfy` (`CoreService`): the registry class, `stream_run_events`,
  `apply_graph_patch`, `submit_run`.

SHA-256 (FIPS 180-4, `crates/cork-hash/src/lib.rs`) is not computed: every
member that needs it takes a parameter `sha256: Sha256Fn`, an arbitrary total
function from byte strings to 32-byte digests, so every result holds for the
real hash as for any other.

The subscription that `log.subscribe(since_seq)` returns (the store crate,
`cork_store`, is not part of this model) is an input: the backlog events and
the live broadcast items in arrival order, each an event or a `Lagged` notice.
Consumer disconnection is the channel's `receiverBudget`: the number of further
sends the channel accepts before the receiver is dropped; every send after that
fails, as `mpsc::Sender::send` does once the receiver is gone. What the model
calls delivered is what the channel accepted; items still queued when a
consumer drops the stream are lost to it.

Error messages are the code's own strings (for example "sha256.bytes32 must be
32 bytes" for a malformed digest).

## Model

| member | source | states |
|---|---|---|
| `Hex.HexDigit` | crates/cork-core/src/api/core_service.rs:57 | a nibble's `{:x}` digit is one of `0-9a-f` |
| `Hex.ByteHex` | crates/cork-core/src/api/core_service.rs:57 | `{:02x}` of a byte is two lowercase hex digits whose value, high digit first, is the byte |
| `Hex.HexOf` | crates/cork-core/src/api/core_service.rs:54-60 | the rendering has two characters per byte, all of them in `0-9a-f` |
| `Hex.HexOfAt` | crates/cork-core/src/api/core_service.rs:56-58 | characters `2i` and `2i+1` are the high and the low nibble of byte `i` (`{:02x}`) |
| `Hex.HexRoundTrip` | crates/cork-core/src/api/core_service.rs:54-60 | parsing the rendering back gives the original bytes |
| `Hex.HexInjective` | crates/cork-core/src/api/core_service.rs:54-60 | different byte strings render differently |
| `Hex.BytesToHex` | crates/cork-core/src/api/core_service.rs:54-60 | the loop that appends two digits per byte produces exactly `HexOf(bytes)`, of length `2*|bytes|` |
| `Integrity.VerifyCanonicalSha256` | crates/cork-core/src/api/core_service.rs:62-83 | an error exactly when the declared digest is neither empty nor 32 bytes, and then `invalid_argument("sha256.bytes32 must be 32 bytes")`; a pass exactly when the digest is absent, empty or equal to the hash of the bytes; a mismatch carries the computed digest and the declared bytes unchanged, which then differ and are both 32 bytes |
| `Integrity.UncheckedIgnoresContent` | crates/cork-core/src/api/core_service.rs:63-68 | with no declared digest, any two documents pass, whatever their bytes |
| `Integrity.AlteredDigestMismatches` | crates/cork-core/src/api/core_service.rs:74-82 | a correct digest passes, and changing any one of its bytes yields a mismatch carrying the true digest and the altered bytes |
| `Forwarding.Channel.constructor` | crates/cork-core/src/api/core_service.rs:152 | a new channel has delivered nothing |
| `Forwarding.Channel.Send` | crates/cork-core/src/api/core_service.rs:155 | a send succeeds exactly while the receiver is still there, and then appends the item to what the channel has accepted for the consumer; a failed send changes nothing |
| `Forwarding.Replay` | crates/cork-core/src/api/core_service.rs:154-158 | the backlog replay sends one item per backlog event |
| `Forwarding.ReplayAt` | crates/cork-core/src/api/core_service.rs:154-158 | the replay sends the backlog in order: item `t` is backlog event `t` |
| `Forwarding.LiveOutput` | crates/cork-core/src/api/core_service.rs:160-175 | the live part sends at most one item per live item, and stops short of the live items only by ending in the `unavailable("event stream lagged")` error |
| `Forwarding.FirstLag` | crates/cork-core/src/api/core_service.rs:161-173 | the index of the first `Lagged` item: everything before it is an event |
| `Forwarding.LiveOutputShape` | crates/cork-core/src/api/core_service.rs:160-175 | the live part is the events before the first lag in arrival order, then exactly one `unavailable("event stream lagged")` if there is a lag, and nothing after it |
| `Forwarding.ForwardedOrder` | crates/cork-core/src/api/core_service.rs:153-176 | what a consumer receives is the backlog in order, then the live events before the first lag, then at most one error, which only a lag produces and which is the last item; when there is a lag and the consumer is still there to take it, the item right after those live events is that `unavailable` error; its length is the full stream's cut at the disconnection point |
| `Forwarding.LaterDisconnectExtends` | crates/cork-core/src/api/core_service.rs:155-166 | a consumer that stays longer receives an extension of what an earlier leaver received |
| `Forwarding.ReplayPrefix` | crates/cork-core/src/api/core_service.rs:154-158 | any item sequence that sends the first backlog events in order is the replay cut at its length |
| `Forwarding.LiveOutputPrefix` | crates/cork-core/src/api/core_service.rs:160-175 | items that forward the first live items, all events, in order are the live part cut at their length; the whole live part when the items run out; the live part less its final lag error when a lag comes next |
| `Forwarding.ReplayBacklog` | crates/cork-core/src/api/core_service.rs:154-158 | the backlog loop delivers the replay cut at the disconnection point, and reports the consumer still there exactly when the whole backlog went out |
| `Forwarding.ForwardLive` | crates/cork-core/src/api/core_service.rs:160-175 | the `while let` loop delivers the live part cut at the disconnection point |
| `Forwarding.ForwardEvents` | crates/cork-core/src/api/core_service.rs:153-176 | the task delivers the backlog followed by the live part, cut where the consumer left, and uses up exactly that many sends |
| `CoreService.GetOrInsert` | crates/cork-core/src/api/core_service.rs:40-42 | the key is present afterwards and maps to the returned log; exactly that key is added to the key set; every existing entry is unchanged; a new entry holds the new log |
| `CoreService.GetOrInsertIdempotent` | crates/cork-core/src/api/core_service.rs:40-42 | a second get-or-create of the same run returns the first one's log and changes nothing |
| `CoreService.CorkCoreService.constructor` | crates/cork-core/src/api/core_service.rs:31-33 | a new service has no run logs |
| `CoreService.CorkCoreService.EventLogForRun` | crates/cork-core/src/api/core_service.rs:35-43 | the registry's new map and the returned log are the get-or-create of the old map; a log is newly created only when the run had none |
| `CoreService.SameRunSameLog` | crates/cork-core/src/api/core_service.rs:35-43 | two lookups of the same run return the same log, and the registry gains at most that one entry |
| `CoreService.CheckStreamRequest` | crates/cork-core/src/api/core_service.rs:137-148 | missing handle, then empty run_id, then negative `since_event_seq` are reported in that order as `invalid_argument`; otherwise the cursor is passed on unchanged |
| `CoreService.CorkCoreService.StreamRunEvents` | crates/cork-core/src/api/core_service.rs:132-179 | a failed request check is returned and changes neither the registry nor the channel; otherwise the run is registered and the consumer receives the forwarded stream |
| `CoreService.MismatchReason` | crates/cork-core/src/api/core_service.rs:197-201 | the reason is the prefix "sha256 mismatch (expected ", the expected digest in hex, ", provided ", the provided bytes in hex and ")", so its length is 38 plus twice the two lengths |
| `CoreService.MismatchReasonReadsBack` | crates/cork-core/src/api/core_service.rs:197-201 | a mismatch reason is 166 characters, starts with "sha256 mismatch (expected ", and holds both digests in hex at fixed positions, from which they parse back |
| `CoreService.MismatchReasonInjective` | crates/cork-core/src/api/core_service.rs:197-201 | different digest pairs give different rejection reasons |
| `CoreService.ApplyGraphPatch` | crates/cork-core/src/api/core_service.rs:181-211 | missing handle, empty run_id, missing patch and malformed digest are `invalid_argument` errors, each before every later one; otherwise the response is `accepted` exactly when the digest is absent, empty or right, the reason is empty exactly when accepted, and a rejection's reason names the computed and the declared digest in hex |
| `CoreService.ZeroDigestPatchRejected` | crates/cork-core/src/api/core_service.rs:279-306 | the `{"op":"noop"}` patch declaring 32 zero bytes is rejected with a reason starting "sha256 mismatch", whenever that is not its hash |
| `CoreService.OwnDigestPatchAccepted` | crates/cork-core/src/api/core_service.rs:309-332 | the `{"op":"noop"}` patch declaring its own hash is accepted with an empty reason |
| `CoreService.SubmitRun` | crates/cork-core/src/api/core_service.rs:87-107 | submission never succeeds; the contract manifest is checked before the policy; a mismatch is an `invalid_argument` naming the first failing document ("contract_manifest sha256 mismatch" or "policy sha256 mismatch"); a malformed digest in either is the shared `invalid_argument("sha256.bytes32 must be 32 bytes")`, which names no document; the result is `unimplemented` exactly when both documents are absent or pass |

## Left out

- SHA-256 itself (`crates/cork-hash/src/lib.rs:8-15`) is a parameter, so the known-vector test at `crates/cork-hash/src/lib.rs:22-30` has no counterpart.
- The event store (`cork_store::InMemoryEventLog`, `EventLog`) is not part of this model: sequence-number assignment, the atomic backlog-plus-live subscription, the filtering of the backlog by `since_event_seq` and the broadcast buffer. The subscription is an input, and the cursor `CheckStreamRequest` yields is not used further; the sequence numbers the test at `core_service.rs:244-276` expects depend on that store.
- `CoreService.InMemoryEventLog` has no state: only its identity (which log a run maps to) is modelled.
- Concurrency and transport: the `RwLock` and its poisoning (`expect`), `tokio::spawn`, the channel's capacity of 32 and its backpressure, `BroadcastStream`, `ReceiverStream`, async. The forwarding task runs to completion inside `StreamRunEvents` instead of beside the response, so the interleaving of the response with deliveries is not captured.
- The number of skipped messages carried by `Lagged(n)` is kept in the datatype but does not affect the output, as in the source.
- `since_event_seq` is an `int`, not an `i64`; the cast to `u64` after the non-negativity check is the identity.
- Request fields the core never reads (`actor_id`, the other fields of `SubmitRunRequest`, `schema_id`) are carried or dropped without effect.
- The stub RPCs `cancel_run`, `get_run`, `list_runs`, `get_composite_graph` and `get_logs` only return `unimplemented` and are not modelled.
