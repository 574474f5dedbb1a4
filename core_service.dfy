/**
 * `CorkCoreService`: the run registry and the request handling of the
 * `SubmitRun`, `StreamRunEvents` and `ApplyGraphPatch` RPCs.
 */
module CoreService {
  import opened Proto
  import opened Hex
  import opened Integrity
  import opened Forwarding

  const MissingHandleMessage := "missing run handle"
  const MissingRunIdMessage := "missing run_id"
  const MissingPatchMessage := "missing patch"
  const NegativeSeqMessage := "since_event_seq must be non-negative"
  const ContractMismatchMessage := "contract_manifest sha256 mismatch"
  const PolicyMismatchMessage := "policy sha256 mismatch"
  const SubmitUnimplementedMessage := "SubmitRun not yet implemented"
  const MismatchPrefix := "sha256 mismatch (expected "
  const MismatchMiddle := ", provided "

  /** An event log of the store; its contents are not part of this model. */
  class InMemoryEventLog {
    constructor ()
    {
    }
  }

  /** `entry(k).or_insert_with(|| v)`: the entry for `k`, inserting `v` when there is none. */
  function GetOrInsert<K, V>(m: map<K, V>, k: K, v: V): (r: (map<K, V>, V))
    ensures r.0.Keys == m.Keys + {k}
    ensures forall j :: j in m ==> j in r.0 && r.0[j] == m[j]
    ensures r.0[k] == r.1
    ensures k !in m ==> r.1 == v
  {
    if k in m then (m, m[k]) else (m[k := v], v)
  }

  /** A second get-or-insert of the same key finds the first one's entry and changes nothing. */
  lemma GetOrInsertIdempotent<K, V>(m: map<K, V>, k: K, v: V, w: V)
    ensures var first := GetOrInsert(m, k, v);
      GetOrInsert(first.0, k, w) == first
  {
  }

  /** The request checks of `stream_run_events`, in order; on success the cursor as `u64`. */
  function CheckStreamRequest(req: StreamRunEventsRequest): (r: Result<nat>)
    ensures req.handle.None? ==> r == Err(Status.InvalidArgument(MissingHandleMessage))
    ensures req.handle.Some? && req.handle.value.runId == "" ==>
      r == Err(Status.InvalidArgument(MissingRunIdMessage))
    ensures req.handle.Some? && req.handle.value.runId != "" && req.sinceEventSeq < 0 ==>
      r == Err(Status.InvalidArgument(NegativeSeqMessage))
    ensures r.Ok? <==> req.handle.Some? && req.handle.value.runId != "" && req.sinceEventSeq >= 0
    ensures r.Ok? ==> r.value == req.sinceEventSeq
  {
    match req.handle
    case None => Err(Status.InvalidArgument(MissingHandleMessage))
    case Some(handle) =>
      if handle.runId == "" then Err(Status.InvalidArgument(MissingRunIdMessage))
      else if req.sinceEventSeq < 0 then Err(Status.InvalidArgument(NegativeSeqMessage))
      else Ok(req.sinceEventSeq)
  }

  /** The rejection reason of a patch whose digest does not match. */
  function MismatchReason(expected: seq<byte>, provided: seq<byte>): (reason: string)
    ensures |reason| == 38 + 2 * |expected| + 2 * |provided|
    ensures reason[..26] == MismatchPrefix
    ensures reason[26..26 + 2 * |expected|] == HexOf(expected)
    ensures reason[26 + 2 * |expected|..37 + 2 * |expected|] == MismatchMiddle
    ensures reason[37 + 2 * |expected|..|reason| - 1] == HexOf(provided)
    ensures reason[|reason| - 1] == ')'
  {
    MismatchPrefix + HexOf(expected) + MismatchMiddle + HexOf(provided) + ")"
  }

  /**
   * A mismatch reason names the mismatch first and spells out both digests
   * at fixed positions, from which they can be read back.
   */
  lemma MismatchReasonReadsBack(expected: Digest256, provided: seq<byte>)
    requires |provided| == 32
    ensures var reason := MismatchReason(expected, provided);
      && |reason| == 166
      && reason[..26] == MismatchPrefix
      && reason[26..90] == HexOf(expected)
      && reason[101..165] == HexOf(provided)
      && UnHex(reason[26..90]) == expected
      && UnHex(reason[101..165]) == provided
  {
    var reason := MismatchReason(expected, provided);
    assert reason == MismatchPrefix + HexOf(expected) + (MismatchMiddle + HexOf(provided) + ")");
    assert reason[26..90] == HexOf(expected);
    assert reason[101..165] == HexOf(provided);
    HexRoundTrip(expected);
    HexRoundTrip(provided);
  }

  /** Different digest pairs give different rejection reasons. */
  lemma MismatchReasonInjective(e1: Digest256, p1: seq<byte>, e2: Digest256, p2: seq<byte>)
    requires |p1| == 32 && |p2| == 32
    requires MismatchReason(e1, p1) == MismatchReason(e2, p2)
    ensures e1 == e2 && p1 == p2
  {
    MismatchReasonReadsBack(e1, p1);
    MismatchReasonReadsBack(e2, p2);
  }

  /** The request checks of `apply_graph_patch` that come before the digest is verified. */
  predicate PatchRequestComplete(req: ApplyGraphPatchRequest) {
    req.handle.Some? && req.handle.value.runId != "" && req.patch.Some?
  }

  /** `apply_graph_patch`. */
  function ApplyGraphPatch(req: ApplyGraphPatchRequest, sha256: Sha256Fn): (r: Result<ApplyGraphPatchResponse>)
    // the input checks, each before every later one
    ensures req.handle.None? ==> r == Err(Status.InvalidArgument(MissingHandleMessage))
    ensures req.handle.Some? && req.handle.value.runId == "" ==>
      r == Err(Status.InvalidArgument(MissingRunIdMessage))
    ensures req.handle.Some? && req.handle.value.runId != "" && req.patch.None? ==>
      r == Err(Status.InvalidArgument(MissingPatchMessage))
    ensures PatchRequestComplete(req) && MalformedDigest(req.patch.value) ==>
      r == Err(Status.InvalidArgument(DigestLengthMessage))
    ensures r.Ok? <==> PatchRequestComplete(req) && !MalformedDigest(req.patch.value)
    // a mismatch is a soft rejection, never an error
    ensures r.Ok? ==> (r.value.accepted <==> DigestAgrees(req.patch.value, sha256))
    ensures r.Ok? ==> (r.value.rejectionReason == "" <==> r.value.accepted)
    ensures r.Ok? && !r.value.accepted ==>
      r.value.rejectionReason
        == MismatchReason(sha256(req.patch.value.canonicalJsonUtf8), DeclaredDigest(req.patch.value))
  {
    match req.handle
    case None => Err(Status.InvalidArgument(MissingHandleMessage))
    case Some(handle) =>
      if handle.runId == "" then Err(Status.InvalidArgument(MissingRunIdMessage))
      else match req.patch
        case None => Err(Status.InvalidArgument(MissingPatchMessage))
        case Some(patch) =>
          match VerifyCanonicalSha256(patch, sha256)
          case Err(status) => Err(status)
          case Ok(Mismatch(expected, provided)) =>
            Ok(ApplyGraphPatchResponse(false, MismatchReason(expected, provided)))
          case Ok(MatchOrMissing) => Ok(ApplyGraphPatchResponse(true, ""))
  }

  /** A document the submission gate lets through: absent, or with a digest that is not malformed and agrees. */
  predicate PassesGate(doc: Option<CanonicalJsonDocument>, sha256: Sha256Fn) {
    doc.None? || (!MalformedDigest(doc.value) && DigestAgrees(doc.value, sha256))
  }

  /** `submit_run`: the integrity gate on the contract manifest, then on the policy. */
  function SubmitRun(req: SubmitRunRequest, sha256: Sha256Fn): (r: Result<SubmitRunResponse>)
    // submission never succeeds
    ensures r.Err?
    // the contract manifest is checked first
    ensures req.contractManifest.Some? && MalformedDigest(req.contractManifest.value) ==>
      r.error == Status.InvalidArgument(DigestLengthMessage)
    ensures req.contractManifest.Some? && !MalformedDigest(req.contractManifest.value)
              && !DigestAgrees(req.contractManifest.value, sha256) ==>
      r.error == Status.InvalidArgument(ContractMismatchMessage)
    // the policy only when the contract manifest passes
    ensures PassesGate(req.contractManifest, sha256) && req.policy.Some? && MalformedDigest(req.policy.value) ==>
      r.error == Status.InvalidArgument(DigestLengthMessage)
    ensures PassesGate(req.contractManifest, sha256) && req.policy.Some? && !MalformedDigest(req.policy.value)
              && !DigestAgrees(req.policy.value, sha256) ==>
      r.error == Status.InvalidArgument(PolicyMismatchMessage)
    // past the gate, the result is unimplemented, and only past the gate
    ensures r.error.code == Code.Unimplemented <==> PassesGate(req.contractManifest, sha256) && PassesGate(req.policy, sha256)
    ensures r.error.code == Code.Unimplemented ==> r.error == Status.Unimplemented(SubmitUnimplementedMessage)
  {
    var contract :=
      if req.contractManifest.Some? then VerifyCanonicalSha256(req.contractManifest.value, sha256)
      else Ok(MatchOrMissing);
    if contract.Err? then Err(contract.error)
    else if contract.value.Mismatch? then Err(Status.InvalidArgument(ContractMismatchMessage))
    else
      var policy :=
        if req.policy.Some? then VerifyCanonicalSha256(req.policy.value, sha256)
        else Ok(MatchOrMissing);
      if policy.Err? then Err(policy.error)
      else if policy.value.Mismatch? then Err(Status.InvalidArgument(PolicyMismatchMessage))
      else Err(Status.Unimplemented(SubmitUnimplementedMessage))
  }

  /** `{"op":"noop"}` as UTF-8. */
  const NoopPatch: seq<byte> := [123, 34, 111, 112, 34, 58, 34, 110, 111, 111, 112, 34, 125]

  function NoopPatchRequest(declared: seq<byte>): ApplyGraphPatchRequest {
    ApplyGraphPatchRequest(
      Some(RunHandle("run-1")),
      Some(CanonicalJsonDocument(NoopPatch, Some(Sha256(declared)), "cork.graph_patch.v0.1")),
      "")
  }

  /** A patch declaring 32 zero bytes is rejected with a reason that starts "sha256 mismatch", unless that is its digest. */
  lemma ZeroDigestPatchRejected(sha256: Sha256Fn)
    requires sha256(NoopPatch) != seq(32, _ => 0)
    ensures var r := ApplyGraphPatch(NoopPatchRequest(seq(32, _ => 0)), sha256);
      r.Ok? && !r.value.accepted && r.value.rejectionReason[..15] == "sha256 mismatch"
  {
    var r := ApplyGraphPatch(NoopPatchRequest(seq(32, _ => 0)), sha256);
    assert r.value.rejectionReason[..15] == MismatchPrefix[..15];
  }

  /** A patch declaring its own digest is accepted with an empty reason. */
  lemma OwnDigestPatchAccepted(sha256: Sha256Fn)
    ensures ApplyGraphPatch(NoopPatchRequest(sha256(NoopPatch)), sha256) == Ok(ApplyGraphPatchResponse(true, ""))
  {
  }

  /** The service: the registry of per-run event logs. */
  class CorkCoreService {
    var eventLogs: map<string, InMemoryEventLog>

    /** `CorkCoreService::new()`: no run has a log yet. */
    constructor ()
      ensures eventLogs == map[]
    {
      eventLogs := map[];
    }

    /** `event_log_for_run`: the run's log, created and registered on first reference. */
    method EventLogForRun(runId: string) returns (log: InMemoryEventLog)
      modifies this
      ensures (eventLogs, log) == GetOrInsert(old(eventLogs), runId, log)
      ensures runId !in old(eventLogs) ==> fresh(log)
    {
      if runId in eventLogs {
        log := eventLogs[runId];
      } else {
        log := new InMemoryEventLog();
        eventLogs := eventLogs[runId := log];
      }
    }

    /**
     * `stream_run_events`: the request checks, then the run's log, then the
     * forwarding of the subscription (`backlog`, then `live` in arrival
     * order) into `tx`. Nothing changes when a check fails.
     */
    method StreamRunEvents(req: StreamRunEventsRequest, backlog: seq<RunEvent>, live: seq<LiveItem>, tx: Channel)
      returns (r: Result<()>)
      modifies this, tx
      ensures r.Err? <==> CheckStreamRequest(req).Err?
      ensures r.Err? ==> r.error == CheckStreamRequest(req).error
      ensures r.Err? ==> eventLogs == old(eventLogs) && unchanged(tx)
      ensures r.Ok? ==> req.handle.value.runId in eventLogs
      ensures r.Ok? ==> exists log :: (eventLogs, log) == GetOrInsert(old(eventLogs), req.handle.value.runId, log)
      ensures r.Ok? ==> tx.delivered == old(tx.delivered) + Take(Intended(backlog, live), old(tx.receiverBudget))
      ensures r.Ok? ==> tx.receiverBudget == old(tx.receiverBudget) - |Take(Intended(backlog, live), old(tx.receiverBudget))|
    {
      var checked := CheckStreamRequest(req);
      if checked.Err? {
        return Err(checked.error);
      }
      var log := EventLogForRun(req.handle.value.runId);
      ForwardEvents(backlog, live, tx);
      r := Ok(());
    }
  }

  /** Two references to the same run reach the same log. */
  method SameRunSameLog(service: CorkCoreService, runId: string) returns (first: InMemoryEventLog, second: InMemoryEventLog)
    modifies service
    ensures first == second
    ensures service.eventLogs == old(service.eventLogs)[runId := first]
  {
    first := service.EventLogForRun(runId);
    second := service.EventLogForRun(runId);
  }
}
