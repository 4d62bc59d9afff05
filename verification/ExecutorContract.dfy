/** Intents, evidence and the validators shared by both ends of the protocol
    (packages/execution/src/executor.ts and the result types of operation.ts). */
module ExecutorContract {
  import opened Bindings

  const MAX_HANDSHAKE_BYTES := 16384
  const MAX_DISPATCH_BYTES := 65536
  const MAX_RECEIPT_BYTES := 131072

  datatype Intent = Intent(operationId: string, tool: string, inputDigest: string, binding: Binding)

  datatype Outcome =
    | Accepted
    | Completed(result: string)
    | DomainFailure(failure: string)
    | Unknown(reason: string)

  datatype Source = DispatchSource | ReconnectCache

  datatype ExecutorEvidence = ExecutorEvidence(
    operationId: string,
    inputDigest: string,
    binding: Evidence,
    source: Source,
    outcome: Outcome)

  datatype Phase = HandshakePhase | BeforeDispatch | AfterDispatch | ReceiptPhase | CancelPhase | Connection | Reconnect

  datatype FenceReason = Field(mismatch: Mismatch) | OperationReason | InputReason

  datatype ExecutorError =
    | TransportError(phase: Phase)
    | FenceError(reason: FenceReason)

  datatype Result<+T> = Ok(value: T) | Err(error: ExecutorError)

  /** `reason ?? "generation"`: the fallback used wherever a fence cannot name the mismatch. */
  function FenceFor(binding: Binding, evidence: Evidence): ExecutorError {
    match MismatchReason(binding, evidence)
    case Some(m) => FenceError(Field(m))
    case None => FenceError(Field(Generation))
  }

  function ValidateHandshake(binding: Binding, evidence: Evidence): Result<Evidence> {
    if SameEvidence(binding, evidence) then Ok(evidence) else Err(FenceFor(binding, evidence))
  }

  function ValidateEvidence(intent: Intent, evidence: ExecutorEvidence): Result<ExecutorEvidence> {
    if evidence.operationId != intent.operationId then Err(FenceError(OperationReason))
    else if evidence.inputDigest != intent.inputDigest then Err(FenceError(InputReason))
    else if !SameEvidence(intent.binding, evidence.binding) then Err(FenceFor(intent.binding, evidence.binding))
    else Ok(evidence)
  }

  function EvidenceFor(intent: Intent, outcome: Outcome): ExecutorEvidence {
    ExecutorEvidence(intent.operationId, intent.inputDigest, ToEvidence(intent.binding), DispatchSource, outcome)
  }

  /** Result of an operation as the Session journals it: the intent's identity, the evidence's outcome. */
  datatype Canonical = Canonical(operationId: string, binding: Binding, outcome: Outcome)

  function CanonicalFromEvidence(intent: Intent, evidence: ExecutorEvidence): Canonical {
    Canonical(intent.operationId, intent.binding, evidence.outcome)
  }

  /** Evidence passes validation exactly when it is what `EvidenceFor` would make for the intent, up to
      the outcome and the source; nothing else can be journalled for the intent. */
  lemma ValidEvidenceIsMadeForTheIntent(intent: Intent, evidence: ExecutorEvidence)
    ensures ValidateEvidence(intent, evidence).Ok?
            <==> evidence == EvidenceFor(intent, evidence.outcome).(source := evidence.source)
    ensures ValidateEvidence(intent, evidence).Err? ==> ValidateEvidence(intent, evidence).error.FenceError?
  {
    FencesAreIdentity(intent.binding, intent.binding, evidence.binding);
  }

  /** The evidence an intent makes names it throughout, comes from a dispatch, and passes its own validation. */
  lemma OwnEvidenceIsValid(intent: Intent, outcome: Outcome)
    ensures var evidence := EvidenceFor(intent, outcome);
            && evidence.operationId == intent.operationId && evidence.inputDigest == intent.inputDigest
            && evidence.binding == ToEvidence(intent.binding) && evidence.source == DispatchSource
            && evidence.outcome == outcome && ValidateEvidence(intent, evidence) == Ok(evidence)
  {
    FencesAreIdentity(intent.binding, intent.binding, ToEvidence(intent.binding));
    hide SameEvidence;
  }
}
