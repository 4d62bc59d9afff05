/** The native operation coordinator (packages/execution/src/operation.ts): its methods are effect
    sequences, so each is a function of what its effects answered. */
module Coordinator {
  import opened Bindings
  import opened ExecutorContract
  import opened Sizes
  import Admission

  datatype Kind = ComponentKind | FencedKind | TransportKind | UnresolvedKind

  /** Where a call stopped; the source tells these apart by message only. */
  datatype Stop =
    | IntentTooLarge | ComponentUnavailable | NotBound | StaleBinding | NotAdmitted | AdmissionDiffers
    | ReceiptFailed | EvidenceTooLarge | EvidenceRejected | HandshakeFailed
    | DispatchFenced | BeforeDispatchFailure | NoReceipt | NotTerminal

  datatype Reply = Journal(result: Canonical) | Fail(kind: Kind, stop: Stop)

  const LOST := "Executor acknowledgement was lost after dispatch; reconcile before retrying"

  function FailureKind(error: ExecutorError): Kind {
    if error.FenceError? then FencedKind else TransportKind
  }

  function Lookup(admitted: seq<Intent>, operationId: string): Option<Intent> {
    var i := Admission.IndexOf(admitted, operationId);
    if i < |admitted| then Some(admitted[i]) else None
  }

  function EnsureAdmitted(component: Option<Admission.State>, intent: Intent): Option<Reply> {
    if component.None? then Some(Fail(ComponentKind, ComponentUnavailable))
    else
      var state := component.value;
      if state.binding.None? then Some(Fail(ComponentKind, NotBound))
      else if !SameBinding(state.binding.value, intent.binding) then Some(Fail(FencedKind, StaleBinding))
      else match Lookup(state.admitted, intent.operationId)
        case None => Some(Fail(ComponentKind, NotAdmitted))
        case Some(admitted) =>
          if admitted.tool != intent.tool || admitted.inputDigest != intent.inputDigest
             || !SameBinding(admitted.binding, intent.binding)
          then Some(Fail(ComponentKind, AdmissionDiffers)) else None
  }

  /** Evidence is bounded, validated against the intent and turned into the canonical result. */
  function Accept(intent: Intent, evidence: ExecutorEvidence): Reply {
    if EvidenceBytes(evidence) > MAX_RECEIPT_BYTES then Fail(TransportKind, EvidenceTooLarge)
    else match ValidateEvidence(intent, evidence)
      case Err(error) => Fail(FailureKind(error), EvidenceRejected)
      case Ok(verified) => Journal(CanonicalFromEvidence(intent, verified))
  }

  /** What the coordinator makes of the Executor's answer to a dispatch. */
  function AfterDispatchReply(intent: Intent, dispatched: Result<ExecutorEvidence>): Reply {
    match dispatched
    case Err(FenceError(_)) => Fail(FencedKind, DispatchFenced)
    case Err(TransportError(phase)) =>
      if phase == BeforeDispatch then Fail(TransportKind, BeforeDispatchFailure)
      else Journal(Canonical(intent.operationId, intent.binding, Unknown(LOST)))
    case Ok(evidence) => Accept(intent, evidence)
  }

  function HandshakeReply(intent: Intent, answer: Result<Evidence>): Result<Evidence> {
    if HandshakeBytes(intent.binding) > MAX_HANDSHAKE_BYTES then Err(TransportError(BeforeDispatch))
    else match answer
      case Err(error) => Err(error)
      case Ok(evidence) => ValidateHandshake(intent.binding, evidence)
  }

  datatype Answers = Answers(
    component: Option<Admission.State>,
    receipt: Result<Option<ExecutorEvidence>>,
    handshake: Result<Evidence>,
    dispatched: Result<ExecutorEvidence>)

  function Dispatch(intent: Intent, a: Answers): Reply {
    if IntentBytes(intent) > MAX_DISPATCH_BYTES then Fail(TransportKind, IntentTooLarge)
    else match EnsureAdmitted(a.component, intent)
      case Some(failure) => failure
      case None =>
        match a.receipt
        case Err(error) => Fail(FailureKind(error), ReceiptFailed)
        case Ok(Some(cached)) => Accept(intent, cached)
        case Ok(None) =>
          match HandshakeReply(intent, a.handshake)
          case Err(error) => Fail(FailureKind(error), HandshakeFailed)
          case Ok(_) => AfterDispatchReply(intent, a.dispatched)
  }

  /** Recovery: reads the receipt and never dispatches. */
  function Reconcile(intent: Intent, a: Answers): Reply {
    match EnsureAdmitted(a.component, intent)
    case Some(failure) => failure
    case None =>
      match a.receipt
      case Err(error) => Fail(FailureKind(error), ReceiptFailed)
      case Ok(None) => Fail(UnresolvedKind, NoReceipt)
      case Ok(Some(cached)) => Accept(intent, cached)
  }

  /** `cleanup` forwards only terminal settlements to the component. */
  function CleanupCommand(intent: Intent, settlement: Canonical): Option<Admission.Command> {
    match settlement.outcome
    case Completed(result) =>
      Some(Admission.Cleanup(intent.operationId,
                             Admission.Settlement(settlement.operationId, settlement.binding, true, result)))
    case DomainFailure(failure) =>
      Some(Admission.Cleanup(intent.operationId,
                             Admission.Settlement(settlement.operationId, settlement.binding, false, failure)))
    case _ => None
  }

  /** Nothing is journalled for an operation the component has not admitted under its current binding. */
  lemma JournalRequiresAdmission(intent: Intent, a: Answers)
    requires Dispatch(intent, a).Journal? || Reconcile(intent, a).Journal?
    ensures a.component.Some? && a.component.value.binding == Some(intent.binding)
    ensures intent in a.component.value.admitted && PlacementMatchesWorkspace(intent.binding)
  {
    hide Accept, IntentBytes, HandshakeReply, AfterDispatchReply;
    assert EnsureAdmitted(a.component, intent).None?;
    hide Dispatch, Reconcile;
    var state := a.component.value;
    FencesAreIdentity(state.binding.value, intent.binding, ToEvidence(intent.binding));
    var i := Admission.IndexOf(state.admitted, intent.operationId);
    FencesAreIdentity(state.admitted[i].binding, intent.binding, ToEvidence(intent.binding));
    assert state.admitted[i] == intent;
  }

  /** The component has admitted this very intent under its present binding. */
  predicate Admitted(component: Option<Admission.State>, intent: Intent) {
    && component.Some? && component.value.binding == Some(intent.binding) && PlacementMatchesWorkspace(intent.binding)
    && intent in component.value.admitted
  }

  /** Evidence that can be journalled: made for the intent, and within the receipt bound. */
  predicate Acceptable(intent: Intent, evidence: ExecutorEvidence) {
    && evidence == EvidenceFor(intent, evidence.outcome).(source := evidence.source)
    && EvidenceBytes(evidence) <= MAX_RECEIPT_BYTES
  }

  lemma AdmissionExactly(component: Option<Admission.State>, intent: Intent)
    requires component.Some? ==> Admission.Valid(component.value)
    ensures EnsureAdmitted(component, intent).None? <==> Admitted(component, intent)
    ensures EnsureAdmitted(component, intent).Some? ==> EnsureAdmitted(component, intent).value.Fail?
  {
    if component.Some? && component.value.binding.Some? {
      var state := component.value;
      FencesAreIdentity(state.binding.value, intent.binding, ToEvidence(intent.binding));
      var i := Admission.IndexOf(state.admitted, intent.operationId);
      if i < |state.admitted| {
        FencesAreIdentity(state.admitted[i].binding, intent.binding, ToEvidence(intent.binding));
      }
      if intent in state.admitted {
        var k :| 0 <= k < |state.admitted| && state.admitted[k] == intent;
        assert i == k;
      }
    }
  }

  lemma AcceptExactly(intent: Intent, evidence: ExecutorEvidence)
    ensures Accept(intent, evidence).Journal? <==> Acceptable(intent, evidence)
    ensures Acceptable(intent, evidence) ==>
              Accept(intent, evidence) == Journal(Canonical(intent.operationId, intent.binding, evidence.outcome))
  {
    ValidEvidenceIsMadeForTheIntent(intent, evidence);
    hide EvidenceBytes, EvidenceFor, SameEvidence, MismatchReason;
  }

  /** Recovery, exactly: it journals if and only if the operation is admitted and the Executor holds evidence made
      for it within the receipt bound, and then the outcome of that evidence. */
  lemma ReconcileExactly(intent: Intent, a: Answers)
    requires a.component.Some? ==> Admission.Valid(a.component.value)
    ensures var cached := if a.receipt.Ok? then a.receipt.value else None;
            && (Reconcile(intent, a).Journal? <==>
                  Admitted(a.component, intent) && cached.Some? && Acceptable(intent, cached.value))
            && (Reconcile(intent, a).Journal? ==>
                  Reconcile(intent, a) == Journal(Canonical(intent.operationId, intent.binding, cached.value.outcome)))
  {
    hide EnsureAdmitted, Admitted, Acceptable, Accept, Admission.Valid;
    AdmissionExactly(a.component, intent);
    if a.receipt.Ok? && a.receipt.value.Some? { AcceptExactly(intent, a.receipt.value.value); }
  }

  /** Dispatch, exactly: under the schemas it journals if and only if the operation is admitted and either its
      receipt can be journalled, or there is none, the handshake is the binding's own, and the exchange gave
      evidence that can be journalled or was lost after the frame had left. */
  lemma DispatchExactly(intent: Intent, a: Answers)
    requires IntentSchema(intent)
    requires a.component.Some? ==> Admission.Valid(a.component.value)
    ensures Dispatch(intent, a).Journal? <==>
              && Admitted(a.component, intent) && a.receipt.Ok?
              && match a.receipt.value
                 case Some(cached) => Acceptable(intent, cached)
                 case None =>
                   && a.handshake == Ok(ToEvidence(intent.binding))
                   && match a.dispatched
                      case Ok(evidence) => Acceptable(intent, evidence)
                      case Err(error) => error.TransportError? && error.phase != BeforeDispatch
  {
    hide EnsureAdmitted, Admitted, Acceptable, Accept, Admission.Valid, IntentBytes, HandshakeBytes, IntentSchema;
    SchemaFits(intent);
    AdmissionExactly(a.component, intent);
    if a.receipt.Ok? && a.receipt.value.Some? { AcceptExactly(intent, a.receipt.value.value); }
    if a.dispatched.Ok? { AcceptExactly(intent, a.dispatched.value); }
    if a.handshake.Ok? { FencesAreIdentity(intent.binding, intent.binding, a.handshake.value); }
    hide SameBinding, SameEvidence, SameWorkspacePolicy, MismatchReason;
  }

  /** Recovery agrees with the call it recovers. */
  lemma ReconcileAgreesWithDispatch(intent: Intent, a: Answers)
    requires IntentSchema(intent) && a.receipt.Ok? && a.receipt.value.Some?
    ensures Dispatch(intent, a) == Reconcile(intent, a)
  {
    hide EnsureAdmitted, Accept, IntentBytes, HandshakeBytes, IntentSchema;
    SchemaFits(intent);
  }

  lemma SchemaFits(intent: Intent)
    requires IntentSchema(intent)
    ensures IntentBytes(intent) <= MAX_DISPATCH_BYTES && HandshakeBytes(intent.binding) <= MAX_HANDSHAKE_BYTES
  {
    hide IntentBytes, HandshakeBytes, Identifier, BindingSchema;
    IntentFits(intent);
    HandshakeFits(intent.binding);
  }

  /** A settled operation can always be released, exactly once and alone: the journalled terminal result is accepted by
      the component that admitted it, and repeating the release is refused. Uncertain results never release. */
  lemma TerminalResultsRelease(state: Admission.State, intent: Intent, outcome: Outcome)
    requires Admission.Valid(state) && intent in state.admitted
    ensures var command := CleanupCommand(intent, Canonical(intent.operationId, intent.binding, outcome));
            && (command.Some? <==> outcome.Completed? || outcome.DomainFailure?)
            && (outcome.Completed? ==>
                  command == Some(Admission.Cleanup(intent.operationId,
                    Admission.Settlement(intent.operationId, intent.binding, true, outcome.result))))
            && (outcome.DomainFailure? ==>
                  command == Some(Admission.Cleanup(intent.operationId,
                    Admission.Settlement(intent.operationId, intent.binding, false, outcome.failure))))
            && (command.Some? ==>
                  && Admission.Transition(state, command.value).Next?
                  && Admission.Transition(Admission.After(state, command.value), command.value).Rejected?
                  && (forall other :: other in Admission.After(state, command.value).admitted <==>
                        other in state.admitted && other != intent))
  {
    var command := CleanupCommand(intent, Canonical(intent.operationId, intent.binding, outcome));
    if command.Some? {
      var k :| 0 <= k < |state.admitted| && state.admitted[k] == intent;
      var i := Admission.IndexOf(state.admitted, intent.operationId);
      assert i == k;
      FencesAreIdentity(state.binding.value, intent.binding, ToEvidence(intent.binding));
      FencesAreIdentity(intent.binding, intent.binding, ToEvidence(intent.binding));
      var after := Admission.After(state, command.value);
      forall other ensures other in after.admitted <==> other in state.admitted && other != intent {
        Admission.StepWindow(state, command.value, other);
        if other in state.admitted && other.operationId == intent.operationId {
          var j :| 0 <= j < |state.admitted| && state.admitted[j] == other;
          assert j == k;
        }
      }
      forall m | 0 <= m < |after.admitted| ensures after.admitted[m].operationId != intent.operationId {
        var other := after.admitted[m];
        assert other in after.admitted;
        var j :| 0 <= j < |state.admitted| && state.admitted[j] == other;
        assert j != k;
      }
    }
  }

  /** The error kind a caller sees is not by itself definite: after the exchange it is `transport` exactly for the
      before-dispatch failure and for evidence over the receipt bound, whatever became of the operation. */
  lemma TransportKindExactly(intent: Intent, dispatched: Result<ExecutorEvidence>)
    ensures var reply := AfterDispatchReply(intent, dispatched);
            reply.Fail? && reply.kind == TransportKind <==>
              || dispatched == Err(TransportError(BeforeDispatch))
              || (dispatched.Ok? && EvidenceBytes(dispatched.value) > MAX_RECEIPT_BYTES)
  {
    hide EvidenceBytes;
    if dispatched.Ok? { ValidEvidenceIsMadeForTheIntent(intent, dispatched.value); }
  }

  // ----- what a failure is called -----

  /** The Session's component does not stand behind the operation: it is not there, not bound, or has not admitted
      it. */
  predicate ComponentSays(component: Option<Admission.State>, intent: Intent) {
    component.None? || component.value.binding.None?
    || (component.value.binding == Some(intent.binding) && PlacementMatchesWorkspace(intent.binding)
        && intent !in component.value.admitted)
  }

  /** The Executor refused with a fence, or its evidence is of something else. */
  predicate Fences(intent: Intent, result: Result<ExecutorEvidence>) {
    match result
    case Err(error) => error.FenceError?
    case Ok(evidence) =>
      EvidenceBytes(evidence) <= MAX_RECEIPT_BYTES
      && evidence != EvidenceFor(intent, evidence.outcome).(source := evidence.source)
  }

  lemma AdmissionKind(component: Option<Admission.State>, intent: Intent)
    requires component.Some? ==> Admission.Valid(component.value)
    ensures var reply := EnsureAdmitted(component, intent);
            reply.Some? ==>
              reply.value.Fail?
              && reply.value.kind == (if ComponentSays(component, intent) then ComponentKind else FencedKind)
  {
    AdmissionExactly(component, intent);
    if component.Some? && component.value.binding.Some? {
      FencesAreIdentity(component.value.binding.value, intent.binding, ToEvidence(intent.binding));
    }
    hide Admission.Valid, SameBinding, Admission.IndexOf;
  }

  lemma AcceptKind(intent: Intent, evidence: ExecutorEvidence)
    ensures var reply := Accept(intent, evidence);
            reply.Fail? ==> reply.kind == (if Fences(intent, Ok(evidence)) then FencedKind else TransportKind)
  {
    ValidEvidenceIsMadeForTheIntent(intent, evidence);
    hide EvidenceBytes, EvidenceFor, ValidateEvidence;
  }

  /** The kinds of a recovery's failures, exactly: `component` and `fenced` by the component; else `unresolved` if
      the Executor has no evidence, `fenced` if it refused with a fence or has evidence of something else, and
      `transport`. */
  lemma ReconcileKinds(intent: Intent, a: Answers)
    requires a.component.Some? ==> Admission.Valid(a.component.value)
    requires Reconcile(intent, a).Fail?
    ensures Reconcile(intent, a).kind
         == if ComponentSays(a.component, intent) then ComponentKind
            else if !Admitted(a.component, intent) then FencedKind
            else match a.receipt
              case Err(error) => if error.FenceError? then FencedKind else TransportKind
              case Ok(None) => UnresolvedKind
              case Ok(Some(cached)) => if Fences(intent, Ok(cached)) then FencedKind else TransportKind
  {
    hide EnsureAdmitted, Admitted, Accept, Fences, Admission.Valid;
    AdmissionExactly(a.component, intent);
    AdmissionKind(a.component, intent);
    AdmittedIsNotDenied(a.component, intent);
    if a.receipt.Ok? && a.receipt.value.Some? { AcceptKind(intent, a.receipt.value.value); }
    hide ComponentSays;
  }

  lemma AdmittedIsNotDenied(component: Option<Admission.State>, intent: Intent)
    ensures Admitted(component, intent) ==> !ComponentSays(component, intent)
  {
  }

  /** The kinds of a dispatch's failures, exactly: as for a recovery where there is a receipt; without one, `fenced`
      if the handshake or the exchange refused with a fence or told of something else, and `transport` otherwise. */
  lemma DispatchKinds(intent: Intent, a: Answers)
    requires IntentSchema(intent)
    requires a.component.Some? ==> Admission.Valid(a.component.value)
    requires Dispatch(intent, a).Fail?
    ensures Dispatch(intent, a).kind
         == if ComponentSays(a.component, intent) then ComponentKind
            else if !Admitted(a.component, intent) then FencedKind
            else match a.receipt
              case Err(error) => if error.FenceError? then FencedKind else TransportKind
              case Ok(Some(cached)) => if Fences(intent, Ok(cached)) then FencedKind else TransportKind
              case Ok(None) =>
                match a.handshake
                case Err(error) => if error.FenceError? then FencedKind else TransportKind
                case Ok(evidence) =>
                  if evidence != ToEvidence(intent.binding) || Fences(intent, a.dispatched) then FencedKind
                  else TransportKind
  {
    hide EnsureAdmitted, Admitted, Accept, Admission.Valid, IntentBytes, HandshakeBytes, IntentSchema, EvidenceBytes;
    SchemaFits(intent);
    AdmissionExactly(a.component, intent);
    AdmissionKind(a.component, intent);
    AdmittedIsNotDenied(a.component, intent);
    if a.receipt.Ok? && a.receipt.value.Some? { AcceptKind(intent, a.receipt.value.value); }
    if a.dispatched.Ok? { AcceptKind(intent, a.dispatched.value); }
    if a.handshake.Ok? { FencesAreIdentity(intent.binding, intent.binding, a.handshake.value); }
    hide ComponentSays, SameBinding, SameEvidence, MismatchReason, EvidenceFor, ToEvidence;
  }
}
