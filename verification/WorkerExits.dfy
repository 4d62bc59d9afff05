/** From the exit of a worker to the journal and the admission window: which evidence of the Runner the coordinator can
    take (packages/runner/src/executor.ts and packages/execution/src/operation.ts). */
module WorkerExits {
  import opened Bindings
  import opened ExecutorContract
  import opened Json
  import opened Sizes
  import A = Admission
  import C = Coordinator
  import opened RunnerExecutor

  lemma ShortText(text: string)
    requires |text| <= 100
    ensures Bytes(Quote(text)) <= 602
  {
    hide Bytes, Escaped;
    QuoteBytes(text);
  }

  /** What the Runner says of a value over the output bound is short. */
  lemma ToolFailureBytes(tool: string)
    requires |tool| <= 20
    ensures Bytes(ToolFailure(tool, tool + " result exceeds the retained output limit", "operation")) <= 6000
  {
    hide Bytes, Quote, Object, MemberBytes;
    ShortText("ToolError");
    ShortText(tool);
    ShortText(tool + " result exceeds the retained output limit");
    ShortText("operation");
    ShortText("known");
    ShortText("after_change");
    ShortText("Correct the provider or workspace condition and retry");
    var members := [Member("_tag", Quote("ToolError")), Member("tool", Quote(tool)),
                    Member("message", Quote(tool + " result exceeds the retained output limit")),
                    Member("kind", Quote("operation")), Member("category", Quote("operation")),
                    Member("outcome", Quote("known")), Member("recovery", Quote("after_change")),
                    Member("nextAction", Quote("Correct the provider or workspace condition and retry"))];
    ObjectBytes(members);
    MemberBytesAtMost(members, 700);
  }

  lemma UnknownBytes(e: ExecutorEvidence, reason: string)
    requires |reason| <= 100
    ensures EvidenceBytes(e.(outcome := Unknown(reason))) <= Overhead(e) + 2000
  {
    hide Bytes, Quote, EvidenceBytes, MemberBytes, Object;
    var unknown := e.(outcome := Unknown(reason));
    ShortText(reason);
    EvidenceSplits(unknown);
    OneMember("outcome", OutcomeText(unknown.outcome));
    TwoMembers("_tag", Quote("Unknown"), "reason", Quote(reason));
    CompletedSplits(e, "");
    ShortText("Unknown");
    ShortText("reason");
    assert Envelope(unknown) == Envelope(e) by { hide BindingText, SourceText; }
  }

  /** The evidence of a failure whose own text alone is too long to be taken. */
  predicate FailsTooLong(intent: Intent, exit: Exit) {
    exit.Failure? && EvidenceBytes(EvidenceFor(intent, DomainFailure(exit.failure))) > MAX_RECEIPT_BYTES
  }

  /** The receipt bound and the output bound, exactly: what the worker made of its exit is over the receipt bound if and
      only if it is a failure with too long a text. A result, a result that was too long, and an interruption always
      fit. */
  lemma WorkerEvidenceFits(intent: Intent, request: Request, exit: Exit)
    requires IntentSchema(intent)
    ensures var evidence := OutcomeFromExit(intent, RequestToolName(request), exit);
            EvidenceBytes(evidence) > MAX_RECEIPT_BYTES <==> FailsTooLong(intent, exit)
  {
    hide Bytes, Quote, EvidenceBytes, ToolFailure, IntentSchema, Overhead, FailureOverhead;
    var tool := RequestToolName(request);
    var message := ToolFailure(tool, tool + " result exceeds the retained output limit", "operation");
    var e := EvidenceFor(intent, Accepted);
    OverheadBounds(intent, e);
    ToolFailureBytes(tool);
    PayloadBytes(e, message);
    match exit
    case Success(value) => PayloadBytes(e, value);
    case Failure(failure) =>
    case Interrupted => UnknownBytes(e, "Runner operation was interrupted before a canonical result was retained");
  }

  /** The outcome says that the worker completed exactly when its value is within the output bound, and then gives
      it. */
  predicate Tells(outcome: Outcome, exit: Exit) {
    && (outcome.Completed? <==> exit.Success? && Bytes(exit.value) <= MAX_OUTPUT_BYTES)
    && (outcome.Completed? ==> outcome.result == exit.value)
  }

  /** The component accepts the release of the operation with this result. */
  predicate CanRelease(state: A.State, intent: Intent, result: Canonical) {
    var command := C.CleanupCommand(intent, result);
    command.Some? && A.Transition(state, command.value).Next?
  }

  /** From the worker's exit to the admission window, exactly: unless a failure is too long to be taken, the
      coordinator journals what the worker made of its exit, as Completed for a value within the output bound only,
      and the admission can then be released, with that very result, unless the worker was interrupted. A failure
      that is too long leaves the operation admitted, under the kind of a failure that started nothing. */
  lemma ExitDecidesRelease(state: A.State, intent: Intent, request: Request, exit: Exit)
    requires IntentSchema(intent) && A.Valid(state) && intent in state.admitted
    ensures var evidence := OutcomeFromExit(intent, RequestToolName(request), exit);
            var result := Canonical(intent.operationId, intent.binding, evidence.outcome);
            var reply := C.AfterDispatchReply(intent, Ok(evidence));
            if FailsTooLong(intent, exit) then reply == C.Fail(C.TransportKind, C.EvidenceTooLarge)
            else reply == C.Journal(result) && Tells(result.outcome, exit)
                 && (CanRelease(state, intent, result) <==> !exit.Interrupted?)
  {
    hide Bytes, EvidenceBytes, A.Valid, A.Transition, FailsTooLong, ToolFailure, IntentSchema;
    var evidence := OutcomeFromExit(intent, RequestToolName(request), exit);
    WorkerEvidenceFits(intent, request, exit);
    ExitIsFor(intent, RequestToolName(request), exit);
    C.AcceptExactly(intent, evidence);
    C.TerminalResultsRelease(state, intent, evidence.outcome);
    hide A.After, OutcomeFromExit, EvidenceFor, Tells;
  }

  lemma ExitIsFor(intent: Intent, tool: string, exit: Exit)
    ensures var evidence := OutcomeFromExit(intent, tool, exit);
            && evidence == EvidenceFor(intent, evidence.outcome)
            && Tells(evidence.outcome, exit)
            && (evidence.outcome.Completed? || evidence.outcome.DomainFailure? <==> !exit.Interrupted?)
  {
    hide Bytes, ToolFailure;
  }
}
