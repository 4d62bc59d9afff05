/** The output bound over whole runs of the Runner executor (packages/runner/src/executor.ts): no evidence it ever
    holds, or answers with, carries a result above it. */
module RunnerSizes {
  import opened Bindings
  import opened ExecutorContract
  import opened Json
  import opened RunnerExecutor

  predicate Small(evidence: ExecutorEvidence) {
    evidence.outcome.Completed? ==> Bytes(evidence.outcome.result) <= MAX_OUTPUT_BYTES
  }

  predicate TaskSmall(task: Task) {
    match task
    case Settling(_, evidence, _, _, next) =>
      Small(evidence) && (next.RejectReturns? ==> SameIdentity(next.intent, evidence))
    case Finished(Dispatched(_, evidence)) => Small(evidence)
    case Finished(RejectReply(intent, evidence)) => Small(evidence) && SameIdentity(intent, evidence)
    case _ => true
  }

  predicate TablesSmall(t: Tables) {
    && (forall id :: id in t.receipts ==> Small(t.receipts[id]))
    && (forall c :: c in t.completions ==> Small(t.completions[c]))
  }

  predicate AllSmall(s: State) {
    TablesSmall(s.t) && forall f :: f in s.tasks ==> TaskSmall(s.tasks[f])
  }

  lemma GoSmall(s: State, f: nat)
    requires AllSmall(s)
    ensures forall task :: TaskSmall(task) ==> AllSmall(Go(s, f, task))
  {
    hide Small, TaskSmall;
  }

  lemma DispatchesSmall(s: State, f: nat)
    requires AllSmall(s) && f in s.tasks
    ensures s.tasks[f].WorkspaceDispatch? ==> AllSmall(WorkspaceDispatchStep(s, f, s.tasks[f]))
    ensures s.tasks[f].DispatchRead? ==> AllSmall(DispatchReadStep(s, f, s.tasks[f].intent, s.tasks[f].handshake))
    ensures s.tasks[f].DispatchLookup? ==> AllSmall(DispatchLookupStep(s, f, s.tasks[f].intent))
  {
    GoSmall(s, f);
    ReceiptsSmall(s);
    hide AllSmall, Go, Small, SameBinding, SameEvidence, SameIdentity, FenceFor;
  }

  lemma RejectsSmall(s: State, f: nat)
    requires AllSmall(s) && f in s.tasks
    ensures s.tasks[f].RejectRead? ==> AllSmall(RejectReadStep(s, f, s.tasks[f].intent, s.tasks[f].failure))
    ensures s.tasks[f].CancelReceipt? ==> AllSmall(CancelReceiptStep(s, f, s.tasks[f].operationId))
  {
    GoSmall(s, f);
    ReceiptsSmall(s);
    FailureSmall();
    hide AllSmall, Go, Small, SameBinding, SameEvidence, SameIdentity, FenceFor, EvidenceFor, CanonicalFromEvidence;
  }

  lemma ReceiptsSmall(s: State)
    requires AllSmall(s)
    ensures forall id :: id in s.t.receipts ==> Small(s.t.receipts[id])
    ensures forall c :: c in s.t.completions ==> Small(s.t.completions[c])
  {
    hide Small, TaskSmall;
  }

  /** A rejection is its intent's own; it carries no result, nor does a cancellation, and a worker none above the
      bound. */
  lemma FailureSmall()
    ensures forall intent, failure :: Small(EvidenceFor(intent, DomainFailure(failure)))
                                      && SameIdentity(intent, EvidenceFor(intent, DomainFailure(failure)))
    ensures forall intent, reason :: Small(EvidenceFor(intent, Unknown(reason)))
    ensures forall intent, tool, exit :: Small(OutcomeFromExit(intent, tool, exit))
  {
    hide Bytes, ToolFailure;
  }

  lemma RegisterSmall(s: State, f: nat)
    requires AllSmall(s) && f in s.tasks && s.tasks[f].WorkspaceRegister?
    ensures AllSmall(RegisterStep(s, f, s.tasks[f]))
  {
    hide Small;
    var t := RegisterSection(s.t, s.tasks[f].intent, s.tasks[f].request);
    if t.Some? { GoSmall(s.(t := t.value), f); }
    GoSmall(s, f);
    hide AllSmall, Go, RegisterSection;
  }

  lemma LockSmall(s: State, f: nat, worker: nat)
    requires AllSmall(s) && f in s.tasks && s.tasks[f].DispatchLock?
    ensures AllSmall(DispatchLockStep(s, f, s.tasks[f].intent, s.tasks[f].request, worker))
  {
    hide Small;
  }

  lemma SettleSmall(s: State, f: nat)
    requires AllSmall(s) && f in s.tasks && s.tasks[f].Settling?
    ensures AllSmall(SettleStep(s, f, s.tasks[f]))
  {
    hide Small;
    var task := s.tasks[f];
    assert TaskSmall(task) && TaskSmall(SettleEnd(task));
    assert forall stage :: TaskSmall(task.(stage := stage));
    var id := task.operationId;
    var none := s.(lock := None);
    var recorded := s.(t := s.t.(receipts := s.t.receipts[id := task.evidence]));
    var removed := s.(t := s.t.(active := s.t.active - {id}));
    var completed := s.(lock := None, t := Complete(s.t, task.deferred, task.evidence));
    assert AllSmall(recorded) && AllSmall(removed) && AllSmall(completed);
    GoSmall(s.(lock := Some(f)), f);
    GoSmall(none, f);
    GoSmall(recorded, f);
    GoSmall(removed, f);
    GoSmall(completed, f);
    hide AllSmall, Go, TaskSmall, SettleEnd, Complete;
  }

  lemma StepSmall(s: State, e: Event)
    requires AllSmall(s)
    ensures AllSmall(Step(s, e))
  {
    GoSmall(s, e.fiber);
    ReceiptsSmall(s);
    FailureSmall();
    match e
    case Spawn(f, task) => hide AllSmall, Go;
    case Kill(f) =>
      var freed := s.(lock := if s.lock == Some(f) then None else s.lock);
      assert AllSmall(freed) by { hide TaskSmall, Small; }
      GoSmall(freed, f);
      hide AllSmall, Go, Stopped;
    case Advance(f, worker, exit) =>
      if f in s.tasks {
        AdvanceSmall(s, f, worker, exit);
        hide AllSmall, AdvanceStep;
      }
  }

  lemma AdvanceSmall(s: State, f: nat, worker: nat, exit: Exit)
    requires AllSmall(s) && f in s.tasks
    ensures AllSmall(AdvanceStep(s, f, worker, exit))
  {
    hide Small, AllSmall, Go, WorkspaceDispatchStep, RegisterStep, DispatchReadStep, DispatchLookupStep, RejectReadStep,
      DispatchLockStep, CancelReceiptStep, SettleStep, EvidenceFor, OutcomeFromExit, Stopped;
    GoSmall(s, f);
    ReceiptsSmall(s);
    FailureSmall();
    DispatchesSmall(s, f);
    RejectsSmall(s, f);
    match s.tasks[f]
    case WorkspaceRegister(_, _, _) => RegisterSmall(s, f);
    case DispatchLock(_, _) => LockSmall(s, f, worker);
    case Settling(_, _, _, _, _) => SettleSmall(s, f);
    case _ =>
  }

  /** In every run, whatever is recorded, completed or answered has its result within the output bound. */
  lemma {:induction false} RunSmall(binding: Binding, events: seq<Event>)
    ensures AllSmall(Run(Init(binding), events))
  {
    if events == [] {
    } else {
      hide AllSmall, Step;
      RunSmall(binding, events[..|events| - 1]);
      StepSmall(Run(Init(binding), events[..|events| - 1]), events[|events| - 1]);
    }
  }
}
