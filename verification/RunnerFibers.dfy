/** How the fibers of the Runner executor leave each other alone (packages/runner/src/executor.ts). */
module RunnerFibers {
  import opened Bindings
  import opened ExecutorContract
  import opened RunnerExecutor

  predicate Leaves(s: State, s': State, f: nat) {
    (f in s'.tasks <==> f in s.tasks) && (f in s.tasks ==> s'.tasks[f] == s.tasks[f])
  }

  lemma LockedLeave(s: State, g: nat, worker: nat, f: nat)
    requires g in s.tasks && f != g && f != worker
    ensures s.tasks[g].Settling? ==> Leaves(s, SettleStep(s, g, s.tasks[g]), f)
    ensures s.tasks[g].WorkspaceRegister? ==> Leaves(s, RegisterStep(s, g, s.tasks[g]), f)
    ensures s.tasks[g].DispatchLock? ==>
              Leaves(s, DispatchLockStep(s, g, s.tasks[g].intent, s.tasks[g].request, worker), f)
  {
    hide Complete, RegisterSection, SettleEnd, SameIdentity;
  }

  lemma ReadsLeave(s: State, g: nat, f: nat)
    requires g in s.tasks && f != g
    ensures s.tasks[g].WorkspaceDispatch? ==> Leaves(s, WorkspaceDispatchStep(s, g, s.tasks[g]), f)
    ensures s.tasks[g].DispatchRead? ==> Leaves(s, DispatchReadStep(s, g, s.tasks[g].intent, s.tasks[g].handshake), f)
    ensures s.tasks[g].DispatchLookup? ==> Leaves(s, DispatchLookupStep(s, g, s.tasks[g].intent), f)
    ensures s.tasks[g].RejectRead? ==> Leaves(s, RejectReadStep(s, g, s.tasks[g].intent, s.tasks[g].failure), f)
    ensures s.tasks[g].CancelReceipt? ==> Leaves(s, CancelReceiptStep(s, g, s.tasks[g].operationId), f)
  {
    hide SameBinding, SameEvidence, EvidenceFor, SameIdentity, FenceFor, CanonicalFromEvidence;
  }

  /** A step of one fiber leaves every other fiber alone. */
  lemma OtherFiber(s: State, g: nat, worker: nat, exit: Exit, f: nat)
    requires g in s.tasks && f != g && f != worker
    ensures Leaves(s, AdvanceStep(s, g, worker, exit), f)
  {
    hide EvidenceFor, OutcomeFromExit, SettleStep, RegisterStep, DispatchLockStep, WorkspaceDispatchStep,
      DispatchReadStep, DispatchLookupStep, RejectReadStep, CancelReceiptStep;
    LockedLeave(s, g, worker, f);
    ReadsLeave(s, g, f);
  }

  /** While one fiber holds the lock, the steps of all others change no table and no start, and the lock stays. */
  lemma LockHolds(s: State, f: nat, e: Event)
    requires Valid(s) && s.lock == Some(f) && f in s.tasks && e.fiber != f
    ensures var next := Step(s, e);
            next.t == s.t && next.lock == s.lock && next.starts == s.starts && next.owners == s.owners
            && f in next.tasks && next.tasks[f] == s.tasks[f]
  {
    if e.Advance? && e.fiber in s.tasks { OthersWait(s, f, e.fiber, e.worker, e.exit); }
    hide AdvanceStep, Valid;
  }

  lemma OthersWait(s: State, f: nat, g: nat, worker: nat, exit: Exit)
    requires Valid(s) && s.lock == Some(f) && f in s.tasks && g in s.tasks && g != f
    ensures Only(s, AdvanceStep(s, g, worker, exit), f)
  {
    hide Only, Go, Valid, EvidenceFor, OutcomeFromExit, SettleStep, RegisterStep, DispatchLockStep,
      WorkspaceDispatchStep, DispatchReadStep, DispatchLookupStep, RejectReadStep, CancelReceiptStep;
    SettlersWait(s, f, g);
    LockedWait(s, f, g, worker);
    ReadsWait(s, f, g);
    GoOnly(s, f, g);
  }

  lemma GoOnly(s: State, f: nat, g: nat)
    requires g != f
    ensures Only(s, s, f) && forall task :: Only(s, Go(s, g, task), f)
  {
  }

  lemma SettlersWait(s: State, f: nat, g: nat)
    requires Valid(s) && s.lock == Some(f) && f in s.tasks && g in s.tasks && g != f
    ensures s.tasks[g].Settling? ==> SettleStep(s, g, s.tasks[g]) == s
  {
    assert s.tasks[g].Settling? ==> s.tasks[g].stage == WaitLock by {
      assert TaskOk(s, g, s.tasks[g]);
      hide SettleStep;
    }
    hide Valid;
  }

  lemma LockedWait(s: State, f: nat, g: nat, worker: nat)
    requires s.lock == Some(f) && f in s.tasks && g in s.tasks && g != f
    ensures var task := s.tasks[g];
            && (task.WorkspaceRegister? ==> Only(s, RegisterStep(s, g, task), f))
            && (task.DispatchLock? ==> DispatchLockStep(s, g, task.intent, task.request, worker) == s)
  {
    hide RegisterSection;
  }

  /** Nothing but the tasks of other fibers changes. */
  predicate Only(s: State, next: State, f: nat) {
    && next.t == s.t && next.lock == s.lock && next.starts == s.starts && next.owners == s.owners
    && (f in s.tasks ==> f in next.tasks && next.tasks[f] == s.tasks[f])
  }

  lemma ReadsWait(s: State, f: nat, g: nat)
    requires g in s.tasks && f != g
    ensures s.tasks[g].WorkspaceDispatch? ==> Only(s, WorkspaceDispatchStep(s, g, s.tasks[g]), f)
    ensures s.tasks[g].DispatchRead? ==> Only(s, DispatchReadStep(s, g, s.tasks[g].intent, s.tasks[g].handshake), f)
    ensures s.tasks[g].DispatchLookup? ==> Only(s, DispatchLookupStep(s, g, s.tasks[g].intent), f)
    ensures s.tasks[g].RejectRead? ==> Only(s, RejectReadStep(s, g, s.tasks[g].intent, s.tasks[g].failure), f)
    ensures s.tasks[g].CancelReceipt? ==> Only(s, CancelReceiptStep(s, g, s.tasks[g].operationId), f)
  {
    hide SameBinding, SameEvidence, EvidenceFor, SameIdentity, FenceFor, CanonicalFromEvidence;
  }

  lemma {:induction false} LockHoldsThroughout(s: State, f: nat, events: seq<Event>)
    requires Valid(s) && s.lock == Some(f) && f in s.tasks && forall i :: 0 <= i < |events| ==> events[i].fiber != f
    ensures var later := Run(s, events);
            Valid(later) && later.t == s.t && later.lock == s.lock && later.starts == s.starts
            && f in later.tasks && later.tasks[f] == s.tasks[f]
  {
    if events == [] {
    } else {
      LockHoldsThroughout(s, f, events[..|events| - 1]);
      var before := Run(s, events[..|events| - 1]);
      StepKeeps(before, events[|events| - 1]);
      LockHolds(before, f, events[|events| - 1]);
      hide Step, Valid;
    }
  }

  predicate NotBy(f: nat, events: seq<Event>) {
    forall i :: 0 <= i < |events| ==> events[i].fiber != f
  }

  /** `settle` is atomic: whatever the other fibers do between its steps, once it has the lock it either finds a
      receipt and changes nothing, or leaves exactly `SettleSection` of the tables it found. */
  lemma SettleIsAtomic(s: State, f: nat, exit: Exit, between1: seq<Event>, between2: seq<Event>, between3: seq<Event>)
    requires Valid(s) && s.lock.None? && f in s.tasks && s.tasks[f].Settling?
    requires NotBy(f, between1) && NotBy(f, between2) && NotBy(f, between3)
    ensures var a, task := Advance(f, 0, exit), s.tasks[f];
            var found := Step(Run(Step(s, a), between1), a);
            if task.operationId in s.t.receipts then
              found.t == s.t && found.lock.None? && f in found.tasks && found.tasks[f] == SettleEnd(task)
            else
              var done := Step(Run(Step(Run(found, between2), a), between3), a);
              done.t == SettleSection(s.t, task.operationId, task.evidence, task.deferred)
              && done.lock.None? && f in done.tasks && done.tasks[f] == SettleEnd(task)
  {
    var a, task := Advance(f, 0, exit), s.tasks[f];
    assert TaskOk(s, f, task);
    var s1 := Step(s, a);
    assert s1.lock == Some(f) && s1.tasks[f] == task.(stage := Locked) && s1.t == s.t;
    StepKeeps(s, a);
    LockHoldsThroughout(s1, f, between1);
    var before := Run(s1, between1);
    var found := Step(before, a);
    StepKeeps(before, a);
    if task.operationId in s.t.receipts {
      assert found.t == s.t;
    } else {
      assert found.lock == Some(f) && found.tasks[f] == task.(stage := Recorded);
      SettleFromRecorded(found, f, exit, task, between2, between3);
      hide Step, Run, Valid;
    }
  }

  lemma SettleFromRecorded(s: State, f: nat, exit: Exit, task: Task, between2: seq<Event>, between3: seq<Event>)
    requires Valid(s) && s.lock == Some(f) && f in s.tasks && task.Settling? && s.tasks[f] == task.(stage := Recorded)
    requires NotBy(f, between2) && NotBy(f, between3)
    ensures var a := Advance(f, 0, exit);
            var done := Step(Run(Step(Run(s, between2), a), between3), a);
            done.t == Complete(s.t.(active := s.t.active - {task.operationId}), task.deferred, task.evidence)
            && done.lock.None? && f in done.tasks && done.tasks[f] == SettleEnd(task)
  {
    var a := Advance(f, 0, exit);
    LockHoldsThroughout(s, f, between2);
    var s2 := Run(s, between2);
    var removed := Step(s2, a);
    assert removed.lock == Some(f) && removed.tasks[f] == task.(stage := Removed);
    assert removed.t == s.t.(active := s.t.active - {task.operationId});
    StepKeeps(s2, a);
    LockHoldsThroughout(removed, f, between3);
    hide Run, Valid;
  }
}
