/** What `reject` answers, over whole runs of the Runner executor (packages/runner/src/executor.ts). */
module RunnerRejects {
  import opened Bindings
  import opened ExecutorContract
  import opened Json
  import opened RunnerExecutor
  import opened RunnerFibers
  import opened RunnerRuns

  /** The rejecting fiber holds the lock and finds that another receipt came first: `settle` returns without
      recording, and `reject` answers with its own evidence all the same. */
  predicate Overtaken(s: State, e: Event, f: nat) {
    && e.Advance? && e.fiber == f && f in s.tasks && s.tasks[f].Settling?
    && s.tasks[f].stage.Locked? && s.tasks[f].next.RejectReturns?
    && s.tasks[f].operationId in s.t.receipts && s.t.receipts[s.tasks[f].operationId] != s.tasks[f].evidence
  }

  /** Some step of the run overtook the rejection of this fiber. */
  predicate EverOvertaken(s: State, events: seq<Event>, f: nat) {
    events != [] &&
    var n := |events| - 1;
    EverOvertaken(s, events[..n], f) || Overtaken(Run(s, events[..n]), events[n], f)
  }

  /** A rejection that has ended agrees with the receipt unless it was overtaken; nothing else is ever overtaken. */
  ghost predicate RejectOk(s: State, f: nat, overtaken: bool) {
    if f in s.tasks && s.tasks[f].Finished? && s.tasks[f].reply.RejectReply? then
      var reply := s.tasks[f].reply;
      && reply.evidence.operationId == reply.intent.operationId && reply.intent.operationId in s.t.receipts
      && (s.t.receipts[reply.intent.operationId] == reply.evidence <==> !overtaken)
      && (overtaken ==> reply.evidence.outcome.DomainFailure?)
    else !overtaken
  }

  /** A fiber whose task stays, while receipts are only added. */
  lemma StaysOk(s: State, next: State, f: nat, overtaken: bool)
    requires RejectOk(s, f, overtaken) && Extends(s, next)
    requires f in s.tasks ==> f in next.tasks && next.tasks[f] == s.tasks[f]
    requires f !in s.tasks && f in next.tasks ==> !next.tasks[f].Finished?
    ensures RejectOk(next, f, overtaken)
  {
  }

  lemma SettlingOk(s: State, f: nat)
    requires Valid(s) && f in s.tasks && s.tasks[f].Settling?
    requires RejectOk(s, f, false)
    ensures RejectOk(SettleStep(s, f, s.tasks[f]), f, Overtaken(s, Advance(f, 0, Interrupted), f))
  {
    assert TaskOk(s, f, s.tasks[f]) && ReceiptsOk(s.t);
    hide Valid, ReceiptsOk;
  }

  predicate Plain(task: Task) {
    !(task.Finished? && task.reply.RejectReply?)
  }

  /** Only the read of `reject` itself, besides `settle`, ends a rejection. */
  lemma OtherEndsPlain(s: State, f: nat, worker: nat, exit: Exit)
    requires f in s.tasks && !s.tasks[f].Settling? && !s.tasks[f].RejectRead? && Plain(s.tasks[f])
    ensures f in AdvanceStep(s, f, worker, exit).tasks && Plain(AdvanceStep(s, f, worker, exit).tasks[f])
  {
    if s.tasks[f].WorkspaceDispatch? || s.tasks[f].WorkspaceRegister? || s.tasks[f].DispatchRead? {
      EarlyEndsPlain(s, f);
    }
    hide EvidenceFor, OutcomeFromExit, SameBinding, SameEvidence, SettleStep, RegisterStep, WorkspaceDispatchStep,
      DispatchReadStep, CanonicalFromEvidence;
  }

  lemma EarlyEndsPlain(s: State, f: nat)
    requires f in s.tasks
    ensures s.tasks[f].WorkspaceDispatch? ==>
              var next := WorkspaceDispatchStep(s, f, s.tasks[f]); f in next.tasks && Plain(next.tasks[f])
    ensures s.tasks[f].WorkspaceRegister? ==>
              var next := RegisterStep(s, f, s.tasks[f]); f in next.tasks && Plain(next.tasks[f])
    ensures s.tasks[f].DispatchRead? ==>
              var next := DispatchReadStep(s, f, s.tasks[f].intent, s.tasks[f].handshake);
              f in next.tasks && Plain(next.tasks[f])
  {
    hide SameBinding, SameEvidence, SameIdentity, FenceFor, RegisterSection;
  }

  lemma RejectReadOk(s: State, f: nat)
    requires Valid(s) && f in s.tasks && s.tasks[f].RejectRead?
    ensures RejectOk(RejectReadStep(s, f, s.tasks[f].intent, s.tasks[f].failure), f, false)
  {
    assert ReceiptsOk(s.t);
    hide Valid, SameBinding, SameIdentity, EvidenceFor;
  }

  lemma OwnStepOk(s: State, f: nat, worker: nat, exit: Exit)
    requires Valid(s) && f in s.tasks && RejectOk(s, f, false) && Plain(s.tasks[f])
    ensures RejectOk(AdvanceStep(s, f, worker, exit), f, Overtaken(s, Advance(f, worker, exit), f))
  {
    var task := s.tasks[f];
    if task.Settling? {
      SettlingOk(s, f);
      hide Valid, SettleStep, RejectOk;
    } else if task.RejectRead? {
      RejectReadOk(s, f);
      hide Valid, RejectReadStep, RejectOk;
    } else {
      OtherEndsPlain(s, f, worker, exit);
      hide Valid, AdvanceStep;
    }
  }

  lemma StepOk(s: State, e: Event, f: nat, overtaken: bool)
    requires Valid(s) && RejectOk(s, f, overtaken)
    ensures RejectOk(Step(s, e), f, overtaken || Overtaken(s, e, f))
  {
    StepKeeps(s, e);
    if e.fiber == f && f in s.tasks && !Stopped(s, f) {
      match e
      case Advance(_, worker, exit) => OwnStepOk(s, f, worker, exit); hide Valid, AdvanceStep;
      case Kill(_) => hide Valid;
      case Spawn(_, _) => hide Valid;
    } else {
      OthersTask(s, e, f);
      hide Valid, Step, Extends;
      StaysOk(s, Step(s, e), f, overtaken);
    }
  }

  lemma OthersTask(s: State, e: Event, f: nat)
    requires e.fiber != f || f !in s.tasks || Stopped(s, f)
    ensures f in s.tasks ==> f in Step(s, e).tasks && Step(s, e).tasks[f] == s.tasks[f]
    ensures f !in s.tasks && f in Step(s, e).tasks ==> !Step(s, e).tasks[f].Finished?
    ensures !Overtaken(s, e, f)
  {
    if e.Advance? && e.fiber in s.tasks && e.fiber != f {
      if e.worker != f { OtherFiber(s, e.fiber, e.worker, e.exit, f); }
      else { WorkerTask(s, e.fiber, f, e.exit); }
      hide AdvanceStep;
    }
  }

  /** A name offered for a worker is used for a fresh fiber only. */
  lemma WorkerTask(s: State, g: nat, f: nat, exit: Exit)
    requires g in s.tasks && g != f
    ensures var next := AdvanceStep(s, g, f, exit);
            && (f in s.tasks ==> f in next.tasks && next.tasks[f] == s.tasks[f])
            && (f !in s.tasks && f in next.tasks ==> !next.tasks[f].Finished?)
  {
    var task := s.tasks[g];
    if task.DispatchLock? {
    } else {
      var spare: nat := f + 1;
      OtherFiber(s, g, spare, exit, f);
      assert AdvanceStep(s, g, f, exit) == AdvanceStep(s, g, spare, exit);
      hide AdvanceStep;
    }
  }

  lemma {:induction false} RunOk(binding: Binding, events: seq<Event>, f: nat)
    ensures RejectOk(Run(Init(binding), events), f, EverOvertaken(Init(binding), events, f))
  {
    if events == [] {
    } else {
      var n := |events| - 1;
      RunOk(binding, events[..n], f);
      InitValid(binding);
      RunKeeps(Init(binding), events[..n]);
      hide Valid, Step, RejectOk, Overtaken;
      StepOk(Run(Init(binding), events[..n]), events[n], f, EverOvertaken(Init(binding), events[..n], f));
    }
  }

  /** What `reject` returned, exactly, in every interleaving and ever after: it is the receipt of the operation if
      and only if the rejection did not find another receipt when it held the lock. An answer that differs is a
      rejection. */
  lemma RejectAgreesExactly(binding: Binding, events: seq<Event>, f: nat)
    requires var s := Run(Init(binding), events);
             f in s.tasks && s.tasks[f].Finished? && s.tasks[f].reply.RejectReply?
    ensures var s := Run(Init(binding), events);
            var reply := s.tasks[f].reply;
            && reply.intent.operationId in s.t.receipts
            && (EverOvertaken(Init(binding), events, f) <==> s.t.receipts[reply.intent.operationId] != reply.evidence)
            && (EverOvertaken(Init(binding), events, f) ==> reply.evidence.outcome.DomainFailure?)
  {
    RunOk(binding, events, f);
  }

  // ----- both cases are reachable -----

  const FAILURE := "the path cannot be resolved"
  const REJECTION := EvidenceFor(I, DomainFailure(FAILURE))
  const RESULT := EvidenceFor(I, Completed(DONE))

  /** While the operation runs, it is dispatched again and its input can no longer be prepared. */
  const REJECTING := FORKED + [Spawn(2, WorkspaceDispatch(I, "digest", ToEvidence(B), true, Unprepared(FAILURE))),
                               Advance(2, 4, Interrupted), Advance(2, 4, Interrupted), Advance(2, 4, Interrupted)]

  /** The rejection waits for the lock. */
  const REJECTING_TASK := Settling("op", REJECTION, None, WaitLock, RejectReturns(I))
  const REJECTING_STATE := FORKED_STATE.(tasks := FORKED_STATE.tasks[2 := REJECTING_TASK])

  lemma Rejecting()
    ensures Run(Init(B), REJECTING) == REJECTING_STATE
  {
    var a := Advance(2, 4, Interrupted);
    var task := WorkspaceDispatch(I, "digest", ToEvidence(B), true, Unprepared(FAILURE));
    ForkedState();
    RejectingSteps();
    assert REJECTING == FORKED + [Spawn(2, task)] + [a] + [a] + [a];
    hide Step, Run;
    RunSnoc(Init(B), FORKED, Spawn(2, task));
    RunSnoc(Init(B), FORKED + [Spawn(2, task)], a);
    RunSnoc(Init(B), FORKED + [Spawn(2, task)] + [a], a);
    RunSnoc(Init(B), FORKED + [Spawn(2, task)] + [a] + [a], a);
  }

  lemma RejectingSteps()
    ensures var a := Advance(2, 4, Interrupted);
            var task := WorkspaceDispatch(I, "digest", ToEvidence(B), true, Unprepared(FAILURE));
            Step(Step(Step(Step(FORKED_STATE, Spawn(2, task)), a), a), a) == REJECTING_STATE
  {
    var a := Advance(2, 4, Interrupted);
    var s, task := FORKED_STATE, WorkspaceDispatch(I, "digest", ToEvidence(B), true, Unprepared(FAILURE));
    assert Step(s, Spawn(2, task)) == Go(s, 2, task);
    assert Step(Go(s, 2, task), a) == Go(s, 2, WorkspacePrepare(I, ToEvidence(B), Unprepared(FAILURE)));
    assert Step(Go(s, 2, WorkspacePrepare(I, ToEvidence(B), Unprepared(FAILURE))), a)
           == Go(s, 2, RejectRead(I, FAILURE));
    assert Step(Go(s, 2, RejectRead(I, FAILURE)), a) == REJECTING_STATE;
  }

  /** The rejection is recorded, and its caller answered, while the worker of the operation still runs. */
  lemma RejectedWhileRunning()
    ensures var a := Advance(2, 0, Interrupted);
            var s := Run(Init(B), REJECTING + [a] + [a] + [a] + [a]);
            && s.tasks == FORKED_STATE.tasks[2 := Finished(RejectReply(I, REJECTION))]
            && s.tasks[3].Running? && s.t.receipts == map["op" := REJECTION]
  {
    hide Run, Step, Valid;
    var a := Advance(2, 0, Interrupted);
    Rejecting();
    RunSnoc(Init(B), REJECTING, a);
    RunSnoc(Init(B), REJECTING + [a], a);
    RunSnoc(Init(B), REJECTING + [a] + [a], a);
    RunSnoc(Init(B), REJECTING + [a] + [a] + [a], a);
    InitValid(B);
    RunKeeps(Init(B), REJECTING);
    SettleAlone(REJECTING_STATE, 2, Interrupted);
    assert REJECTING_STATE.tasks[2 := Finished(RejectReply(I, REJECTION))]
        == FORKED_STATE.tasks[2 := Finished(RejectReply(I, REJECTION))];
  }

  const EXITED_STATE := REJECTING_STATE.(
    tasks := REJECTING_STATE.tasks[3 := Settling("op", RESULT, Some(3), WaitLock, WorkerEnds)])

  const SETTLED_STATE := EXITED_STATE.(
    t := Tables(map["op" := Registered(I, R)], map["op" := RESULT], map[], map[3 := RESULT]),
    tasks := EXITED_STATE.tasks[3 := Finished(Ended)])

  /** Meanwhile the worker completes, and its result is recorded first. */
  const OVERTAKING := [Advance(3, 4, Success(DONE)), Advance(3, 0, Interrupted), Advance(3, 0, Interrupted),
                       Advance(3, 0, Interrupted), Advance(3, 0, Interrupted)]

  lemma Overtaking()
    ensures Run(Init(B), REJECTING + OVERTAKING) == SETTLED_STATE
  {
    var x, a := Advance(3, 4, Success(DONE)), Advance(3, 0, Interrupted);
    Rejecting();
    WorkerCompletes();
    hide Step;
    assert REJECTING + OVERTAKING == REJECTING + [x] + [a] + [a] + [a] + [a];
    RunSnoc(Init(B), REJECTING, x);
    RunSnoc(Init(B), REJECTING + [x], a);
    RunSnoc(Init(B), REJECTING + [x] + [a], a);
    RunSnoc(Init(B), REJECTING + [x] + [a] + [a], a);
    RunSnoc(Init(B), REJECTING + [x] + [a] + [a] + [a], a);
    InitValid(B);
    RunKeeps(Init(B), REJECTING + [x]);
    hide Run, Valid;
    SettleAlone(EXITED_STATE, 3, Interrupted);
    assert SettleSection(EXITED_STATE.t, "op", RESULT, Some(3)) == SETTLED_STATE.t;
  }

  lemma WorkerCompletes()
    ensures Step(REJECTING_STATE, Advance(3, 4, Success(DONE))) == EXITED_STATE
  {
    hide Step, Bytes, EvidenceFor, DONE;
    DoneFits();
    ExitSettles(DONE);
  }

  lemma ExitSettles(value: string)
    requires Bytes(value) <= MAX_OUTPUT_BYTES
    ensures var task := Settling("op", EvidenceFor(I, Completed(value)), Some(3), WaitLock, WorkerEnds);
            Step(REJECTING_STATE, Advance(3, 4, Success(value)))
            == REJECTING_STATE.(tasks := REJECTING_STATE.tasks[3 := task])
  {
    hide Step, EvidenceFor, Bytes;
    WorkerExits(REJECTING_STATE, 3, 3, value);
  }

  /** The disagreement: the caller is told that the operation was rejected, while its receipt says that it completed. */
  lemma RejectDisagrees()
    ensures var a := Advance(2, 0, Interrupted);
            var events := REJECTING + OVERTAKING + [a] + [a];
            var s := Run(Init(B), events);
            && 2 in s.tasks && s.tasks[2] == Finished(RejectReply(I, REJECTION)) && s.t.receipts == map["op" := RESULT]
            && EverOvertaken(Init(B), events, 2)
  {
    var a := Advance(2, 0, Interrupted);
    var events := REJECTING + OVERTAKING + [a] + [a];
    Overtaking();
    RunSnoc(Init(B), REJECTING + OVERTAKING, a);
    RunSnoc(Init(B), REJECTING + OVERTAKING + [a], a);
    hide Run;
    var locked := Step(SETTLED_STATE, a);
    assert locked == SETTLED_STATE.(lock := Some(2),
                                    tasks := SETTLED_STATE.tasks[2 := REJECTING_TASK.(stage := Locked)]);
    var s := Step(locked, a);
    assert s.tasks[2] == Finished(RejectReply(I, REJECTION)) && s.t == SETTLED_STATE.t;
    hide Step, EverOvertaken, Overtaken;
    RejectAgreesExactly(B, events, 2);
  }
}
