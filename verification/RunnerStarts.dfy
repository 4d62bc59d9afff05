/** How often the Runner starts an operation (packages/runner/src/executor.ts): twice at most, and exactly when. */
module RunnerStarts {
  import opened Bindings
  import opened ExecutorContract
  import opened RunnerExecutor
  import opened RunnerFibers
  import opened RunnerRuns
  import opened RunnerRejects

  predicate StartedTwice(s: State, id: string) {
    exists i, j :: 0 <= i < j < |s.starts| && s.starts[i].operationId == id && s.starts[j].operationId == id
  }

  /** A fiber has recorded the receipt of this operation and is about to take it out of `active`. */
  predicate Recording(s: State, f: nat, id: string) {
    f in s.tasks && s.tasks[f].Settling? && s.tasks[f].stage == Recorded && s.tasks[f].operationId == id
  }

  /** An operation started twice has its receipt, and stays in `active` for good: its second worker settles without
      effect. */
  ghost predicate TwiceIsStuck(s: State, id: string) {
    StartedTwice(s, id) ==> id in s.t.receipts && id in s.t.active && forall f :: !Recording(s, f, id)
  }

  /** How one step changes receipts and `active`: it records, takes out what it has recorded, or forks. */
  predicate Changes(s: State, next: State, f: nat, forks: bool)
    requires f in s.tasks
  {
    var task := s.tasks[f];
    && (next.t.receipts == s.t.receipts
        || (task.Settling? && task.stage == Locked && task.operationId !in s.t.receipts
            && next.t.receipts == s.t.receipts[task.operationId := task.evidence]
               && Recording(next, f, task.operationId)))
    && (next.t.active == s.t.active
        || (task.Settling? && Recording(s, f, task.operationId) && next.t.active == s.t.active - {task.operationId})
        || (forks && task.DispatchLock? && next.t.active.Keys == s.t.active.Keys + {task.intent.operationId}))
  }

  lemma SettleChanges(s: State, f: nat)
    requires f in s.tasks && s.tasks[f].Settling?
    ensures Changes(s, SettleStep(s, f, s.tasks[f]), f, false)
  {
    hide SettleEnd;
  }

  lemma LockChanges(s: State, f: nat, worker: nat, exit: Exit)
    requires f in s.tasks
    ensures s.tasks[f].WorkspaceRegister? ==> Changes(s, RegisterStep(s, f, s.tasks[f]), f, false)
    ensures s.tasks[f].DispatchLock? ==>
              Changes(s, DispatchLockStep(s, f, s.tasks[f].intent, s.tasks[f].request, worker), f,
                      Forks(s, Advance(f, worker, exit)))
  {
  }

  lemma AdvanceChanges(s: State, f: nat, worker: nat, exit: Exit)
    requires f in s.tasks
    ensures Changes(s, AdvanceStep(s, f, worker, exit), f, Forks(s, Advance(f, worker, exit)))
  {
    var task := s.tasks[f];
    if task.Settling? { SettleChanges(s, f); }
    LockChanges(s, f, worker, exit);
    var other: nat := f + 1;
    ReadsWait(s, other, f);
    hide WorkspaceDispatchStep, DispatchReadStep, DispatchLookupStep, RejectReadStep, CancelReceiptStep, RegisterStep,
      DispatchLockStep, SettleStep, Recording, EvidenceFor, OutcomeFromExit, Forks;
  }

  lemma StepChanges(s: State, e: Event)
    ensures if e.Advance? && e.fiber in s.tasks then Changes(s, Step(s, e), e.fiber, Forks(s, e))
            else Step(s, e).t == s.t
  {
    if e.Advance? && e.fiber in s.tasks {
      AdvanceChanges(s, e.fiber, e.worker, e.exit);
      hide AdvanceStep, Changes, Forks;
    }
  }

  /** A step takes an operation out of `active` only right after having recorded it. */
  lemma Leaves(s: State, e: Event, id: string)
    requires id in s.t.active && id !in Step(s, e).t.active
    ensures e.Advance? && Recording(s, e.fiber, id)
  {
    StepChanges(s, e);
    hide Step;
  }

  /** A receipt is recorded for an operation that has none, by a fiber that then holds the lock. */
  lemma RecordingBegins(s: State, e: Event, f: nat, id: string)
    requires Valid(s) && !Recording(s, f, id) && Recording(Step(s, e), f, id)
    ensures e.Advance? && e.fiber == f && s.lock == Some(f) && id !in s.t.receipts && f in s.tasks
    ensures s.tasks[f].Settling? && s.tasks[f].stage == Locked && s.tasks[f].operationId == id
    ensures Step(s, e).t == s.t.(receipts := s.t.receipts[id := s.tasks[f].evidence]) && Step(s, e).starts == s.starts
  {
    if e.fiber != f {
      OthersRecord(s, e, f, id);
    } else if e.Advance? && f in s.tasks {
      assert TaskOk(s, f, s.tasks[f]);
      if !s.tasks[f].Settling? { NoRecording(s, f, e.worker, e.exit, id); }
      hide Valid;
    }
  }

  lemma OthersRecord(s: State, e: Event, f: nat, id: string)
    requires e.fiber != f && !Recording(s, f, id)
    ensures !Recording(Step(s, e), f, id)
  {
    if e.Advance? && e.fiber in s.tasks {
      if e.worker != f { OtherFiber(s, e.fiber, e.worker, e.exit, f); }
      else { FreshWorker(s, e.fiber, f, e.exit); }
      hide AdvanceStep;
    }
  }

  /** A name offered for a worker is used for a fresh fiber only, which starts running. */
  lemma FreshWorker(s: State, g: nat, f: nat, exit: Exit)
    requires g in s.tasks && g != f
    ensures var next := AdvanceStep(s, g, f, exit);
            f in next.tasks ==> next.tasks[f].Running? || (f in s.tasks && next.tasks[f] == s.tasks[f])
  {
    if !s.tasks[g].DispatchLock? {
      var spare: nat := f + 1;
      OtherFiber(s, g, spare, exit, f);
      assert AdvanceStep(s, g, f, exit) == AdvanceStep(s, g, spare, exit);
      hide AdvanceStep;
    }
  }

  lemma NoRecording(s: State, f: nat, worker: nat, exit: Exit, id: string)
    requires f in s.tasks && !s.tasks[f].Settling?
    ensures !Recording(AdvanceStep(s, f, worker, exit), f, id)
  {
    hide EvidenceFor, OutcomeFromExit, SameBinding, SameEvidence, CanonicalFromEvidence, SameIdentity, FenceFor,
      RegisterSection;
  }

  lemma OnlyTheHolderRecords(s: State, f: nat, id: string)
    requires Valid(s) && Recording(s, f, id)
    ensures s.lock == Some(f) && id in s.t.receipts
  {
    assert TaskOk(s, f, s.tasks[f]);
  }

  lemma StartedIsKnown(s: State, id: string)
    requires Valid(s) && Started(s, id)
    ensures id in s.t.active || id in s.t.receipts
  {
  }

  lemma StartedLater(s: State, e: Event, id: string)
    requires Valid(s)
    ensures Started(Step(s, e), id) <==> Started(s, id) || (Forks(s, e) && s.tasks[e.fiber].intent.operationId == id)
    ensures StartedTwice(Step(s, e), id) <==>
              StartedTwice(s, id) || (Forks(s, e) && s.tasks[e.fiber].intent.operationId == id && Started(s, id))
  {
    StartsGrow(s, e);
    var starts := Step(s, e).starts;
    assert forall i :: 0 <= i < |s.starts| ==> starts[i] == s.starts[i];
    if Forks(s, e) && s.tasks[e.fiber].intent.operationId == id {
      assert starts[|s.starts|].operationId == id;
    }
    hide Step, Valid, Forks;
  }

  lemma ForkActivates(s: State, e: Event)
    requires Valid(s) && Forks(s, e)
    ensures s.tasks[e.fiber].intent.operationId in Step(s, e).t.active
  {
  }

  /** Between two steps, no fork has happened while a receipt was being recorded. */
  lemma NothingForksMeanwhile(s: State, e: Event, f: nat, id: string)
    requires Valid(s) && Forks(s, e)
    ensures !Recording(s, f, id) && !Recording(Step(s, e), f, id)
  {
    if Recording(s, f, id) { OnlyTheHolderRecords(s, f, id); }
    else if Recording(Step(s, e), f, id) { RecordingBegins(s, e, f, id); }
  }

  lemma TwiceStep(s: State, e: Event, id: string)
    requires Valid(s) && TwiceIsStuck(s, id)
    ensures TwiceIsStuck(Step(s, e), id)
  {
    var next := Step(s, e);
    StepKeeps(s, e);
    StartedLater(s, e, id);
    if StartedTwice(s, id) {
      if id !in next.t.active { Leaves(s, e, id); }
      forall f ensures !Recording(next, f, id) {
        if Recording(next, f, id) { RecordingBegins(s, e, f, id); }
      }
    } else if StartedTwice(next, id) {
      StartedIsKnown(s, id);
      ForkActivates(s, e);
      forall f ensures !Recording(next, f, id) { NothingForksMeanwhile(s, e, f, id); }
    }
    hide Step, Valid, StartedTwice, Recording;
  }

  predicate AtMostTwice(s: State) {
    forall i, j, k :: 0 <= i < j < k < |s.starts| && s.starts[i].operationId == s.starts[j].operationId ==>
      s.starts[j].operationId != s.starts[k].operationId
  }

  lemma ThirdIsRefused(s: State, e: Event)
    requires Valid(s) && AtMostTwice(s) && forall id :: TwiceIsStuck(s, id)
    ensures AtMostTwice(Step(s, e))
  {
    StartsGrow(s, e);
    var starts := Step(s, e).starts;
    assert forall i :: 0 <= i < |s.starts| ==> starts[i] == s.starts[i];
    if Forks(s, e) {
      var id := s.tasks[e.fiber].intent.operationId;
      assert TwiceIsStuck(s, id);
      assert !StartedTwice(s, id);
      hide Step, Valid;
    }
  }

  /** However dispatches race, no operation is started more than twice. */
  lemma {:induction false} NeverThrice(binding: Binding, events: seq<Event>)
    ensures AtMostTwice(Run(Init(binding), events))
    ensures forall id :: TwiceIsStuck(Run(Init(binding), events), id)
  {
    if events == [] {
    } else {
      var past, e := events[..|events| - 1], events[|events| - 1];
      NeverThrice(binding, past);
      InitValid(binding);
      RunKeeps(Init(binding), past);
      var s := Run(Init(binding), past);
      hide Step, Valid, TwiceIsStuck, AtMostTwice;
      ThirdIsRefused(s, e);
      forall id ensures TwiceIsStuck(Step(s, e), id) { TwiceStep(s, e, id); }
    }
  }

  // ----- the second start, by its guards -----

  /** `settle` records the receipt of an operation that is in flight. */
  predicate RecordsInFlight(s: State, e: Event, id: string) {
    && e.Advance? && e.fiber in s.tasks && s.tasks[e.fiber].Settling? && s.tasks[e.fiber].stage == Locked
    && s.tasks[e.fiber].operationId == id && id !in s.t.receipts && id in s.t.active
  }

  predicate EverInFlight(s: State, events: seq<Event>, id: string) {
    events != [] &&
    var n := |events| - 1;
    EverInFlight(s, events[..n], id) || RecordsInFlight(Run(s, events[..n]), events[n], id)
  }

  /** What the receipt of an operation tells of its start. */
  ghost predicate OriginOk(s: State, id: string, inFlight: bool) {
    && (inFlight ==> id in s.t.receipts && Started(s, id))
    && (id in s.t.receipts && !inFlight && Started(s, id) ==> id in s.t.active)
    && (id in s.t.active ==> Started(s, id))
    && (forall f :: Recording(s, f, id) ==> inFlight || !Started(s, id))
  }

  lemma ReceiptAppears(s: State, e: Event, id: string)
    requires Valid(s) && id !in s.t.receipts && id in Step(s, e).t.receipts
    ensures e.Advance? && e.fiber in s.tasks && Recording(Step(s, e), e.fiber, id) && !Recording(s, e.fiber, id)
  {
    StepChanges(s, e);
    if Recording(s, e.fiber, id) { OnlyTheHolderRecords(s, e.fiber, id); }
    hide Step, Valid;
  }

  lemma ActiveAppears(s: State, e: Event, id: string)
    requires id !in s.t.active && id in Step(s, e).t.active
    ensures Forks(s, e) && s.tasks[e.fiber].intent.operationId == id
  {
    StepChanges(s, e);
    hide Step, Recording;
  }

  lemma OriginOfReceipts(s: State, e: Event, id: string, inFlight: bool)
    requires Valid(s) && OriginOk(s, id, inFlight)
    ensures var next, later := Step(s, e), inFlight || RecordsInFlight(s, e, id);
            && (later ==> id in next.t.receipts && Started(next, id))
            && (id in next.t.active ==> Started(next, id))
  {
    StepKeeps(s, e);
    StartedLater(s, e, id);
    if RecordsInFlight(s, e, id) { RecordedNow(s, e, id); }
    if id !in s.t.active && id in Step(s, e).t.active { ActiveAppears(s, e, id); }
    hide Step, Valid, Started, Recording, Forks;
  }

  /** When a receipt appears for an operation not in flight, that operation was never started. */
  lemma OriginOfStarts(s: State, e: Event, id: string, inFlight: bool)
    requires Valid(s) && OriginOk(s, id, inFlight)
    ensures var next, later := Step(s, e), inFlight || RecordsInFlight(s, e, id);
            id in next.t.receipts && !later && Started(next, id) ==> id in next.t.active
  {
    var next := Step(s, e);
    StepKeeps(s, e);
    StartedLater(s, e, id);
    if Started(s, id) { StartedIsKnown(s, id); }
    if id !in s.t.receipts && id in next.t.receipts {
      ReceiptAppears(s, e, id);
      RecordingBegins(s, e, e.fiber, id);
    }
    if id in s.t.active && id !in next.t.active { Leaves(s, e, id); }
    if Forks(s, e) && s.tasks[e.fiber].intent.operationId == id { ForkActivates(s, e); }
    hide Step, Valid, Started, Recording, Forks;
  }

  lemma OriginOfRecordings(s: State, e: Event, id: string, inFlight: bool, f: nat)
    requires Valid(s) && OriginOk(s, id, inFlight) && Recording(Step(s, e), f, id)
    ensures inFlight || RecordsInFlight(s, e, id) || !Started(Step(s, e), id)
  {
    StartedLater(s, e, id);
    if Started(s, id) { StartedIsKnown(s, id); }
    if Forks(s, e) { NothingForksMeanwhile(s, e, f, id); }
    if !Recording(s, f, id) { RecordingBegins(s, e, f, id); }
    hide Step, Valid, Started, Recording, Forks;
  }

  lemma OriginStep(s: State, e: Event, id: string, inFlight: bool)
    requires Valid(s) && OriginOk(s, id, inFlight)
    ensures OriginOk(Step(s, e), id, inFlight || RecordsInFlight(s, e, id))
  {
    OriginOfReceipts(s, e, id, inFlight);
    OriginOfStarts(s, e, id, inFlight);
    forall f | Recording(Step(s, e), f, id) ensures inFlight || RecordsInFlight(s, e, id) || !Started(Step(s, e), id) {
      OriginOfRecordings(s, e, id, inFlight, f);
    }
    hide Step, Valid, Started, Recording, RecordsInFlight;
  }

  lemma RecordedNow(s: State, e: Event, id: string)
    requires Valid(s) && RecordsInFlight(s, e, id)
    ensures id in Step(s, e).t.receipts
  {
  }

  lemma {:induction false} OriginRun(binding: Binding, events: seq<Event>, id: string)
    ensures OriginOk(Run(Init(binding), events), id, EverInFlight(Init(binding), events, id))
  {
    if events == [] {
    } else {
      var n := |events| - 1;
      OriginRun(binding, events[..n], id);
      InitValid(binding);
      RunKeeps(Init(binding), events[..n]);
      hide Step, Valid, OriginOk, RecordsInFlight;
      OriginStep(Run(Init(binding), events[..n]), events[n], id, EverInFlight(Init(binding), events[..n], id));
    }
  }

  /** What a fork on an outdated receipt read does depends on how the receipt came about: it starts the operation
      again if the receipt was recorded while the operation was in flight, and starts a rejected operation that had
      never been started if it was not. */
  lemma StaleForkExactly(binding: Binding, past: seq<Event>, e: Event)
    requires StaleFork(Run(Init(binding), past), e)
    ensures var s := Run(Init(binding), past);
            var id := s.tasks[e.fiber].intent.operationId;
            && (StaleRestart(s, e) <==> EverInFlight(Init(binding), past, id))
            && (!Started(s, id) <==> !EverInFlight(Init(binding), past, id))
  {
    OriginRun(binding, past, Run(Init(binding), past).tasks[e.fiber].intent.operationId);
    hide Run, Started, EverInFlight, Recording;
  }

  /** Some dispatch of the run forked an operation after its receipt had been recorded while it was in flight. */
  predicate EverForksSettled(s: State, events: seq<Event>) {
    events != [] &&
    var n := |events| - 1;
    EverForksSettled(s, events[..n])
    || (Forks(Run(s, events[..n]), events[n])
        && EverInFlight(s, events[..n], Run(s, events[..n]).tasks[events[n].fiber].intent.operationId))
  }

  /** At most once, exactly, by the guards of the code: a run starts every operation at most once if and only if no
      dispatch finds `active` empty of an operation whose receipt was recorded while it was in flight. */
  lemma {:induction false} AtMostOnceByGuards(binding: Binding, events: seq<Event>)
    ensures AtMostOnce(Run(Init(binding), events)) <==> !EverForksSettled(Init(binding), events)
  {
    AtMostOnceExactly(binding, events);
    SameRestarts(binding, events);
  }

  lemma {:induction false} SameRestarts(binding: Binding, events: seq<Event>)
    ensures EverRestarts(Init(binding), events) <==> EverForksSettled(Init(binding), events)
  {
    if events == [] {
    } else {
      var past, e := events[..|events| - 1], events[|events| - 1];
      var s := Run(Init(binding), past);
      SameRestarts(binding, past);
      if Forks(s, e) {
        OriginRun(binding, past, s.tasks[e.fiber].intent.operationId);
        if StaleFork(s, e) { StaleForkExactly(binding, past, e); }
      }
      hide Run, EverInFlight, Started, Forks, Recording;
    }
  }

  // ----- a rejected operation can be started -----

  /** The first call has read that there is no receipt, and waits for the lock. */
  const WAITING := [Spawn(1, WorkspaceRegister(I, ToEvidence(B), R)), Advance(1, 3, Interrupted),
                    Advance(1, 3, Interrupted), Advance(1, 3, Interrupted)]

  const WAITING_STATE :=
    State(B, Tables(map["op" := Registered(I, R)], map[], map[], map[]), None, map[1 := DispatchLock(I, R)], map[], [])

  /** Meanwhile a second call is rejected. */
  const SECOND := WorkspaceDispatch(I, "digest", ToEvidence(B), true, Unprepared(FAILURE))
  const TURN := Advance(2, 0, Interrupted)
  const REJECTED := WAITING + [Spawn(2, SECOND)] + [TURN] + [TURN] + [TURN] + [TURN] + [TURN] + [TURN] + [TURN]

  const SETTLING_STATE := WAITING_STATE.(tasks := WAITING_STATE.tasks[2 := REJECTING_TASK])
  const REJECTED_STATE := SETTLING_STATE.(
    t := Tables(map["op" := Registered(I, R)], map["op" := REJECTION], map[], map[]),
    tasks := SETTLING_STATE.tasks[2 := Finished(RejectReply(I, REJECTION))])

  lemma Waiting()
    ensures Run(Init(B), WAITING) == WAITING_STATE
  {
    var a, e0 := Advance(1, 3, Interrupted), Spawn(1, WorkspaceRegister(I, ToEvidence(B), R));
    var t := Tables(map["op" := Registered(I, R)], map[], map[], map[]);
    var s1 := State(B, t, None, map[1 := DispatchRead(I, ToEvidence(B))], map[], []);
    var s2 := State(B, t, None, map[1 := DispatchLookup(I)], map[], []);
    assert Step(Step(Init(B), e0), a) == s1;
    assert Step(s1, a) == s2;
    assert Step(s2, a) == WAITING_STATE;
    hide Step;
    assert WAITING == [] + [e0] + [a] + [a] + [a];
    RunSnoc(Init(B), [], e0);
    RunSnoc(Init(B), [e0], a);
    RunSnoc(Init(B), [] + [e0] + [a], a);
    RunSnoc(Init(B), [] + [e0] + [a] + [a], a);
  }

  lemma SecondSettles()
    ensures Step(Step(Step(Step(WAITING_STATE, Spawn(2, SECOND)), TURN), TURN), TURN) == SETTLING_STATE
  {
    var s := WAITING_STATE;
    assert Step(s, Spawn(2, SECOND)) == Go(s, 2, SECOND);
    assert Step(Go(s, 2, SECOND), TURN) == Go(s, 2, WorkspacePrepare(I, ToEvidence(B), Unprepared(FAILURE)));
    assert Step(Go(s, 2, WorkspacePrepare(I, ToEvidence(B), Unprepared(FAILURE))), TURN)
           == Go(s, 2, RejectRead(I, FAILURE));
    assert Step(Go(s, 2, RejectRead(I, FAILURE)), TURN) == SETTLING_STATE;
  }

  lemma SecondIsRejected()
    ensures Run(Init(B), REJECTED) == REJECTED_STATE
  {
    Waiting();
    SecondSettles();
    var w := WAITING + [Spawn(2, SECOND)];
    RunSnoc(Init(B), WAITING, Spawn(2, SECOND));
    RunSnoc(Init(B), w, TURN);
    RunSnoc(Init(B), w + [TURN], TURN);
    RunSnoc(Init(B), w + [TURN] + [TURN], TURN);
    var v := w + [TURN] + [TURN] + [TURN];
    RunSnoc(Init(B), v, TURN);
    RunSnoc(Init(B), v + [TURN], TURN);
    RunSnoc(Init(B), v + [TURN] + [TURN], TURN);
    RunSnoc(Init(B), v + [TURN] + [TURN] + [TURN], TURN);
    InitValid(B);
    RunKeeps(Init(B), v);
    hide Step, Run, Valid;
    SettleAlone(SETTLING_STATE, 2, Interrupted);
    assert SettleSection(SETTLING_STATE.t, "op", REJECTION, None) == REJECTED_STATE.t;
  }

  /** The operation has been rejected, and is then started for the first time. */
  lemma RejectedThenStarted()
    ensures var before := Run(Init(B), REJECTED);
            var fork := Advance(1, 3, Interrupted);
            && before.t.receipts == map["op" := REJECTION] && before.starts == []
            && StaleFork(before, fork) && !EverInFlight(Init(B), REJECTED, "op")
            && Step(before, fork).starts == [Start(1, "op")]
  {
    var fork := Advance(1, 3, Interrupted);
    SecondIsRejected();
    assert StaleFork(REJECTED_STATE, fork) && Step(REJECTED_STATE, fork).starts == [Start(1, "op")];
    hide Run, EverInFlight, Step;
    StaleForkExactly(B, REJECTED, fork);
  }
}
