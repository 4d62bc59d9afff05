/** What the Runner executor guarantees over whole runs. */
module RunnerRuns {
  import opened Bindings
  import opened ExecutorContract
  import opened Json
  import opened RunnerExecutor

  lemma InitValid(binding: Binding)
    ensures Valid(Init(binding))
  {
  }

  lemma ExtendsTrans(a: State, b: State, c: State)
    requires Extends(a, b) && Extends(b, c)
    ensures Extends(a, c)
  {
    forall f | f in a.tasks && Stopped(a, f) ensures f in c.tasks && c.tasks[f] == a.tasks[f] {
      assert Stopped(b, f);
    }
  }

  lemma {:induction false} RunKeeps(s: State, events: seq<Event>)
    requires Valid(s)
    ensures Valid(Run(s, events)) && Extends(s, Run(s, events))
  {
    if events == [] {
    } else {
      var mid := Run(s, events[..|events| - 1]);
      RunKeeps(s, events[..|events| - 1]);
      StepKeeps(mid, events[|events| - 1]);
      ExtendsTrans(s, mid, Run(s, events));
    }
  }

  /** Agreement. Whatever the interleaving of dispatches, completions, cancels, rejects and interrupts: a
      dispatch that returned evidence returned the receipt of its operation, that receipt never changes
      again, and it carries the identity of the very intent dispatched. */
  lemma Agreement(binding: Binding, past: seq<Event>, future: seq<Event>, f: nat)
    requires var s := Run(Init(binding), past);
             f in s.tasks && s.tasks[f].Finished? && s.tasks[f].reply.Dispatched?
    ensures var reply := Run(Init(binding), past).tasks[f].reply;
            var later := Run(Run(Init(binding), past), future);
            && f in later.tasks && later.tasks[f] == Finished(reply)
            && reply.intent.operationId in later.t.receipts
            && later.t.receipts[reply.intent.operationId] == reply.evidence
            && ValidateEvidence(reply.intent, reply.evidence) == Ok(reply.evidence)
  {
    InitValid(binding);
    RunKeeps(Init(binding), past);
    var s := Run(Init(binding), past);
    RunKeeps(s, future);
    assert TaskOk(s, f, s.tasks[f]);
  }

  /** Write-once receipts, in every interleaving. */
  lemma ReceiptsAreWriteOnce(binding: Binding, past: seq<Event>, future: seq<Event>, id: string)
    requires id in Run(Init(binding), past).t.receipts
    ensures var later := Run(Run(Init(binding), past), future);
            id in later.t.receipts && later.t.receipts[id] == Run(Init(binding), past).t.receipts[id]
  {
    InitValid(binding);
    RunKeeps(Init(binding), past);
    RunKeeps(Run(Init(binding), past), future);
  }

  /** Definite failure. A call that ended with any failure, in particular the before-dispatch one, forked
      nothing, then or later. */
  lemma FailedCallsStartedNothing(binding: Binding, past: seq<Event>, future: seq<Event>, f: nat, i: nat)
    requires var s := Run(Init(binding), past); f in s.tasks && s.tasks[f].Finished? && s.tasks[f].reply.Failed?
    requires i < |Run(Run(Init(binding), past), future).starts|
    ensures Run(Run(Init(binding), past), future).starts[i].caller != f
  {
    InitValid(binding);
    RunKeeps(Init(binding), past);
    RunKeeps(Run(Init(binding), past), future);
  }

  // ----- at most once -----

  predicate Started(s: State, id: string) {
    exists i :: 0 <= i < |s.starts| && s.starts[i].operationId == id
  }

  predicate AtMostOnce(s: State) {
    forall i, j :: 0 <= i < j < |s.starts| ==> s.starts[i].operationId != s.starts[j].operationId
  }

  /** The lock step of a dispatch that finds its operation no longer in flight. */
  predicate Forks(s: State, e: Event) {
    && e.Advance? && e.fiber in s.tasks && s.tasks[e.fiber].DispatchLock? && s.lock.None?
    && s.tasks[e.fiber].intent.operationId !in s.t.active && e.worker !in s.tasks && e.worker !in s.owners
  }

  /** The receipt read made before the lock is out of date: the operation has a receipt by now. */
  predicate StaleFork(s: State, e: Event) {
    Forks(s, e) && s.tasks[e.fiber].intent.operationId in s.t.receipts
  }

  predicate StaleRestart(s: State, e: Event) {
    StaleFork(s, e) && Started(s, s.tasks[e.fiber].intent.operationId)
  }

  lemma StartsGrow(s: State, e: Event)
    requires Valid(s)
    ensures Step(s, e).starts ==
            if Forks(s, e) then s.starts + [Start(e.fiber, s.tasks[e.fiber].intent.operationId)] else s.starts
  {
    if e.Advance? && e.fiber in s.tasks && s.tasks[e.fiber].Settling? { SettleFrame(s, e.fiber, s.tasks[e.fiber]); }
  }

  lemma StepAtMostOnce(s: State, e: Event)
    requires Valid(s)
    ensures AtMostOnce(Step(s, e)) <==> AtMostOnce(s) && !StaleRestart(s, e)
  {
    StartsGrow(s, e);
    if Forks(s, e) {
      var id := s.tasks[e.fiber].intent.operationId;
      var starts := Step(s, e).starts;
      assert starts[|s.starts|].operationId == id;
      forall i | 0 <= i < |s.starts| ensures starts[i] == s.starts[i] {}
      if Started(s, id) {
        var i :| 0 <= i < |s.starts| && s.starts[i].operationId == id;
        assert id in s.t.active || id in s.t.receipts;
        assert starts[i].operationId == starts[|s.starts|].operationId;
      }
    }
    if AtMostOnce(Step(s, e)) {
      forall i, j | 0 <= i < j < |s.starts| ensures s.starts[i].operationId != s.starts[j].operationId {
        assert Step(s, e).starts[i].operationId != Step(s, e).starts[j].operationId;
      }
    }
  }

  /** Some step of the run was a stale restart. */
  predicate EverRestarts(s: State, events: seq<Event>) {
    events != [] &&
    var n := |events| - 1;
    EverRestarts(s, events[..n]) || StaleRestart(Run(s, events[..n]), events[n])
  }

  /** Some step of the run forked on a stale receipt read. */
  predicate EverStale(s: State, events: seq<Event>) {
    events != [] &&
    var n := |events| - 1;
    EverStale(s, events[..n]) || StaleFork(Run(s, events[..n]), events[n])
  }

  /** Exactly when a run starts every operation at most once: when no dispatch takes the lock with a
      receipt read that has meanwhile gone stale, for an operation already run. */
  lemma {:induction false} AtMostOnceExactly(binding: Binding, events: seq<Event>)
    ensures AtMostOnce(Run(Init(binding), events)) <==> !EverRestarts(Init(binding), events)
  {
    if events == [] {
    } else {
      var n := |events| - 1;
      AtMostOnceExactly(binding, events[..n]);
      InitValid(binding);
      RunKeeps(Init(binding), events[..n]);
      hide Valid, StaleRestart, AtMostOnce, Step;
      StepAtMostOnce(Run(Init(binding), events[..n]), events[n]);
    }
  }

  /** With the receipt read and the look at `active` taken as one step, so that no fork is stale, every
      run starts every operation at most once. */
  lemma AtMostOnceWhenReadIsCurrent(binding: Binding, events: seq<Event>)
    requires !EverStale(Init(binding), events)
    ensures AtMostOnce(Run(Init(binding), events))
  {
    RestartsAreStale(Init(binding), events);
    AtMostOnceExactly(binding, events);
  }

  lemma {:induction false} RestartsAreStale(s: State, events: seq<Event>)
    ensures EverRestarts(s, events) ==> EverStale(s, events)
  {
    if events == [] {
    } else {
      RestartsAreStale(s, events[..|events| - 1]);
    }
  }

  predicate Races(s: State, f: nat, w: nat, extra: nat) {
    && s.lock.None? && f in s.tasks && s.tasks[f].DispatchLock? && Started(s, s.tasks[f].intent.operationId)
    && w in s.tasks && s.tasks[w].Settling? && s.tasks[w].operationId == s.tasks[f].intent.operationId
    && s.tasks[f].intent.operationId !in s.t.receipts && extra !in s.tasks && extra !in s.owners
  }

  lemma FourKeep(s: State, a: Event)
    requires Valid(s)
    ensures Keeps(s, Step(Step(Step(Step(s, a), a), a), a))
  {
    hide Step, Valid, Extends;
    var s1 := Step(s, a);
    var s2 := Step(s1, a);
    var s3 := Step(s2, a);
    StepKeeps(s, a);
    StepKeeps(s1, a);
    StepKeeps(s2, a);
    StepKeeps(s3, a);
    ExtendsTrans(s, s1, s2);
    ExtendsTrans(s, s2, s3);
    ExtendsTrans(s, s3, Step(s3, a));
  }

  lemma OneSettle(s: State, f: nat, v: nat, exit: Exit)
    requires f in s.tasks && s.tasks[f].Settling?
    ensures Step(s, Advance(f, v, exit)) == SettleStep(s, f, s.tasks[f])
  {
    hide SettleStep, EvidenceFor, OutcomeFromExit;
  }

  /** A fiber that has ended takes no more steps. */
  lemma Ends(s: State, f: nat, exit: Exit)
    requires f in s.tasks && s.tasks[f].Finished?
    ensures Step(s, Advance(f, 0, exit)) == s
  {
    hide EvidenceFor, OutcomeFromExit;
  }

  /** The accesses of `settle` one after another. */
  lemma FourSettle(s: State, f: nat, task: Task)
    requires s.lock.None? && f in s.tasks && s.tasks[f] == task && task.Settling? && task.stage == WaitLock
    ensures var s1 := SettleStep(s, f, task);
            f in s1.tasks && s1.tasks[f].Settling?
            && var s2 := SettleStep(s1, f, s1.tasks[f]);
               f in s2.tasks
               && if task.operationId in s.t.receipts
                  then s2 == Go(s, f, SettleEnd(task))
                    && SettleSection(s.t, task.operationId, task.evidence, task.deferred) == s.t
                       && s2.tasks[f].Finished?
                  else s2.tasks[f].Settling?
                       && var s3 := SettleStep(s2, f, s2.tasks[f]);
                          f in s3.tasks && s3.tasks[f].Settling?
                          && var s4 := SettleStep(s3, f, s3.tasks[f]);
                             s4 == Go(s.(t := SettleSection(s.t, task.operationId, task.evidence, task.deferred)), f,
                                      SettleEnd(task))
  {
    hide Complete;
  }

  /** `settle` run through without interruption. */
  lemma SettleAlone(s: State, f: nat, exit: Exit)
    requires Valid(s) && s.lock.None? && f in s.tasks && s.tasks[f].Settling?
    ensures var a := Advance(f, 0, exit);
            var s4 := Step(Step(Step(Step(s, a), a), a), a);
            var task := s.tasks[f];
            && s4.t == SettleSection(s.t, task.operationId, task.evidence, task.deferred)
            && s4.lock.None? && s4.tasks == s.tasks[f := SettleEnd(task)]
            && s4.owners == s.owners && s4.starts == s.starts && s4.binding == s.binding
  {
    var task := s.tasks[f];
    assert TaskOk(s, f, task);
    hide Valid, TaskOk, SettleStep, SettleSection, SettleEnd, Step;
    FourSettle(s, f, task);
    var s1 := SettleStep(s, f, task);
    var s2 := SettleStep(s1, f, s1.tasks[f]);
    OneSettle(s, f, 0, exit);
    OneSettle(s1, f, 0, exit);
    if s2.tasks[f].Settling? {
      var s3 := SettleStep(s2, f, s2.tasks[f]);
      OneSettle(s2, f, 0, exit);
      OneSettle(s3, f, 0, exit);
    } else {
      Ends(s2, f, exit);
    }
  }

  lemma SettledRaceIsStale(s: State, f: nat, w: nat, extra: nat, exit: Exit)
    requires Valid(s) && Races(s, f, w, extra)
    ensures var a := Advance(w, 0, exit);
            StaleRestart(Step(Step(Step(Step(s, a), a), a), a), Advance(f, extra, exit))
  {
    hide Step, Valid;
    var a := Advance(w, 0, exit);
    var s4 := Step(Step(Step(Step(s, a), a), a), a);
    SettleAlone(s, w, exit);
    assert Started(s4, s4.tasks[f].intent.operationId);
  }

  /** The race itself: from any state in which a dispatch has made its receipt read and waits for the lock
      while the worker of its operation is about to settle, the worker can settle first, and the dispatch
      then starts the operation a second time. */
  lemma StaleReadRestarts(s: State, f: nat, w: nat, extra: nat, exit: Exit)
    requires Valid(s) && Races(s, f, w, extra)
    ensures var a := Advance(w, 0, exit);
            !AtMostOnce(Step(Step(Step(Step(Step(s, a), a), a), a), Advance(f, extra, exit)))
  {
    hide Step, Valid, StaleRestart, Races;
    var a := Advance(w, 0, exit);
    FourKeep(s, a);
    SettledRaceIsStale(s, f, w, extra, exit);
    StepAtMostOnce(Step(Step(Step(Step(s, a), a), a), a), Advance(f, extra, exit));
  }

  lemma RunSnoc(s: State, events: seq<Event>, e: Event)
    ensures Run(s, events + [e]) == Step(Run(s, events), e)
  {
    assert (events + [e])[..|events|] == events;
  }

  const B := Binding("w", "a", 1, Runner("c", "w"), "build", 1)
  const I := Intent("op", "bash", "digest", B)
  const R := Request(Bash, "echo")
  const DONE := "{\"text\":\"done\",\"truncated\":false}"

  /** One call registers and forks the operation; a second reads the receipts map while it runs; the worker exits. */
  const FORKED := [Spawn(1, WorkspaceRegister(I, ToEvidence(B), R)), Advance(1, 3, Interrupted),
                   Advance(1, 3, Interrupted), Advance(1, 3, Interrupted), Advance(1, 3, Interrupted)]
  const RACED := FORKED + [Spawn(2, DispatchRead(I, ToEvidence(B))), Advance(2, 4, Interrupted),
                           Advance(2, 4, Interrupted), Advance(3, 4, Success(DONE))]

  const FORKED_STATE :=
    State(B, Tables(map["op" := Registered(I, R)], map[], map["op" := Active(3, I, 3)], map[]), None,
          map[1 := DispatchAwait(I, 3), 3 := Running(I, R, 3)], map[3 := I], [Start(1, "op")])

  lemma ForkedState()
    ensures Run(Init(B), FORKED) == FORKED_STATE
  {
    var a := Advance(1, 3, Interrupted);
    var e0 := Spawn(1, WorkspaceRegister(I, ToEvidence(B), R));
    var t := Tables(map["op" := Registered(I, R)], map[], map[], map[]);
    var s1 := State(B, t, None, map[1 := DispatchRead(I, ToEvidence(B))], map[], []);
    var s2 := State(B, t, None, map[1 := DispatchLookup(I)], map[], []);
    var s3 := State(B, t, None, map[1 := DispatchLock(I, R)], map[], []);
    assert Step(Step(Init(B), e0), a) == s1;
    assert Step(s1, a) == s2;
    assert Step(s2, a) == s3;
    assert Step(s3, a) == FORKED_STATE;
    hide Step;
    assert [] + [e0] == [e0] && [e0] + [a] == [e0, a] && [e0, a] + [a] == [e0, a, a];
    assert [e0, a, a] + [a] == [e0, a, a, a] && [e0, a, a, a] + [a] == FORKED;
    RunSnoc(Init(B), [], e0);
    RunSnoc(Init(B), [e0], a);
    RunSnoc(Init(B), [e0, a], a);
    RunSnoc(Init(B), [e0, a, a], a);
    RunSnoc(Init(B), [e0, a, a, a], a);
  }

  const RACING_STATE :=
    FORKED_STATE.(tasks := map[1 := DispatchAwait(I, 3), 2 := DispatchLock(I, R), 3 := Running(I, R, 3)])

  /** The two reads of a dispatch, in a state where the operation is registered and has no receipt. */
  lemma DispatchReads(s: State, f: nat)
    requires s.binding == B && I.operationId !in s.t.receipts
    requires I.operationId in s.t.requests && s.t.requests[I.operationId] == Registered(I, R)
    ensures DispatchReadStep(s, f, I, ToEvidence(B)) == Go(s, f, DispatchLookup(I))
    ensures DispatchLookupStep(s, f, I) == Go(s, f, DispatchLock(I, R))
  {
  }

  /** A fiber that is where it reads takes that step. */
  lemma ReadStep(s: State, f: nat, worker: nat)
    ensures Step(Go(s, f, DispatchRead(I, ToEvidence(B))), Advance(f, worker, Interrupted))
         == DispatchReadStep(Go(s, f, DispatchRead(I, ToEvidence(B))), f, I, ToEvidence(B))
    ensures Step(Go(s, f, DispatchLookup(I)), Advance(f, worker, Interrupted))
         == DispatchLookupStep(Go(s, f, DispatchLookup(I)), f, I)
  {
    hide DispatchReadStep, DispatchLookupStep, EvidenceFor, OutcomeFromExit, ToEvidence;
  }

  lemma WaitingSteps()
    ensures var a := Advance(2, 4, Interrupted);
            Step(Step(Step(FORKED_STATE, Spawn(2, DispatchRead(I, ToEvidence(B)))), a), a) == RACING_STATE
  {
    var s := FORKED_STATE;
    assert Step(s, Spawn(2, DispatchRead(I, ToEvidence(B)))) == Go(s, 2, DispatchRead(I, ToEvidence(B)));
    hide Step, DispatchReadStep, DispatchLookupStep;
    ReadStep(s, 2, 4);
    DispatchReads(Go(s, 2, DispatchRead(I, ToEvidence(B))), 2);
    DispatchReads(Go(s, 2, DispatchLookup(I)), 2);
    assert Go(Go(s, 2, DispatchRead(I, ToEvidence(B))), 2, DispatchLookup(I)) == Go(s, 2, DispatchLookup(I));
  }

  /** A worker whose value is within the output bound goes on to settle with it. */
  lemma WorkerExits(s: State, f: nat, c: nat, value: string)
    requires f in s.tasks && s.tasks[f] == Running(I, R, c) && Bytes(value) <= MAX_OUTPUT_BYTES
    ensures var evidence := EvidenceFor(I, Completed(value));
            Step(s, Advance(f, 4, Success(value))) == Go(s, f, Settling("op", evidence, Some(c), WaitLock, WorkerEnds))
  {
    hide EvidenceFor, Bytes;
  }

  lemma DoneFits()
    ensures Bytes(DONE) <= MAX_OUTPUT_BYTES
  {
    hide Bytes;
  }

  lemma ExitRaces(value: string)
    requires Bytes(value) <= MAX_OUTPUT_BYTES
    ensures Races(Step(RACING_STATE, Advance(3, 4, Success(value))), 2, 3, 4)
  {
    hide Step, EvidenceFor, Bytes;
    WorkerExits(RACING_STATE, 3, 3, value);
    assert RACING_STATE.starts[0].operationId == "op";
  }

  lemma RaceSteps()
    ensures Races(Step(RACING_STATE, Advance(3, 4, Success(DONE))), 2, 3, 4)
  {
    hide *;
    DoneFits();
    ExitRaces(DONE);
  }

  /** The racing state is reached by a nine-event run from the start of the service. */
  lemma RaceIsReachable()
    ensures Races(Run(Init(B), RACED), 2, 3, 4)
  {
    hide Step, Races;
    ForkedState();
    WaitingSteps();
    RaceSteps();
    var a := Advance(2, 4, Interrupted);
    var x := Advance(3, 4, Success(DONE));
    var e0 := Spawn(2, DispatchRead(I, ToEvidence(B)));
    RunSnoc(Init(B), FORKED, e0);
    RunSnoc(Init(B), FORKED + [e0], a);
    RunSnoc(Init(B), FORKED + [e0] + [a], a);
    RunSnoc(Init(B), FORKED + [e0] + [a] + [a], x);
    assert RACED == FORKED + [e0] + [a] + [a] + [x];
  }

  // ----- the service object -----

  /** `makeService`: three maps replaced under the lock, and the Deferreds they complete. */
  class RunnerService {
    const binding: Binding
    var requests: map<string, Registered>
    var receipts: map<string, ExecutorEvidence>
    var active: map<string, Active>
    var completions: map<nat, ExecutorEvidence>

    ghost function View(): Tables
      reads this
    {
      Tables(requests, receipts, active, completions)
    }

    constructor (binding: Binding)
      ensures this.binding == binding && View() == Init(binding).t
    {
      this.binding := binding;
      requests, receipts, active, completions := map[], map[], map[], map[];
    }

    method Settle(operationId: string, evidence: ExecutorEvidence, completion: Option<nat>)
      modifies this
      ensures View() == SettleSection(old(View()), operationId, evidence, completion)
    {
      if operationId in receipts { return; }
      receipts := receipts[operationId := evidence];
      if operationId in active { active := active - {operationId}; }
      assert active == old(active) - {operationId};
      if completion.Some? && completion.value !in completions {
        completions := completions[completion.value := evidence];
      }
    }

    method Register(intent: Intent, request: Request) returns (ok: bool)
      modifies this`requests
      ensures ok == RegisterSection(old(View()), intent, request).Some?
      ensures View() == if ok then RegisterSection(old(View()), intent, request).value else old(View())
    {
      if intent.operationId in requests {
        var existing := requests[intent.operationId];
        return existing.intent.inputDigest == intent.inputDigest && existing.request == request;
      }
      requests := requests[intent.operationId := Registered(intent, request)];
      return true;
    }

    /** The locked part of `dispatch`: the completion to wait for, forking `worker` only when nothing is in flight. */
    method JoinOrFork(intent: Intent, request: Request, worker: nat) returns (completion: nat, forked: bool)
      modifies this`active
      ensures forked == (intent.operationId !in old(active))
      ensures completion == if forked then worker else old(active)[intent.operationId].completion
      ensures forall s: State, f: nat :: s.t == old(View()) && s.lock.None? && worker !in s.tasks && worker !in s.owners
                ==> var s' := DispatchLockStep(s, f, intent, request, worker);
                    && s'.t == View() && f in s'.tasks
                    && s'.starts == s.starts + (if forked then [Start(f, intent.operationId)] else [])
                    && (f != worker ==> s'.tasks[f] == DispatchAwait(intent, completion))
    {
      if intent.operationId in active { return active[intent.operationId].completion, false; }
      active := active[intent.operationId := Active(worker, intent, worker)];
      return worker, true;
    }
  }
}
