/** What the Runner achieves when a call is left to run (packages/runner/src/workspace.ts and executor.ts): a
    prepared call is registered, started once and answered with what its worker made of its exit; the other ways a
    call can end. */
module RunnerProgress {
  import opened Bindings
  import opened ExecutorContract
  import opened Json
  import opened RunnerExecutor
  import opened RunnerRuns

  // ----- one fiber alone -----

  function Times(e: Event, n: nat): seq<Event> { seq(n, _ => e) }

  lemma {:induction false} RunJoin(s: State, events: seq<Event>, more: seq<Event>)
    ensures Run(s, events + more) == Run(Run(s, events), more)
  {
    if more == [] {
      assert events + more == events;
    } else {
      assert (events + more)[..|events + more| - 1] == events + more[..|more| - 1];
      RunJoin(s, events, more[..|more| - 1]);
      hide Step;
    }
  }

  lemma Once(s: State, e: Event, n: nat)
    ensures Run(s, Times(e, n + 1)) == Run(Step(s, e), Times(e, n)) && Run(s, Times(e, 0)) == s
  {
    hide Step;
    assert Times(e, 0) == [] && [e][..0] == [];
    assert Times(e, n + 1) == [e] + Times(e, n);
    RunJoin(s, [e], Times(e, n));
    assert Run(s, [e]) == Step(s, e);
  }

  // ----- what a worker makes of its exit -----

  /** The outcome that an exit stands for. */
  function Verdict(tool: string, exit: Exit): Outcome {
    match exit
    case Success(value) =>
      if Bytes(value) <= 16384 then Completed(value)
      else DomainFailure(ToolFailure(tool, tool + " result exceeds the retained output limit", "operation"))
    case Failure(failure) => DomainFailure(failure)
    case Interrupted => Unknown("Runner operation was interrupted before a canonical result was retained")
  }

  lemma ExitIsItsVerdict(intent: Intent, tool: string, exit: Exit)
    ensures OutcomeFromExit(intent, tool, exit) == EvidenceFor(intent, Verdict(tool, exit))
  {
    hide EvidenceFor, ToolFailure, Bytes;
  }

  // ----- a prepared call -----

  /** A call that the Runner can take on: its intent is of this, consistent binding, the handshake is the Runner's, the
      digest is that of the input, the tool is known and is that of the request. */
  predicate Takes(s: State, intent: Intent, digest: string, handshake: Evidence, known: bool) {
    && intent.binding == s.binding && PlacementMatchesWorkspace(s.binding) && handshake == ToEvidence(s.binding)
    && digest == intent.inputDigest && known
  }

  /** Nothing is known of the operation yet, and the names are free. */
  predicate New(s: State, id: string, f: nat, w: nat) {
    && id !in s.t.receipts && id !in s.t.requests && id !in s.t.active
    && f != w && f !in s.tasks && w !in s.tasks && w !in s.owners
  }

  /** The state in which the operation is registered and runs, with its caller waiting. */
  function Started(s: State, f: nat, w: nat, intent: Intent, request: Request): State {
    s.(t := s.t.(requests := s.t.requests[intent.operationId := Registered(intent, request)],
                 active := s.t.active[intent.operationId := Active(w, intent, w)]),
       tasks := s.tasks[f := DispatchAwait(intent, w)][w := Running(intent, request, w)],
       owners := s.owners[w := intent],
       starts := s.starts + [Start(f, intent.operationId)])
  }

  lemma FrontSteps(s: State, f: nat, w: nat, intent: Intent, digest: string, handshake: Evidence, known: bool,
                   request: Request)
    requires Takes(s, intent, digest, handshake, known) && New(s, intent.operationId, f, w)
    ensures var e := Advance(f, w, Interrupted);
            var s0 := Step(s, Spawn(f, WorkspaceDispatch(intent, digest, handshake, known, Prepared.Ready(request))));
            Step(Step(s0, e), e) == Go(s, f, WorkspaceRegister(intent, handshake, request))
  {
    FencesAreIdentity(s.binding, intent.binding, handshake);
    hide SameBinding, SameEvidence, ToEvidence, EvidenceFor, OutcomeFromExit, RegisterStep, DispatchReadStep,
      DispatchLookupStep, DispatchLockStep, SettleStep, RejectReadStep, CancelReceiptStep, FenceFor;
    var task := WorkspaceDispatch(intent, digest, handshake, known, Prepared.Ready(request));
    var e := Advance(f, w, Interrupted);
    var s0 := Go(s, f, task);
    assert Step(s, Spawn(f, task)) == s0;
    var s1 := Go(s, f, WorkspacePrepare(intent, handshake, Prepared.Ready(request)));
    assert Step(s0, e) == s1;
    assert Step(s1, e) == Go(s, f, WorkspaceRegister(intent, handshake, request));
  }

  lemma RegisterAndRead(s: State, f: nat, w: nat, intent: Intent, handshake: Evidence, request: Request)
    requires s.lock.None? && New(s, intent.operationId, f, w) && RequestToolName(request) == intent.tool
    requires intent.binding == s.binding && PlacementMatchesWorkspace(s.binding) && handshake == ToEvidence(s.binding)
    ensures var e := Advance(f, w, Interrupted);
            var registered := s.(t :=
                                 s.t.(requests := s.t.requests[intent.operationId := Registered(intent, request)]));
            Step(Step(Step(Go(s, f, WorkspaceRegister(intent, handshake, request)), e), e), e)
            == Go(registered, f, DispatchLock(intent, request))
  {
    FencesAreIdentity(s.binding, intent.binding, handshake);
    hide SameBinding, SameEvidence, ToEvidence, EvidenceFor, OutcomeFromExit, RequestToolName, WorkspaceDispatchStep,
      DispatchLockStep, SettleStep, RejectReadStep, CancelReceiptStep, FenceFor;
    var e := Advance(f, w, Interrupted);
    var registered := s.(t := s.t.(requests := s.t.requests[intent.operationId := Registered(intent, request)]));
    assert Step(Go(s, f, WorkspaceRegister(intent, handshake, request)), e)
           == Go(registered, f, DispatchRead(intent, handshake));
    assert Step(Go(registered, f, DispatchRead(intent, handshake)), e) == Go(registered, f, DispatchLookup(intent));
    assert Step(Go(registered, f, DispatchLookup(intent)), e) == Go(registered, f, DispatchLock(intent, request));
  }

  lemma ForkStep(s: State, f: nat, w: nat, intent: Intent, request: Request)
    requires s.lock.None? && New(s, intent.operationId, f, w)
    ensures var registered :=
      s.(t := s.t.(requests := s.t.requests[intent.operationId := Registered(intent, request)]));
            Step(Go(registered, f, DispatchLock(intent, request)), Advance(f, w, Interrupted))
            == Started(s, f, w, intent, request)
  {
    hide EvidenceFor, OutcomeFromExit, WorkspaceDispatchStep, DispatchReadStep, DispatchLookupStep, SettleStep,
      RegisterStep, RejectReadStep, CancelReceiptStep;
  }

  /** A prepared call starts its operation: from its arrival, six steps of its own register the request, find no
      receipt, and fork one worker for it; nothing else changes. */
  lemma PreparedCallStarts(s: State, f: nat, w: nat, intent: Intent, digest: string, handshake: Evidence, known: bool,
                           request: Request)
    requires s.lock.None? && Takes(s, intent, digest, handshake, known) && New(s, intent.operationId, f, w)
    requires RequestToolName(request) == intent.tool
    ensures Run(s, [Spawn(f, WorkspaceDispatch(intent, digest, handshake, known, Prepared.Ready(request)))]
                   + Times(Advance(f, w, Interrupted), 6))
         == Started(s, f, w, intent, request)
  {
    var spawn := Spawn(f, WorkspaceDispatch(intent, digest, handshake, known, Prepared.Ready(request)));
    var e := Advance(f, w, Interrupted);
    var s0 := Step(s, spawn);
    assert Takes(s, intent, digest, handshake, known);
    hide Step, Started, New, RequestToolName, ToEvidence, PlacementMatchesWorkspace;
    FrontSteps(s, f, w, intent, digest, handshake, known, request);
    RegisterAndRead(s, f, w, intent, handshake, request);
    ForkStep(s, f, w, intent, request);
    SixTimes(s0, e);
    RunJoin(s, [spawn], Times(e, 6));
    assert [spawn][..0] == [];
    assert Run(s, [spawn]) == s0;
    hide Run;
  }

  lemma SixTimes(s: State, e: Event)
    ensures Run(s, Times(e, 6)) == Step(Step(Step(Step(Step(Step(s, e), e), e), e), e), e)
  {
    hide Step, Run, Times;
    var s1 := Step(s, e);
    var s2 := Step(s1, e);
    var s3 := Step(s2, e);
    var s4 := Step(s3, e);
    var s5 := Step(s4, e);
    Once(s, e, 5);
    Once(s1, e, 4);
    Once(s2, e, 3);
    Once(s3, e, 2);
    Once(s4, e, 1);
    Once(s5, e, 0);
    Once(Step(s5, e), e, 0);
  }

  lemma FourTimes(s: State, e: Event)
    ensures Run(s, Times(e, 4)) == Step(Step(Step(Step(s, e), e), e), e)
  {
    hide Step, Run, Times;
    var s1 := Step(s, e);
    var s2 := Step(s1, e);
    var s3 := Step(s2, e);
    Once(s, e, 3);
    Once(s1, e, 2);
    Once(s2, e, 1);
    Once(s3, e, 0);
    Once(Step(s3, e), e, 0);
  }

  // ----- settling -----

  /** What settling leaves when there was no receipt: the receipt, nothing in flight, and the waiters' evidence. */
  function Settled(s: State, f: nat, task: Task): State
    requires task.Settling?
  {
    s.(t := s.t.(receipts := s.t.receipts[task.operationId := task.evidence],
                 active := s.t.active - {task.operationId},
                 completions := if task.deferred.None? then s.t.completions
                                else s.t.completions[task.deferred.value := task.evidence]),
       tasks := s.tasks[f := match task.next
                             case WorkerEnds => Finished(Reply.Ended)
                             case RejectReturns(intent) => Finished(RejectReply(intent, task.evidence))
                             case CancelReturns => Finished(Cancelled)])
  }

  lemma Settles(s: State, f: nat, v: nat, task: Task)
    requires s.lock.None? && f in s.tasks && s.tasks[f] == task && task.Settling? && task.stage == WaitLock
    requires task.operationId !in s.t.receipts
    requires task.deferred.Some? ==> task.deferred.value !in s.t.completions
    ensures Run(s, Times(Advance(f, v, Interrupted), 4)) == Settled(s, f, task)
  {
    var e := Advance(f, v, Interrupted);
    assert Go(s.(t := SettleSection(s.t, task.operationId, task.evidence, task.deferred)), f, SettleEnd(task))
        == Settled(s, f, task);
    hide Step, Run, SettleStep, SettleSection, SettleEnd, Settled, Times;
    FourTimes(s, e);
    FourSettle(s, f, task);
    OneSettle(s, f, v, Interrupted);
    var s1 := SettleStep(s, f, task);
    OneSettle(s1, f, v, Interrupted);
    var s2 := SettleStep(s1, f, s1.tasks[f]);
    OneSettle(s2, f, v, Interrupted);
    var s3 := SettleStep(s2, f, s2.tasks[f]);
    OneSettle(s3, f, v, Interrupted);
  }

  lemma WorkerStep(s: State, w: nat, v: nat, intent: Intent, request: Request, c: nat, exit: Exit)
    requires w in s.tasks && s.tasks[w] == Running(intent, request, c)
    ensures var evidence := EvidenceFor(intent, Verdict(RequestToolName(request), exit));
            Step(s, Advance(w, v, exit))
              == Go(s, w, Settling(intent.operationId, evidence, Some(c), WaitLock, WorkerEnds))
  {
    ExitIsItsVerdict(intent, RequestToolName(request), exit);
    hide EvidenceFor, OutcomeFromExit, RequestToolName, Verdict;
  }

  lemma AwaitStep(s: State, f: nat, v: nat, intent: Intent, c: nat)
    requires f in s.tasks && s.tasks[f] == DispatchAwait(intent, c) && c in s.t.completions
    ensures Step(s, Advance(f, v, Interrupted)) == Go(s, f, Finished(Dispatched(intent, s.t.completions[c])))
  {
    hide EvidenceFor, OutcomeFromExit;
  }

  /** The state in which the operation has ended with this evidence, and its caller has it. */
  function Answered(s: State, f: nat, w: nat, intent: Intent, request: Request, evidence: ExecutorEvidence): State {
    s.(t := Tables(s.t.requests[intent.operationId := Registered(intent, request)],
                   s.t.receipts[intent.operationId := evidence], s.t.active, s.t.completions[w := evidence]),
       tasks := s.tasks[f := Finished(Dispatched(intent, evidence))][w := Finished(Reply.Ended)],
       owners := s.owners[w := intent],
       starts := s.starts + [Start(f, intent.operationId)])
  }

  /** A started operation is answered: its worker's exit decides the evidence, which becomes the receipt and is what the
      caller gets. */
  lemma StartedIsAnswered(s: State, f: nat, w: nat, intent: Intent, request: Request, exit: Exit)
    requires s.lock.None? && New(s, intent.operationId, f, w) && w !in s.t.completions
    ensures var evidence := EvidenceFor(intent, Verdict(RequestToolName(request), exit));
            Run(Started(s, f, w, intent, request),
                [Advance(w, w, exit)] + Times(Advance(w, w, Interrupted), 4) + [Advance(f, w, Interrupted)])
            == Answered(s, f, w, intent, request, evidence)
  {
    hide *;
    var evidence := EvidenceFor(intent, Verdict(RequestToolName(request), exit));
    var task := Settling(intent.operationId, evidence, Some(w), WaitLock, WorkerEnds);
    var s0 := Started(s, f, w, intent, request);
    var s1 := Go(s0, w, task);
    WhileItRuns(s, f, w, intent, request, evidence);
    WorkerStep(s0, w, w, intent, request, w, exit);
    Settles(s1, w, w, task);
    AwaitStep(Settled(s1, w, task), f, w, intent, w);
    ThreeParts(s0, Advance(w, w, exit), Times(Advance(w, w, Interrupted), 4), Advance(f, w, Interrupted));
  }

  /** The states between the start and the answer. */
  lemma WhileItRuns(s: State, f: nat, w: nat, intent: Intent, request: Request, evidence: ExecutorEvidence)
    requires s.lock.None? && New(s, intent.operationId, f, w) && w !in s.t.completions
    ensures var task := Settling(intent.operationId, evidence, Some(w), WaitLock, WorkerEnds);
            var s0 := Started(s, f, w, intent, request);
            var s1 := Go(s0, w, task);
            && w in s0.tasks && s0.tasks[w] == Running(intent, request, w)
            && w in s1.tasks && s1.tasks[w] == task && s1.lock.None? && intent.operationId !in s1.t.receipts
            && w !in s1.t.completions
            && var s2 := Settled(s1, w, task);
               && f in s2.tasks && s2.tasks[f] == DispatchAwait(intent, w)
               && w in s2.t.completions && s2.t.completions[w] == evidence
               && Go(s2, f, Finished(Dispatched(intent, evidence))) == Answered(s, f, w, intent, request, evidence)
  {
    var task := Settling(intent.operationId, evidence, Some(w), WaitLock, WorkerEnds);
    var s0 := Started(s, f, w, intent, request);
    var s2 := Settled(Go(s0, w, task), w, task);
    var answered := Answered(s, f, w, intent, request, evidence);
    assert s.t.active[intent.operationId := Active(w, intent, w)] - {intent.operationId} == s.t.active;
    assert s2.t == answered.t;
    assert s2.tasks[f := Finished(Dispatched(intent, evidence))] == answered.tasks;
  }

  lemma ThreeParts(s: State, first: Event, middle: seq<Event>, last: Event)
    ensures Run(s, [first] + middle + [last]) == Step(Run(Step(s, first), middle), last)
  {
    hide Step;
    RunJoin(s, [first] + middle, [last]);
    RunJoin(s, [first], middle);
    assert [first][..0] == [] && [last][..0] == [];
    assert Run(s, [first]) == Step(s, first);
    assert Run(Run(s, [first] + middle), [last]) == Step(Run(s, [first] + middle), last);
  }

  /** A prepared call, from its arrival to its answer: exactly one start, and the caller gets what the worker made
      of its exit, which is the receipt; a value within the output bound is a completed result, a failure a domain
      failure. */
  lemma PreparedCallIsAnswered(s: State, f: nat, w: nat, intent: Intent, digest: string, handshake: Evidence,
                               known: bool, request: Request, exit: Exit)
    requires s.lock.None? && Takes(s, intent, digest, handshake, known) && New(s, intent.operationId, f, w)
    requires RequestToolName(request) == intent.tool && w !in s.t.completions
    ensures var spawn := Spawn(f, WorkspaceDispatch(intent, digest, handshake, known, Prepared.Ready(request)));
            var evidence := EvidenceFor(intent, Verdict(intent.tool, exit));
            Run(s, ([spawn] + Times(Advance(f, w, Interrupted), 6))
                   + ([Advance(w, w, exit)] + Times(Advance(w, w, Interrupted), 4) + [Advance(f, w, Interrupted)]))
            == Answered(s, f, w, intent, request, evidence)
  {
    hide *;
    PreparedCallStarts(s, f, w, intent, digest, handshake, known, request);
    StartedIsAnswered(s, f, w, intent, request, exit);
    RunJoin(s, [Spawn(f, WorkspaceDispatch(intent, digest, handshake, known, Prepared.Ready(request)))]
               + Times(Advance(f, w, Interrupted), 6),
            [Advance(w, w, exit)] + Times(Advance(w, w, Interrupted), 4) + [Advance(f, w, Interrupted)]);
  }
}
