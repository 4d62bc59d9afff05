/** The other ways in which a call to the Runner ends (packages/runner/src/workspace.ts and executor.ts): refusals,
    rejections, receipts found, operations joined, and cancellations. */
module RunnerEndings {
  import opened Bindings
  import opened ExecutorContract
  import opened RunnerExecutor
  import opened RunnerRuns
  import opened RunnerProgress

  /** Evidence that was made for this very intent. */
  predicate IsFor(intent: Intent, evidence: ExecutorEvidence) {
    evidence == EvidenceFor(intent, evidence.outcome).(source := evidence.source)
  }

  lemma IdentityIsFor(intent: Intent, evidence: ExecutorEvidence)
    ensures evidence.operationId == intent.operationId && SameIdentity(intent, evidence) <==> IsFor(intent, evidence)
  {
    FencesAreIdentity(intent.binding, intent.binding, evidence.binding);
    hide SameEvidence;
  }

  /** The front door, exactly: a call that the Runner cannot take on fails with a fence; one whose operation has a
      receipt is answered with it if the receipt was made for this intent, and fails otherwise; any other is
      prepared. Nothing else changes. */
  lemma FrontDoorExactly(s: State, f: nat, w: nat, exit: Exit, intent: Intent, digest: string, handshake: Evidence,
                         known: bool, prepared: Prepared)
    requires f !in s.tasks
    ensures var call := WorkspaceDispatch(intent, digest, handshake, known, prepared);
            var next := Step(Step(s, Spawn(f, call)), Advance(f, w, exit));
            && next == s.(tasks := next.tasks) && next.tasks.Keys == s.tasks.Keys + {f}
            && (forall g :: g in s.tasks ==> next.tasks[g] == s.tasks[g])
            && var task := next.tasks[f];
               if !Takes(s, intent, digest, handshake, known)
               then task.Finished? && task.reply.Failed? && task.reply.error.FenceError?
               else if intent.operationId !in s.t.receipts then task == WorkspacePrepare(intent, handshake, prepared)
               else if IsFor(intent, s.t.receipts[intent.operationId])
               then task == Finished(Dispatched(intent, s.t.receipts[intent.operationId]))
               else task == Finished(Failed(FenceError(OperationReason)))
  {
    var call := WorkspaceDispatch(intent, digest, handshake, known, prepared);
    var s0 := Go(s, f, call);
    assert Step(s, Spawn(f, call)) == s0;
    assert Step(s0, Advance(f, w, exit)) == WorkspaceDispatchStep(s0, f, call) by { hide WorkspaceDispatchStep; }
    hide Step;
    FencesAreIdentity(s.binding, intent.binding, handshake);
    if intent.operationId in s.t.receipts { IdentityIsFor(intent, s.t.receipts[intent.operationId]); }
    hide SameBinding, SameEvidence, SameIdentity, IsFor, MismatchReason, ToEvidence;
    FenceForIsAFence(s.binding, ToEvidence(intent.binding));
    FenceForIsAFence(s.binding, handshake);
  }

  lemma FenceForIsAFence(binding: Binding, evidence: Evidence)
    ensures FenceFor(binding, evidence).FenceError?
  {
  }

  /** Registration, exactly: with the lock free a request is registered if and only if its tool is the intent's and
      either nothing is registered under its identity, or this very request with this digest. */
  lemma RegistersExactly(s: State, f: nat, w: nat, exit: Exit, intent: Intent, handshake: Evidence, request: Request)
    requires s.lock.None? && f in s.tasks && s.tasks[f] == WorkspaceRegister(intent, handshake, request)
    ensures var id := intent.operationId;
            var unknown := id !in s.t.requests;
            var fits := RequestToolName(request) == intent.tool
                        && (unknown || (s.t.requests[id].intent.inputDigest == intent.inputDigest
                                      && s.t.requests[id].request == request));
            Step(s, Advance(f, w, exit))
            == if !fits then Go(s, f, Finished(Failed(FenceError(OperationReason))))
               else Go(if unknown then s.(t := s.t.(requests := s.t.requests[id := Registered(intent, request)]))
                       else s,
                       f, DispatchRead(intent, handshake))
  {
    hide EvidenceFor, OutcomeFromExit, RequestToolName;
  }

  /** The payload of a dispatch, exactly: without a registered request the outcome is uncertain; with one of another
      digest or tool nothing is started. */
  lemma PayloadExactly(s: State, f: nat, w: nat, exit: Exit, intent: Intent)
    requires f in s.tasks && s.tasks[f] == DispatchLookup(intent)
    ensures var id := intent.operationId;
            Step(s, Advance(f, w, exit))
            == if id !in s.t.requests then Go(s, f, Finished(Failed(TransportError(AfterDispatch))))
               else if s.t.requests[id].intent.inputDigest == intent.inputDigest
                 && s.t.requests[id].intent.tool == intent.tool
               then Go(s, f, DispatchLock(intent, s.t.requests[id].request))
               else Go(s, f, Finished(Failed(TransportError(BeforeDispatch))))
  {
    hide EvidenceFor, OutcomeFromExit;
  }

  /** An operation in flight is joined: a second dispatch starts nothing, and gets the evidence of the first. */
  lemma SecondDispatchJoins(s: State, f: nat, w: nat, intent: Intent, request: Request)
    requires s.lock.None? && f in s.tasks && s.tasks[f] == DispatchLock(intent, request)
    requires intent.operationId in s.t.active
    ensures Step(s, Advance(f, w, Interrupted))
         == Go(s, f, DispatchAwait(intent, s.t.active[intent.operationId].completion))
  {
    hide EvidenceFor, OutcomeFromExit;
  }

  // ----- rejections -----

  lemma RejectSteps(s: State, f: nat, intent: Intent, handshake: Evidence, failure: string)
    requires f !in s.tasks && intent.operationId !in s.t.receipts
    requires intent.binding == s.binding && PlacementMatchesWorkspace(s.binding)
    ensures var e := Advance(f, 0, Interrupted);
            var evidence := EvidenceFor(intent, DomainFailure(failure));
            Step(Step(Go(s, f, WorkspacePrepare(intent, handshake, Unprepared(failure))), e), e)
            == Go(s, f, Settling(intent.operationId, evidence, None, WaitLock, RejectReturns(intent)))
  {
    FencesAreIdentity(s.binding, intent.binding, ToEvidence(intent.binding));
    hide SameBinding, EvidenceFor, OutcomeFromExit;
    var e := Advance(f, 0, Interrupted);
    assert Step(Go(s, f, WorkspacePrepare(intent, handshake, Unprepared(failure))), e)
        == Go(s, f, RejectRead(intent, failure));
    assert Step(Go(s, f, RejectRead(intent, failure)), e)
        == Go(s, f, Settling(intent.operationId, EvidenceFor(intent, DomainFailure(failure)), None, WaitLock,
                             RejectReturns(intent)));
  }

  /** A call that cannot be prepared is rejected: with nothing known of the operation, its failure becomes the
      receipt and the answer, and nothing is started. */
  lemma UnpreparedCallIsRejected(s: State, f: nat, intent: Intent, digest: string, handshake: Evidence, known: bool,
                                 failure: string)
    requires s.lock.None? && f !in s.tasks && Takes(s, intent, digest, handshake, known)
    requires intent.operationId !in s.t.receipts && intent.operationId !in s.t.active
    ensures var evidence := EvidenceFor(intent, DomainFailure(failure));
            Run(s, [Spawn(f, WorkspaceDispatch(intent, digest, handshake, known, Unprepared(failure)))]
                   + Times(Advance(f, 0, Interrupted), 7))
            == s.(t := s.t.(receipts := s.t.receipts[intent.operationId := evidence]),
                  tasks := s.tasks[f := Finished(RejectReply(intent, evidence))])
  {
    var call := WorkspaceDispatch(intent, digest, handshake, known, Unprepared(failure));
    var e := Advance(f, 0, Interrupted);
    var s0 := Step(s, Spawn(f, call));
    var s1 := Go(s, f, WorkspacePrepare(intent, handshake, Unprepared(failure)));
    FrontDoorExactly(s, f, 0, Interrupted, intent, digest, handshake, known, Unprepared(failure));
    assert Step(s0, e).tasks == s1.tasks && Step(s0, e) == s1 by { hide Step, Takes, IsFor; }
    RejectedStates(s, f, intent, EvidenceFor(intent, DomainFailure(failure)));
    hide Step, Run, Times, Settled, EvidenceFor, Go;
    RejectSteps(s, f, intent, handshake, failure);
    ThreeThenFour(s0, e);
    var evidence := EvidenceFor(intent, DomainFailure(failure));
    var task := Settling(intent.operationId, evidence, None, WaitLock, RejectReturns(intent));
    Settles(Go(s, f, task), f, 0, task);
    OneThen(s, Spawn(f, call), Times(e, 7));
  }

  lemma RejectedStates(s: State, f: nat, intent: Intent, evidence: ExecutorEvidence)
    requires s.lock.None? && intent.operationId !in s.t.receipts && intent.operationId !in s.t.active
    ensures var task := Settling(intent.operationId, evidence, None, WaitLock, RejectReturns(intent));
            var s1 := Go(s, f, task);
            && f in s1.tasks && s1.tasks[f] == task && s1.lock.None? && intent.operationId !in s1.t.receipts
            && Settled(s1, f, task)
               == s.(t := s.t.(receipts := s.t.receipts[intent.operationId := evidence]),
                     tasks := s.tasks[f := Finished(RejectReply(intent, evidence))])
  {
    assert s.t.active - {intent.operationId} == s.t.active;
  }

  lemma OneThen(s: State, first: Event, more: seq<Event>)
    ensures Run(s, [first] + more) == Run(Step(s, first), more)
  {
    hide Step;
    RunJoin(s, [first], more);
    assert [first][..0] == [];
    assert Run(s, [first]) == Step(s, first);
  }

  lemma ThreeThenFour(s: State, e: Event)
    ensures Run(s, Times(e, 7)) == Run(Step(Step(Step(s, e), e), e), Times(e, 4))
  {
    hide Step, Run, Times;
    Once(s, e, 6);
    Once(Step(s, e), e, 5);
    Once(Step(Step(s, e), e), e, 4);
  }

  /** A second look at the receipts, exactly: both a dispatch and a rejection answer with a receipt that was made
      for the intent, and fail on another one. */
  lemma ReceiptsAreHonoured(s: State, f: nat, w: nat, exit: Exit, intent: Intent)
    requires f in s.tasks && intent.operationId in s.t.receipts
    requires s.t.receipts[intent.operationId].operationId == intent.operationId
    requires intent.binding == s.binding && PlacementMatchesWorkspace(s.binding)
    ensures var receipt := s.t.receipts[intent.operationId];
            var next := Step(s, Advance(f, w, exit));
            && (s.tasks[f] == DispatchRead(intent, ToEvidence(s.binding)) ==>
                  next == Go(s, f, Finished(if IsFor(intent, receipt) then Dispatched(intent, receipt)
                                            else Failed(FenceError(OperationReason)))))
            && (s.tasks[f].RejectRead? && s.tasks[f].intent == intent ==>
                  next == Go(s, f, Finished(if IsFor(intent, receipt) then RejectReply(intent, receipt)
                                            else Failed(FenceError(OperationReason)))))
  {
    FencesAreIdentity(s.binding, intent.binding, ToEvidence(s.binding));
    IdentityIsFor(intent, s.t.receipts[intent.operationId]);
    hide SameBinding, SameEvidence, SameIdentity, IsFor, EvidenceFor, OutcomeFromExit, FenceFor, ToEvidence;
  }

  /** A stale look, exactly: a dispatch or a rejection that no longer fits the Runner's own, consistent binding ends
      with a fence. */
  lemma StaleLooksAreFenced(s: State, f: nat, w: nat, exit: Exit, intent: Intent, handshake: Evidence)
    requires f in s.tasks
    ensures var next := Step(s, Advance(f, w, exit));
            var fenced := Go(s, f, Finished(Failed(FenceError(Field(Generation)))));
            var own := intent.binding == s.binding && PlacementMatchesWorkspace(s.binding);
            && (s.tasks[f] == DispatchRead(intent, handshake) && !(own && handshake == ToEvidence(s.binding)) ==>
                  next == fenced)
            && (s.tasks[f].RejectRead? && s.tasks[f].intent == intent && !own ==> next == fenced)
  {
    FencesAreIdentity(s.binding, intent.binding, handshake);
    hide SameBinding, SameEvidence, SameIdentity, EvidenceFor, OutcomeFromExit, FenceFor, ToEvidence;
  }

  // ----- cancellation -----

  /** What a cancelled operation leaves: the uncertain outcome as its receipt, for its waiters too. */
  function CancelledState(s: State, f: nat, target: Active, evidence: ExecutorEvidence): State {
    s.(t := s.t.(receipts := s.t.receipts[target.intent.operationId := evidence],
                 active := s.t.active - {target.intent.operationId},
                 completions := s.t.completions[target.completion := evidence]),
       tasks := s.tasks[target.fiber := Killed][f := Finished(Cancelled)])
  }

  lemma GoAgain(s: State, f: nat, first: Task, last: Task)
    ensures Go(Go(s, f, first), f, last) == Go(s, f, last)
  {
  }

  lemma CancelLooks(s: State, f: nat, id: string)
    requires f !in s.tasks
    ensures Step(Step(s, Spawn(f, CancelRead(id))), Advance(f, 0, Interrupted))
         == Go(s, f, if id in s.t.active then CancelInterrupt(id, s.t.active[id]) else CancelReceipt(id))
  {
    hide EvidenceFor, OutcomeFromExit;
    assert Step(s, Spawn(f, CancelRead(id))) == Go(s, f, CancelRead(id));
    GoAgain(s, f, CancelRead(id), if id in s.t.active then CancelInterrupt(id, s.t.active[id]) else CancelReceipt(id));
  }

  lemma CancelSteps(s: State, f: nat, id: string, target: Active)
    requires s.lock.None? && f !in s.tasks && target.fiber in s.tasks && !Stopped(s, target.fiber)
    ensures var e := Advance(f, 0, Interrupted);
            var waiting := Go(s, f, CancelInterrupt(id, target));
            && Step(waiting, e) == waiting
            && Step(Step(waiting, Kill(target.fiber)), e)
               == Go(Go(s, target.fiber, Killed), f,
                     Settling(id, EvidenceFor(target.intent, Unknown(CANCEL_REASON)), Some(target.completion), WaitLock,
                              CancelReturns))
  {
    hide EvidenceFor, OutcomeFromExit;
    var waiting := Go(s, f, CancelInterrupt(id, target));
    assert Step(waiting, Kill(target.fiber)) == Go(waiting, target.fiber, Killed);
    var task := Settling(id, EvidenceFor(target.intent, Unknown(CANCEL_REASON)), Some(target.completion), WaitLock,
                         CancelReturns);
    assert Go(Go(waiting, target.fiber, Killed), f, task) == Go(Go(s, target.fiber, Killed), f, task);
  }

  lemma CancelledStates(s: State, f: nat, target: Active, evidence: ExecutorEvidence)
    requires s.lock.None? && f !in s.tasks && target.fiber in s.tasks
    requires target.intent.operationId !in s.t.receipts && target.completion !in s.t.completions
    ensures var task := Settling(target.intent.operationId, evidence, Some(target.completion), WaitLock, CancelReturns);
            var s1 := Go(Go(s, target.fiber, Killed), f, task);
            && f in s1.tasks && s1.tasks[f] == task && s1.lock.None? && task.operationId !in s1.t.receipts
            && task.deferred.value !in s1.t.completions
               && Settled(s1, f, task) == CancelledState(s, f, target, evidence)
  {
  }

  /** Cancelling an operation in flight: it waits for the worker to stop, and then settles the operation as
      uncertain; the receipt is made for the intent in flight, and the caller is told that it was cancelled. */
  lemma CancelsInFlight(s: State, f: nat, target: Active)
    requires s.lock.None? && f !in s.tasks
    requires target.intent.operationId in s.t.active && s.t.active[target.intent.operationId] == target
    requires target.fiber in s.tasks && !Stopped(s, target.fiber)
    requires target.intent.operationId !in s.t.receipts && target.completion !in s.t.completions
    ensures var e := Advance(f, 0, Interrupted);
            var reason := "Runner operation was cancelled before a canonical result was retained";
            Run(s, [Spawn(f, CancelRead(target.intent.operationId))]
                + ([e] + ([Kill(target.fiber)] + ([e] + Times(e, 4)))))
            == CancelledState(s, f, target, EvidenceFor(target.intent, Unknown(reason)))
  {
    var id, e := target.intent.operationId, Advance(f, 0, Interrupted);
    var evidence := EvidenceFor(target.intent, Unknown(CANCEL_REASON));
    var task := Settling(id, evidence, Some(target.completion), WaitLock, CancelReturns);
    assert CANCEL_REASON == "Runner operation was cancelled before a canonical result was retained";
    hide *;
    CancelLooks(s, f, id);
    CancelSteps(s, f, id, target);
    CancelledStates(s, f, target, evidence);
    var s0 := Step(s, Spawn(f, CancelRead(id)));
    var waiting := Go(s, f, CancelInterrupt(id, target));
    OneThen(s, Spawn(f, CancelRead(id)), [e] + ([Kill(target.fiber)] + ([e] + Times(e, 4))));
    OneThen(s0, e, [Kill(target.fiber)] + ([e] + Times(e, 4)));
    OneThen(waiting, Kill(target.fiber), [e] + Times(e, 4));
    OneThen(Step(waiting, Kill(target.fiber)), e, Times(e, 4));
    Settles(Go(Go(s, target.fiber, Killed), f, task), f, 0, task);
  }

  /** Cancelling an operation that is not in flight: the caller gets the outcome of its receipt, under the intent
      that was registered for it, or learns that nothing is known of it; nothing else changes. */
  lemma CancelsNothing(s: State, f: nat, id: string)
    requires f !in s.tasks && id !in s.t.active
    ensures var e := Advance(f, 0, Interrupted);
            Step(Step(Step(s, Spawn(f, CancelRead(id))), e), e)
            == Go(s, f, Finished(
                 if id !in s.t.receipts then Failed(FenceError(OperationReason))
                 else AlreadyTerminal(
                   if id in s.t.requests
                   then Canonical(s.t.requests[id].intent.operationId, s.t.requests[id].intent.binding,
                                  s.t.receipts[id].outcome)
                   else Canonical(id, s.binding, s.t.receipts[id].outcome))))
  {
    hide Step, Go;
    CancelLooks(s, f, id);
    CancelEnds(s, f, id);
  }

  lemma CancelEnds(s: State, f: nat, id: string)
    ensures Step(Go(s, f, CancelReceipt(id)), Advance(f, 0, Interrupted))
            == Go(s, f, Finished(
                 if id !in s.t.receipts then Failed(FenceError(OperationReason))
                 else AlreadyTerminal(
                   if id in s.t.requests
                   then Canonical(s.t.requests[id].intent.operationId, s.t.requests[id].intent.binding,
                                  s.t.receipts[id].outcome)
                   else Canonical(id, s.binding, s.t.receipts[id].outcome))))
  {
    hide EvidenceFor, OutcomeFromExit, Go;
    var looking := Go(s, f, CancelReceipt(id));
    assert looking.t == s.t && looking.binding == s.binding && f in looking.tasks
           && looking.tasks[f] == CancelReceipt(id)
      by { GoTasks(s, f, CancelReceipt(id)); }
    forall last ensures Go(looking, f, last) == Go(s, f, last) { GoAgain(s, f, CancelReceipt(id), last); }
  }

  lemma GoTasks(s: State, f: nat, task: Task)
    ensures var next := Go(s, f, task);
            next.t == s.t && next.binding == s.binding && f in next.tasks && next.tasks[f] == task
  {
  }

  /** An interruption, exactly: it stops a fiber that has not ended, and gives back the lock if that fiber had it. */
  lemma InterruptsExactly(s: State, f: nat)
    ensures Step(s, Kill(f))
         == if f in s.tasks && !s.tasks[f].Finished? && !s.tasks[f].Killed?
            then s.(tasks := s.tasks[f := Killed], lock := if s.lock == Some(f) then None else s.lock)
            else s
  {
    hide EvidenceFor, OutcomeFromExit;
  }
}
