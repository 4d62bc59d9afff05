/** A tool call end to end, when it is left to run: from the coordinator's dispatch over the connection to the worker of
    the Runner, and back to the journal (packages/execution/src/operation.ts and transport.ts, packages/runner/src). */
module ProtocolProgress {
  import opened Bindings
  import opened ExecutorContract
  import C = Coordinator
  import Flow
  import Json
  import Sizes
  import S = RpcServer
  import SR = ServerRuns
  import SP = ServerProgress
  import R = RunnerExecutor
  import RP = RunnerProgress
  import opened Protocol

  function ServerEvents(events: seq<S.Event>): seq<Event> {
    seq(|events|, i requires 0 <= i < |events| => Server(events[i]))
  }

  function FiberEvents(events: seq<R.Event>): seq<Event> {
    seq(|events|, i requires 0 <= i < |events| => Event.Runner(events[i]))
  }

  /** Events of the server's own fibers. */
  predicate Own(e: S.Event) { !e.Arrive? }

  /** Steps of Runner fibers, whose workers have odd names. */
  predicate Odd(e: R.Event) { e.Advance? && e.worker % 2 == 1 }

  lemma {:induction false} RunJoin(s: State, events: seq<Event>, more: seq<Event>)
    ensures Run(s, events + more) == Run(Run(s, events), more)
  {
    if more == [] {
      assert events + more == events;
    } else {
      assert (events + more)[..|events + more| - 1] == events + more[..|more| - 1];
      RunJoin(s, events, more[..|more| - 1]);
      hide Step;
    }
  }

  lemma {:induction false} ServerRuns(s: State, events: seq<S.Event>)
    requires forall i :: 0 <= i < |events| ==> Own(events[i])
    ensures Run(s, ServerEvents(events)) == s.(server := S.Run(s.server, events))
  {
    var all := ServerEvents(events);
    if events == [] {
      assert all == [];
    } else {
      var n := |events| - 1;
      assert all[..n] == ServerEvents(events[..n]) && all[n] == Server(events[n]);
      ServerRuns(s, events[..n]);
      ServerStep(Run(s, ServerEvents(events[..n])), events[n]);
      hide Step, S.Step;
    }
  }

  lemma ServerStep(s: State, e: S.Event)
    requires Own(e)
    ensures Step(s, Server(e)) == s.(server := S.Step(s.server, e))
  {
    hide S.Step;
  }

  lemma {:induction false} RunnerRuns(s: State, events: seq<R.Event>)
    requires forall i :: 0 <= i < |events| ==> Odd(events[i])
    ensures Run(s, FiberEvents(events)) == s.(runner := R.Run(s.runner, events))
  {
    var all := FiberEvents(events);
    if events == [] {
      assert all == [];
    } else {
      var n := |events| - 1;
      assert all[..n] == FiberEvents(events[..n]) && all[n] == Event.Runner(events[n]);
      RunnerRuns(s, events[..n]);
      RunnerStep(Run(s, FiberEvents(events[..n])), events[n]);
      hide Step, R.Step;
    }
  }

  lemma RunnerStep(s: State, e: R.Event)
    requires Odd(e)
    ensures Step(s, Event.Runner(e)) == s.(runner := R.Step(s.runner, e))
  {
    hide R.Step;
  }

  // ----- the parts of a call -----

  /** The dispatch leaves: it is admitted to the connection, and its frame handed to the peer. */
  function Leaving(s: State, request: S.Request, bytes: nat): seq<Event> {
    var id := s.server.nextRpc;
    ServerEvents([S.CallRpc(request, bytes), S.Admit(id), S.Send(id, true), S.Finish(id)])
  }

  /** The Runner receives it, starts its worker, and settles with what that makes of its exit. */
  function Working(f: nat, w: nat, exit: R.Exit): seq<R.Event> {
    RP.Times(R.Advance(f, w, R.Interrupted), 6)
    + ([R.Advance(w, w, exit)] + RP.Times(R.Advance(w, w, R.Interrupted), 4) + [R.Advance(f, w, R.Interrupted)])
  }

  /** The answer arrives and ends the call. */
  function Returning(id: nat, r: nat, answer: S.Answer, sendOk: bool): seq<Event> {
    [Server(S.Arrive(r, S.Answered(id, answer), sendOk))]
    + ServerEvents([S.AdvanceReceiver(r), S.AdvanceReceiver(r), S.Finish(id)])
  }

  lemma WorkingIsOdd(f: nat, w: nat, exit: R.Exit)
    requires w % 2 == 1
    ensures forall i :: 0 <= i < |Working(f, w, exit)| ==> Odd(Working(f, w, exit)[i])
  {
  }

  /** What the call needs: room on a ready connection, a Runner that can take the operation on and knows nothing of
      it, and free names. */
  ghost predicate CanRun(s: State, request: S.Request, bytes: nat, tool: R.Request, w: nat) {
    && request.Dispatch? && s.server.enrolled && s.server.books.phase == S.Ready && S.Valid(s.server)
    && SP.Short(s.server, request, bytes) && SP.Room(s.server, bytes)
    && s.runner.lock.None? && w % 2 == 1 && w !in s.runner.t.completions
    && RP.Takes(s.runner, request.intent, request.input, request.handshake, true)
    && RP.New(s.runner, request.intent.operationId, FiberOf(s.server.nextRpc), w)
    && R.RequestToolName(tool) == request.intent.tool
  }

  lemma Leaves(s: State, request: S.Request, bytes: nat, tool: R.Request, w: nat)
    requires CanRun(s, request, bytes, tool, w)
    ensures var id := s.server.nextRpc;
            var sent := Run(s, Leaving(s, request, bytes));
            && sent.runner == s.runner && S.Valid(sent.server) && sent.server.books.phase == S.Ready
            && sent.server.receivers == s.server.receivers && id in sent.server.handed
            && id in sent.server.calls && sent.server.calls[id] == S.Sent(request)
            && Flow.Has(sent.server.books.pending, id)
  {
    var id := s.server.nextRpc;
    var events := [S.CallRpc(request, bytes), S.Admit(id), S.Send(id, true), S.Finish(id)];
    hide S.Valid, S.Run, S.Step, Run, SP.Short, SP.Room, RP.Takes, RP.New, Flow.Has, R.RequestToolName;
    ServerRuns(s, events);
    SP.CallIsSentExactly(s.server, request, bytes, true);
    SR.RunKeeps(s.server, events);
    SP.SlotIsThere(s.server.books.pending, SP.SlotOf(id, request, bytes));
  }

  lemma Works(s: State, id: nat, request: S.Request, tool: R.Request, w: nat, exit: R.Exit)
    requires id in s.server.handed && id in s.server.calls && s.server.calls[id] == S.Sent(request) && request.Dispatch?
    requires s.runner.lock.None? && w % 2 == 1 && w !in s.runner.t.completions
    requires RP.Takes(s.runner, request.intent, request.input, request.handshake, true)
    requires RP.New(s.runner, request.intent.operationId, FiberOf(id), w)
    requires R.RequestToolName(tool) == request.intent.tool
    ensures var evidence := EvidenceFor(request.intent, RP.Verdict(request.intent.tool, exit));
            Run(s, [Receive(id, true, R.Prepared.Ready(tool))] + FiberEvents(Working(FiberOf(id), w, exit)))
            == s.(runner := RP.Answered(s.runner, FiberOf(id), w, request.intent, tool, evidence))
  {
    var f, intent := FiberOf(id), request.intent;
    var spawn := R.Spawn(f,
                         R.WorkspaceDispatch(intent, request.input, request.handshake, true, R.Prepared.Ready(tool)));
    var receive := Receive(id, true, R.Prepared.Ready(tool));
    assert Step(s, receive) == s.(runner := R.Step(s.runner, spawn)) by { hide R.Step; }
    hide *;
    WorkingIsOdd(f, w, exit);
    FirstThen(s, receive, FiberEvents(Working(f, w, exit)));
    RunnerRuns(Step(s, receive), Working(f, w, exit));
    RP.PreparedCallIsAnswered(s.runner, f, w, intent, request.input, request.handshake, true, tool, exit);
    SpawnThenWork(s.runner, spawn, f, w, exit);
  }

  lemma SpawnThenWork(s: R.State, spawn: R.Event, f: nat, w: nat, exit: R.Exit)
    ensures R.Run(s, ([spawn] + RP.Times(R.Advance(f, w, R.Interrupted), 6))
                     + ([R.Advance(w, w, exit)] + RP.Times(R.Advance(w, w, R.Interrupted), 4)
                        + [R.Advance(f, w, R.Interrupted)]))
         == R.Run(R.Step(s, spawn), Working(f, w, exit))
  {
    hide R.Step, RP.Times;
    assert ([spawn] + RP.Times(R.Advance(f, w, R.Interrupted), 6))
           + ([R.Advance(w, w, exit)] + RP.Times(R.Advance(w, w, R.Interrupted), 4) + [R.Advance(f, w, R.Interrupted)])
        == [spawn] + Working(f, w, exit);
    RP.RunJoin(s, [spawn], Working(f, w, exit));
    assert [spawn][..0] == [];
    assert R.Run(s, [spawn]) == R.Step(s, spawn);
  }

  lemma FirstThen(s: State, first: Event, more: seq<Event>)
    ensures Run(s, [first] + more) == Run(Step(s, first), more)
  {
    hide Step;
    RunJoin(s, [first], more);
    assert [first][..0] == [];
    assert Run(s, [first]) == Step(s, first);
  }

  lemma Returns(s: State, id: nat, r: nat, answer: S.Answer, sendOk: bool)
    requires S.Valid(s.server) && s.server.books.phase == S.Ready && r !in s.server.receivers
    requires id in s.server.calls && s.server.calls[id].Sent? && s.server.calls[id].request.Dispatch?
    requires Flow.Has(s.server.books.pending, id)
    requires FiberOf(id) in s.runner.tasks && AnswerOf(s.runner.tasks[FiberOf(id)]) == Some(answer)
    ensures var request := s.server.calls[id].request;
            var after := Run(s, Returning(id, r, answer, sendOk));
            && after.runner == s.runner && id in after.server.calls
            && after.server.calls[id] == S.Done(request, SP.Ending(request, answer))
  {
    hide *;
    var arrive := S.Arrive(r, S.Answered(id, answer), sendOk);
    var rest := [S.AdvanceReceiver(r), S.AdvanceReceiver(r), S.Finish(id)];
    ArrivesHonestly(s, id, r, answer, sendOk);
    ReturningIs(id, r, answer, sendOk);
    FirstThen(s, Server(arrive), ServerEvents(rest));
    RestIsOwn(id, r);
    ServerRuns(Step(s, Server(arrive)), rest);
    SP.AnswerEndsCall(s.server, id, r, answer, sendOk);
    ArriveThen(s.server, arrive, rest);
    assert [arrive] + rest == [arrive, S.AdvanceReceiver(r), S.AdvanceReceiver(r), S.Finish(id)];
  }

  /** How the end of the serving fiber ends the dispatch: with its evidence, with its error, or uncertain if it was
      stopped. */
  function Result(task: R.Task): Option<S.Resolution> {
    match task
    case Finished(Dispatched(_, evidence)) => Some(S.Resolved(S.DispatchResult(evidence)))
    case Finished(RejectReply(_, evidence)) => Some(S.Resolved(S.DispatchResult(evidence)))
    case Finished(Failed(error)) => Some(S.Refused(error))
    case Killed => Some(S.Refused(TransportError(AfterDispatch)))
    case _ => None
  }

  /** Every end of the serving fiber comes back: its answer may arrive, and ends the dispatch accordingly. */
  lemma EveryEndReturns(s: State, id: nat, r: nat, sendOk: bool)
    requires S.Valid(s.server) && s.server.books.phase == S.Ready && r !in s.server.receivers
    requires id in s.server.calls && s.server.calls[id].Sent? && s.server.calls[id].request.Dispatch?
    requires Flow.Has(s.server.books.pending, id)
    requires FiberOf(id) in s.runner.tasks && Result(s.runner.tasks[FiberOf(id)]).Some?
    ensures var request := s.server.calls[id].request;
            exists answer ::
              var after := Run(s, Returning(id, r, answer, sendOk));
              && after.runner == s.runner && id in after.server.calls
              && after.server.calls[id] == S.Done(request, Result(s.runner.tasks[FiberOf(id)]).value)
  {
    var task := s.runner.tasks[FiberOf(id)];
    var answer := AnswerOf(task).value;
    assert SP.Ending(s.server.calls[id].request, answer) == Result(task).value;
    hide *;
    Returns(s, id, r, answer, sendOk);
  }

  lemma ReturningIs(id: nat, r: nat, answer: S.Answer, sendOk: bool)
    ensures Returning(id, r, answer, sendOk)
         == [Server(S.Arrive(r, S.Answered(id, answer), sendOk))]
            + ServerEvents([S.AdvanceReceiver(r), S.AdvanceReceiver(r), S.Finish(id)])
  {
  }

  lemma RestIsOwn(id: nat, r: nat)
    ensures var rest := [S.AdvanceReceiver(r), S.AdvanceReceiver(r), S.Finish(id)];
            forall i :: 0 <= i < |rest| ==> Own(rest[i])
  {
  }

  /** The answer of the fiber that served the dispatch may arrive. */
  lemma ArrivesHonestly(s: State, id: nat, r: nat, answer: S.Answer, sendOk: bool)
    requires id in s.server.calls && s.server.calls[id].request.Dispatch? && FiberOf(id) in s.runner.tasks
    requires AnswerOf(s.runner.tasks[FiberOf(id)]) == Some(answer)
    ensures var arrive := S.Arrive(r, S.Answered(id, answer), sendOk);
            Step(s, Server(arrive)) == s.(server := S.Step(s.server, arrive))
  {
    hide S.Step;
  }

  lemma ArriveThen(s: S.State, first: S.Event, rest: seq<S.Event>)
    ensures S.Run(s, [first] + rest) == S.Run(S.Step(s, first), rest)
    decreases |rest|
  {
    hide S.Step;
    if rest == [] {
      assert [first] + rest == [first] && [first][..0] == [];
      assert S.Run(s, [first]) == S.Step(S.Run(s, []), first);
    } else {
      var n := |rest| - 1;
      assert ([first] + rest)[..|[first] + rest| - 1] == [first] + rest[..n];
      ArriveThen(s, first, rest[..n]);
    }
  }

  /** A tool call end to end: with room on the connection and a Runner that knows nothing of the operation, the dispatch
      starts its worker exactly once, and what the worker makes of its exit is journalled, is the Runner's receipt, and
      ends the call; unless it is a failure with too long a text. */
  lemma DispatchCompletes(s: State, request: S.Request, bytes: nat, tool: R.Request, w: nat, r: nat, exit: R.Exit,
                          sendOk: bool)
    requires CanRun(s, request, bytes, tool, w) && r !in s.server.receivers
    ensures var id, intent := s.server.nextRpc, request.intent;
            var evidence := EvidenceFor(intent, RP.Verdict(intent.tool, exit));
            var events := Leaving(s, request, bytes)
                          + ([Receive(id, true, R.Prepared.Ready(tool))] + FiberEvents(Working(FiberOf(id), w, exit)))
                          + Returning(id, r, S.Success(S.DispatchResult(evidence)), sendOk);
            var after := Run(s, events);
            && after.runner == RP.Answered(s.runner, FiberOf(id), w, intent, tool, evidence)
            && Ended(after, id)
            && Reply(after, id)
               == if Sizes.EvidenceBytes(evidence) <= MAX_RECEIPT_BYTES
                  then C.Journal(Canonical(intent.operationId, intent.binding, RP.Verdict(intent.tool, exit)))
                  else C.Fail(C.TransportKind, C.EvidenceTooLarge)
  {
    var id, intent := s.server.nextRpc, request.intent;
    var evidence := EvidenceFor(intent, RP.Verdict(intent.tool, exit));
    var receiving := [Receive(id, true, R.Prepared.Ready(tool))] + FiberEvents(Working(FiberOf(id), w, exit));
    var returning := Returning(id, r, S.Success(S.DispatchResult(evidence)), sendOk);
    var sent := Run(s, Leaving(s, request, bytes));
    var worked := Run(sent, receiving);
    var after := Run(worked, returning);
    NeedsOf(s, request, bytes, tool, w);
    hide *;
    RunJoin(s, Leaving(s, request, bytes) + receiving, returning);
    RunJoin(s, Leaving(s, request, bytes), receiving);
    Leaves(s, request, bytes, tool, w);
    Works(sent, id, request, tool, w, exit);
    AnsweredTask(s.runner, FiberOf(id), w, intent, tool, evidence);
    DispatchEnds(request, S.DispatchResult(evidence));
    Returns(worked, id, r, S.Success(S.DispatchResult(evidence)), sendOk);
    ReplyOf(after, id, request, RP.Verdict(intent.tool, exit));
  }

  lemma NeedsOf(s: State, request: S.Request, bytes: nat, tool: R.Request, w: nat)
    requires CanRun(s, request, bytes, tool, w)
    ensures request.Dispatch? && s.runner.lock.None? && w % 2 == 1 && w !in s.runner.t.completions
    ensures RP.Takes(s.runner, request.intent, request.input, request.handshake, true)
    ensures RP.New(s.runner, request.intent.operationId, FiberOf(s.server.nextRpc), w)
    ensures R.RequestToolName(tool) == request.intent.tool
  {
  }

  lemma DispatchEnds(request: S.Request, response: S.Response)
    requires request.Dispatch? && response.DispatchResult?
    ensures SP.Ending(request, S.Success(response)) == S.Resolved(response)
  {
  }

  lemma AnsweredTask(s: R.State, f: nat, w: nat, intent: Intent, tool: R.Request, evidence: ExecutorEvidence)
    requires RP.New(s, intent.operationId, f, w)
    ensures var after := RP.Answered(s, f, w, intent, tool, evidence);
            f in after.tasks && AnswerOf(after.tasks[f]) == Some(S.Success(S.DispatchResult(evidence)))
  {
  }

  lemma ReplyOf(s: State, id: nat, request: S.Request, outcome: Outcome)
    requires request.Dispatch? && id in s.server.calls
    requires var evidence := EvidenceFor(request.intent, outcome);
             s.server.calls[id] == S.Done(request, S.Resolved(S.DispatchResult(evidence)))
    ensures Ended(s, id)
    ensures var evidence := EvidenceFor(request.intent, outcome);
            Reply(s, id)
            == if Sizes.EvidenceBytes(evidence) <= MAX_RECEIPT_BYTES
               then C.Journal(Canonical(request.intent.operationId, request.intent.binding, outcome))
               else C.Fail(C.TransportKind, C.EvidenceTooLarge)
  {
    hide Sizes.EvidenceBytes, EvidenceFor, C.Accept;
    OwnEvidence(request.intent, outcome);
  }

  lemma OwnEvidence(intent: Intent, outcome: Outcome)
    ensures var evidence := EvidenceFor(intent, outcome);
            && ValidateEvidence(intent, evidence) == Ok(evidence)
            && C.Accept(intent, evidence)
               == if Sizes.EvidenceBytes(evidence) <= MAX_RECEIPT_BYTES
                  then C.Journal(Canonical(intent.operationId, intent.binding, outcome))
                  else C.Fail(C.TransportKind, C.EvidenceTooLarge)
  {
    hide Sizes.EvidenceBytes, MismatchReason;
    FencesAreIdentity(intent.binding, intent.binding, ToEvidence(intent.binding));
  }

  /** Once enrolled, a new connection to a new Runner has what a call needs: any dispatch of an operation under the
      enrolled, consistent binding, with the digest of its input and a request of its tool, within the bounds of the
      connection. */
  lemma EnrolledCanRun(limits: S.Limits, binding: Binding, request: S.Request, bytes: nat, tool: R.Request, w: nat)
    requires request.Dispatch? && request.intent.binding == binding && PlacementMatchesWorkspace(binding)
    requires request.handshake == ToEvidence(binding) && request.input == request.intent.inputDigest
    requires R.RequestToolName(tool) == request.intent.tool && w % 2 == 1
    requires limits.maxInFlightRpcs >= 1 && bytes <= 65536 && bytes <= limits.maxInFlightBytes
    ensures CanRun(Step(Init(limits, binding), Server(S.Arrive(0, S.Enroll(binding), true))), request, bytes, tool, w)
  {
    var enroll := S.Arrive(0, S.Enroll(binding), true);
    var start := Init(limits, binding);
    SR.InitValid(limits, binding);
    SP.EnrolsExactly(start.server, 0, S.Enroll(binding), true);
    S.StepKeeps(start.server, enroll);
    assert Step(start, Server(enroll)) == start.(server := S.Step(start.server, enroll)) by { hide S.Step, S.Valid; }
    var enrolled := Step(start, Server(enroll));
    assert enrolled.server.books.pending == [] && Flow.Bytes<S.Pending>([]) == 0;
    hide S.Step, S.Valid, Step, R.RequestToolName;
  }
}
