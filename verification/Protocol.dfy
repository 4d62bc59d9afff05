/** Coordinator, server and Runner together: one connection's multiplexer, the Runner behind it, and the
    answers that travel between them in any order, any number of times, or not at all. */
module Protocol {
  import opened Bindings
  import opened ExecutorContract
  import A = Admission
  import C = Coordinator
  import Flow
  import S = RpcServer
  import SR = ServerRuns
  import R = RunnerExecutor
  import RR = RunnerRuns
  import RF = RunnerFibers
  import RJ = RunnerRejects
  import RT = RunnerStarts
  import RZ = RunnerSizes
  import Json
  import Sizes

  datatype State = State(server: S.State, runner: R.State)

  /** Runner fibers that serve RPC `id`; all other fibers have odd names. */
  function FiberOf(id: nat): nat { 2 * id }

  datatype Event =
    | Server(e: S.Event)
    | Receive(id: nat, known: bool, prepared: R.Prepared)
    | Runner(step: R.Event)

  /** What the Runner answers when the fiber of a Dispatch ends as `task`
      (`handle` of packages/runner/src/transport.ts). */
  function AnswerOf(task: R.Task): Option<S.Answer> {
    match task
    case Finished(Dispatched(_, evidence)) => Some(S.Success(S.DispatchResult(evidence)))
    case Finished(RejectReply(_, evidence)) => Some(S.Success(S.DispatchResult(evidence)))
    case Finished(Failed(error)) => Some(S.Failure(error))
    case Finished(_) => Some(S.Failure(TransportError(AfterDispatch)))
    case Killed => Some(S.Failure(TransportError(AfterDispatch)))
    case _ => None
  }

  predicate IsDispatch(s: State, id: nat) {
    id in s.server.calls && s.server.calls[id].request.Dispatch?
  }

  /** An answer to a Dispatch comes from the fiber that served it; other traffic is unconstrained. */
  predicate Honest(s: State, id: nat, answer: S.Answer) {
    IsDispatch(s, id) ==> FiberOf(id) in s.runner.tasks && AnswerOf(s.runner.tasks[FiberOf(id)]) == Some(answer)
  }

  predicate Enabled(s: State, e: Event) {
    match e
    case Server(Arrive(_, frame, _)) =>
      frame.Answered? ==> frame.id in s.server.calls && Honest(s, frame.id, frame.answer)
    case Server(_) => true
    case Receive(id, _, _) => id in s.server.handed && IsDispatch(s, id)
    case Runner(Spawn(fiber, _)) => fiber % 2 == 1
    case Runner(Advance(_, worker, _)) => worker % 2 == 1
    case Runner(Kill(_)) => true
  }

  function Step(s: State, e: Event): State {
    if !Enabled(s, e) then s
    else match e
      case Server(e) => s.(server := S.Step(s.server, e))
      case Receive(id, known, prepared) =>
        var request := s.server.calls[id].request;
        s.(runner := R.Step(s.runner, R.Spawn(FiberOf(id),
             R.WorkspaceDispatch(request.intent, request.input, request.handshake, known, prepared))))
      case Runner(e) => s.(runner := R.Step(s.runner, e))
  }

  function Run(s: State, events: seq<Event>): State {
    if events == [] then s else Step(Run(s, events[..|events| - 1]), events[|events| - 1])
  }

  function Init(limits: S.Limits, binding: Binding): State {
    State(S.Init(limits, binding), R.Init(binding))
  }

  // ----- invariant -----

  /** The Runner serves only Dispatch frames that reached it. */
  ghost predicate ServedOk(s: State) {
    forall id: nat :: FiberOf(id) in s.runner.tasks ==> id in s.server.handed && IsDispatch(s, id)
  }

  /** Every answer ever heard for a Dispatch is the final word of its fiber. */
  ghost predicate HeardOk(s: State) {
    forall id, answer :: S.Answered(id, answer) in s.server.heard ==> id in s.server.calls && Honest(s, id, answer)
  }

  /** A fiber that serves a Dispatch works on exactly that intent. */
  ghost predicate IntentsOk(s: State) {
    forall id: nat :: FiberOf(id) in s.runner.tasks && IsDispatch(s, id) ==>
      WorksOn(s.runner.tasks[FiberOf(id)], s.server.calls[id].request.intent)
  }

  predicate WorksOn(task: R.Task, intent: Intent) {
    match task
    case WorkspaceDispatch(i, _, _, _, _) => i == intent
    case WorkspacePrepare(i, _, _) => i == intent
    case WorkspaceRegister(i, _, _) => i == intent
    case DispatchRead(i, _) => i == intent
    case DispatchLookup(i) => i == intent
    case DispatchLock(i, _) => i == intent
    case DispatchAwait(i, _) => i == intent
    case RejectRead(i, _) => i == intent
    case Settling(_, _, _, _, next) => next == R.RejectReturns(intent)
    case Finished(Dispatched(i, _)) => i == intent
    case Finished(RejectReply(i, _)) => i == intent
    case Finished(Failed(_)) => true
    case Finished(_) => false
    case Killed => true
    case _ => false
  }

  ghost predicate Valid(s: State) {
    S.Valid(s.server) && R.Valid(s.runner) && ServedOk(s) && HeardOk(s) && IntentsOk(s)
  }

  /** A fiber serving a Dispatch stays with its intent. */
  lemma FrontFiber(s: R.State, f: nat, worker: nat, exit: R.Exit, intent: Intent)
    requires f in s.tasks && WorksOn(s.tasks[f], intent) && f != worker
    requires s.tasks[f].WorkspaceDispatch? || s.tasks[f].WorkspacePrepare? || s.tasks[f].WorkspaceRegister?
    ensures f in R.AdvanceStep(s, f, worker, exit).tasks && WorksOn(R.AdvanceStep(s, f, worker, exit).tasks[f], intent)
  {
    hide SameBinding, SameEvidence, EvidenceFor, R.RegisterSection, R.SameIdentity, FenceFor;
  }

  /** The steps of a dispatch after its registration. */
  lemma DispatchFiber(s: R.State, f: nat, worker: nat, intent: Intent)
    requires f in s.tasks && WorksOn(s.tasks[f], intent) && f != worker
    ensures s.tasks[f].DispatchRead? ==>
              Stays(R.DispatchReadStep(s, f, s.tasks[f].intent, s.tasks[f].handshake), f, intent)
    ensures s.tasks[f].DispatchLookup? ==> Stays(R.DispatchLookupStep(s, f, s.tasks[f].intent), f, intent)
    ensures s.tasks[f].DispatchLock? ==>
              Stays(R.DispatchLockStep(s, f, s.tasks[f].intent, s.tasks[f].request, worker), f, intent)
  {
    hide SameBinding, SameEvidence, R.SameIdentity, FenceFor;
  }

  /** The steps of a rejection. */
  lemma RejectFiber(s: R.State, f: nat, intent: Intent)
    requires f in s.tasks && WorksOn(s.tasks[f], intent)
    ensures s.tasks[f].RejectRead? ==>
              Stays(R.RejectReadStep(s, f, s.tasks[f].intent, s.tasks[f].failure), f, intent)
    ensures s.tasks[f].Settling? ==> Stays(R.SettleStep(s, f, s.tasks[f]), f, intent)
  {
    hide SameBinding, SameEvidence, EvidenceFor, R.SameIdentity, FenceFor, R.Complete;
  }

  predicate Stays(s: R.State, f: nat, intent: Intent) {
    f in s.tasks && WorksOn(s.tasks[f], intent)
  }

  lemma BackFiber(s: R.State, f: nat, worker: nat, exit: R.Exit, intent: Intent)
    requires f in s.tasks && WorksOn(s.tasks[f], intent) && f != worker
    requires !(s.tasks[f].WorkspaceDispatch? || s.tasks[f].WorkspacePrepare? || s.tasks[f].WorkspaceRegister?)
    ensures Stays(R.AdvanceStep(s, f, worker, exit), f, intent)
  {
    hide R.DispatchReadStep, R.DispatchLookupStep, R.DispatchLockStep, R.RejectReadStep, R.SettleStep, R.RegisterStep,
      R.WorkspaceDispatchStep, R.CancelReceiptStep, EvidenceFor, R.OutcomeFromExit;
    DispatchFiber(s, f, worker, intent);
    RejectFiber(s, f, intent);
  }

  lemma RunnerStepTasks(s: R.State, e: R.Event, f: nat, intent: Intent)
    requires f in R.Step(s, e).tasks
    requires e.Spawn? ==> e.fiber != f
    requires e.Advance? ==> e.worker != f
    ensures f in s.tasks
    ensures WorksOn(s.tasks[f], intent) ==> WorksOn(R.Step(s, e).tasks[f], intent)
  {
    if e.Advance? && e.fiber in s.tasks {
      if e.fiber != f { RF.OtherFiber(s, e.fiber, e.worker, e.exit, f); }
      else if WorksOn(s.tasks[f], intent) {
        if s.tasks[f].WorkspaceDispatch? || s.tasks[f].WorkspacePrepare? || s.tasks[f].WorkspaceRegister? {
          FrontFiber(s, f, e.worker, e.exit, intent);
        } else {
          BackFiber(s, f, e.worker, e.exit, intent);
        }
      }
      hide R.AdvanceStep;
    }
  }

  /** The server moves and the Runner does not. */
  lemma ServerMoves(s: State, server: S.State)
    requires ServedOk(s) && HeardOk(s) && IntentsOk(s)
    requires SR.Extends(s.server, server)
    requires forall id, answer :: S.Answered(id, answer) in server.heard ==>
      S.Answered(id, answer) in s.server.heard || (id in s.server.calls && Honest(s, id, answer))
    requires forall id: nat :: FiberOf(id) in s.runner.tasks ==> id in s.server.calls
    ensures var s' := s.(server := server); ServedOk(s') && HeardOk(s') && IntentsOk(s')
  {
    var s' := s.(server := server);
    hide WorksOn, AnswerOf;
    assert forall id :: id in s.server.calls ==> (IsDispatch(s', id) <==> IsDispatch(s, id));
    hide SR.Extends;
  }

  lemma ServerStepKeeps(s: State, e: S.Event)
    requires Valid(s) && Enabled(s, Server(e))
    ensures Valid(Step(s, Server(e)))
  {
    var server := S.Step(s.server, e);
    SR.StepExtends(s.server, e);
    S.StepKeeps(s.server, e);
    ServerHistory(s.server, e);
    assert Step(s, Server(e)) == s.(server := server);
    hide S.Valid, R.Valid, S.Step, Step, SR.Extends, IntentsOk, WorksOn, AnswerOf;
    forall id: nat | FiberOf(id) in s.runner.tasks ensures id in s.server.calls {
      assert id in s.server.handed && IsDispatch(s, id);
    }
    ServerMoves(s, server);
  }

  /** The history sets grow only by the event's own frame and identity. */
  lemma ServerHistory(s: S.State, e: S.Event)
    ensures forall frame :: frame in S.Step(s, e).heard ==> frame in s.heard || (e.Arrive? && frame == e.frame)
    ensures forall id: nat :: id in S.Step(s, e).handed ==> id in s.handed || (e.Send? && id == e.id)
  {
    if e.Arrive? || e.AdvanceReceiver? || e.Shutdown? {
      SR.PeerLeavesCalls(s, e);
      hide S.Step;
    } else {
      hide S.RetireSection, S.AdmitSection, S.ArriveStep, S.ReceiverStep, S.ShutdownStep;
    }
  }

  /** Finished and killed fibers never change, so an honest answer stays honest. */
  lemma RunnerStepKeeps(s: State, e: R.Event, own: nat)
    requires Valid(s) && (e.Advance? ==> e.worker % 2 == 1)
    requires e.Spawn? ==>
               || e.fiber % 2 == 1
               || (e.fiber == FiberOf(own) && own in s.server.handed && IsDispatch(s, own)
                   && WorksOn(e.task, s.server.calls[own].request.intent))
    ensures Valid(s.(runner := R.Step(s.runner, e)))
  {
    hide R.Step, R.Valid, S.Valid, WorksOn;
    var s' := s.(runner := R.Step(s.runner, e));
    R.StepKeeps(s.runner, e);
    forall id: nat | FiberOf(id) in s'.runner.tasks
      ensures id in s.server.handed && IsDispatch(s, id)
      ensures WorksOn(s'.runner.tasks[FiberOf(id)], s.server.calls[id].request.intent)
    {
      ServedStep(s, e, own, id);
    }
    forall id, answer | S.Answered(id, answer) in s.server.heard
      ensures id in s.server.calls && Honest(s', id, answer)
    {
      assert Honest(s, id, answer);
      if IsDispatch(s, id) { assert R.Stopped(s.runner, FiberOf(id)); }
    }
  }

  lemma ServedStep(s: State, e: R.Event, own: nat, id: nat)
    requires ServedOk(s) && IntentsOk(s) && (e.Advance? ==> e.worker % 2 == 1)
    requires FiberOf(id) in R.Step(s.runner, e).tasks
    requires e.Spawn? ==>
               || e.fiber % 2 == 1
               || (e.fiber == FiberOf(own) && own in s.server.handed && IsDispatch(s, own)
                   && WorksOn(e.task, s.server.calls[own].request.intent))
    ensures id in s.server.handed && IsDispatch(s, id)
    ensures WorksOn(R.Step(s.runner, e).tasks[FiberOf(id)], s.server.calls[id].request.intent)
  {
    hide WorksOn;
    if e.Spawn? {
      if FiberOf(id) in s.runner.tasks { assert IsDispatch(s, id); }
      hide R.AdvanceStep;
    } else {
      if e.Advance? { assert e.worker != FiberOf(id); }
      hide R.Step;
      RunnerStepTasks(s.runner, e, FiberOf(id), if IsDispatch(s, id) then s.server.calls[id].request.intent
                                                else Intent("", "", "", s.runner.binding));
    }
  }

  lemma StepKeeps(s: State, e: Event)
    requires Valid(s)
    ensures Valid(Step(s, e))
  {
    if Enabled(s, e) {
      match e
      case Server(se) => ServerStepKeeps(s, se);
      case Receive(id, known, prepared) =>
        var request := s.server.calls[id].request;
        var task := R.WorkspaceDispatch(request.intent, request.input, request.handshake, known, prepared);
        RunnerStepKeeps(s, R.Spawn(FiberOf(id), task), id);
      case Runner(re) => RunnerStepKeeps(s, re, 0);
    }
  }

  ghost predicate Extends(s: State, s': State) {
    SR.Extends(s.server, s'.server) && R.Extends(s.runner, s'.runner)
  }

  lemma StepExtends(s: State, e: Event)
    requires Valid(s)
    ensures Extends(s, Step(s, e))
  {
    SR.RunKeeps(s.server, []);
    RR.RunKeeps(s.runner, []);
    if Enabled(s, e) {
      match e
      case Server(se) => SR.StepExtends(s.server, se);
      case Receive(id, known, prepared) =>
        var request := s.server.calls[id].request;
        var task := R.WorkspaceDispatch(request.intent, request.input, request.handshake, known, prepared);
        R.StepKeeps(s.runner, R.Spawn(FiberOf(id), task));
      case Runner(re) => R.StepKeeps(s.runner, re);
    }
  }

  lemma {:induction false} RunKeeps(s: State, events: seq<Event>)
    requires Valid(s)
    ensures Valid(Run(s, events)) && Extends(s, Run(s, events))
  {
    if events == [] {
      SR.RunKeeps(s.server, []);
      RR.RunKeeps(s.runner, []);
    } else {
      hide Valid, Step, R.Extends, SR.Extends;
      var mid := Run(s, events[..|events| - 1]);
      var end := Run(s, events);
      RunKeeps(s, events[..|events| - 1]);
      StepKeeps(mid, events[|events| - 1]);
      StepExtends(mid, events[|events| - 1]);
      SR.ExtendsTrans(s.server, mid.server, end.server);
      RR.ExtendsTrans(s.runner, mid.runner, end.runner);
    }
  }

  lemma InitValid(limits: S.Limits, binding: Binding)
    ensures Valid(Init(limits, binding))
  {
    SR.InitValid(limits, binding);
    RR.InitValid(binding);
  }

  // ----- what the coordinator may conclude -----

  /** `executor.dispatch` of the server around the RPC's resolution. */
  function ExecutorDispatch(intent: Intent, resolution: S.Resolution): Result<ExecutorEvidence> {
    match resolution
    case Refused(error) => Err(error)
    case Resolved(DispatchResult(evidence)) => ValidateEvidence(intent, evidence)
    case Resolved(_) => Err(FenceError(Field(Bindings.Protocol)))
  }

  predicate Ended(s: State, id: nat) {
    IsDispatch(s, id) && s.server.calls[id].Done?
  }

  function Reply(s: State, id: nat): C.Reply
    requires Ended(s, id)
  {
    var call := s.server.calls[id];
    C.AfterDispatchReply(call.request.intent, ExecutorDispatch(call.request.intent, call.result))
  }

  lemma DefiniteHere(s: State, id: nat, i: nat)
    requires S.ResultsOk(s.server) && R.StartsOk(s.runner) && ServedOk(s) && HeardOk(s)
    requires Ended(s, id) && Reply(s, id) == C.Fail(C.TransportKind, C.BeforeDispatchFailure)
    requires i < |s.runner.starts|
    ensures s.runner.starts[i].caller != FiberOf(id)
  {
    hide Sizes.EvidenceBytes;
    var call := s.server.calls[id];
    ValidationFences(call.request.intent, call.result);
    assert id in s.server.handed ==> S.Justified(s.server, id, call.request, call.result);
    hide ValidateEvidence, C.Accept;
    if FiberOf(id) in s.runner.tasks {
      assert S.Answered(id, S.Failure(TransportError(BeforeDispatch))) in s.server.heard;
      assert Honest(s, id, S.Failure(TransportError(BeforeDispatch)));
    }
  }

  /** Definite failure, end to end: when the coordinator reports that a dispatch failed before dispatch, that call
      has started nothing on the Runner and never will. */
  lemma BeforeDispatchStartedNothing(limits: S.Limits, binding: Binding, past: seq<Event>, future: seq<Event>,
                                     id: nat, i: nat)
    requires var s := Run(Init(limits, binding), past);
             Ended(s, id) && Reply(s, id) == C.Fail(C.TransportKind, C.BeforeDispatchFailure)
    requires i < |Run(Run(Init(limits, binding), past), future).runner.starts|
    ensures Run(Run(Init(limits, binding), past), future).runner.starts[i].caller != FiberOf(id)
  {
    InitValid(limits, binding);
    RunKeeps(Init(limits, binding), past);
    var s := Run(Init(limits, binding), past);
    RunKeeps(s, future);
    var later := Run(s, future);
    assert later.server.calls[id] == s.server.calls[id];
    assert S.ResultsOk(later.server) && R.StartsOk(later.runner) && ServedOk(later) && HeardOk(later);
    hide Valid, S.ResultsOk, R.StartsOk, ServedOk, HeardOk, Run, C.AfterDispatchReply, Extends;
    DefiniteHere(later, id, i);
  }

  /** Validation never turns evidence into a transport error. */
  lemma ValidationFences(intent: Intent, resolution: S.Resolution)
    ensures ExecutorDispatch(intent, resolution) == Err(TransportError(BeforeDispatch))
            ==> resolution == S.Refused(TransportError(BeforeDispatch))
  {
    match resolution
    case Resolved(DispatchResult(evidence)) => ValidEvidenceIsMadeForTheIntent(intent, evidence);
    case _ =>
  }

  /** Lost connection, end to end: once its frame was handed to the peer, a dispatch still unanswered when the
      connection is lost can only ever end as `Unknown`. */
  lemma LostConnectionIsUnknown(limits: S.Limits, binding: Binding, past: seq<Event>, future: seq<Event>,
                                id: nat, phase: Phase)
    requires var s := Run(Init(limits, binding), past);
             && IsDispatch(s, id) && s.server.calls[id].Sent? && s.server.books.phase != S.Closed
             && Flow.Has(s.server.books.pending, id)
    requires var s := Run(Init(limits, binding), past);
             Ended(Run(Step(s, Server(S.Shutdown(TransportError(phase)))), future), id)
    ensures var s := Run(Init(limits, binding), past);
            var intent := s.server.calls[id].request.intent;
            Reply(Run(Step(s, Server(S.Shutdown(TransportError(phase)))), future), id)
              == C.Journal(Canonical(intent.operationId, intent.binding, Unknown(C.LOST)))
  {
    InitValid(limits, binding);
    RunKeeps(Init(limits, binding), past);
    LostHere(Run(Init(limits, binding), past), future, id, phase);
  }

  lemma LostHere(s: State, future: seq<Event>, id: nat, phase: Phase)
    requires Valid(s) && IsDispatch(s, id) && s.server.calls[id].Sent? && s.server.books.phase != S.Closed
    requires Flow.Has(s.server.books.pending, id)
    requires Ended(Run(Step(s, Server(S.Shutdown(TransportError(phase)))), future), id)
    ensures var intent := s.server.calls[id].request.intent;
            Reply(Run(Step(s, Server(S.Shutdown(TransportError(phase)))), future), id)
              == C.Journal(Canonical(intent.operationId, intent.binding, Unknown(C.LOST)))
  {
    var lost := Step(s, Server(S.Shutdown(TransportError(phase))));
    LossRefuses(s, id, phase);
    hide *;
    RefusedEndsUnknown(lost, future, id);
  }

  lemma LossRefuses(s: State, id: nat, phase: Phase)
    requires Valid(s) && IsDispatch(s, id) && s.server.books.phase != S.Closed && Flow.Has(s.server.books.pending, id)
    ensures var lost := Step(s, Server(S.Shutdown(TransportError(phase))));
            && Valid(lost) && lost.server.calls == s.server.calls && id in lost.server.results
            && lost.server.results[id] == S.Refused(TransportError(AfterDispatch))
  {
    hide *;
    StepKeeps(s, Server(S.Shutdown(TransportError(phase))));
    LossStep(s, TransportError(phase));
    ShutdownRefuses(s.server, TransportError(phase), id);
    AfterDispatchPhase(s, id, phase);
  }

  lemma LossStep(s: State, error: ExecutorError)
    requires Valid(s)
    ensures S.Valid(s.server) && Step(s, Server(S.Shutdown(error))).server == S.ShutdownStep(s.server, error)
  {
    hide S.Valid, S.ShutdownStep, ServedOk, HeardOk, IntentsOk;
  }

  lemma AfterDispatchPhase(s: State, id: nat, phase: Phase)
    requires IsDispatch(s, id)
    ensures S.ShutdownError(TransportError(phase), S.RequestPhase(s.server.calls[id].request))
         == TransportError(AfterDispatch)
    ensures id in s.server.calls
  {
  }

  /** A call on the wire that the server has refused already ends as `Unknown`. */
  lemma RefusedEndsUnknown(lost: State, future: seq<Event>, id: nat)
    requires Valid(lost) && IsDispatch(lost, id) && lost.server.calls[id].Sent? && id in lost.server.results
    requires lost.server.results[id] == S.Refused(TransportError(AfterDispatch))
    requires Ended(Run(lost, future), id)
    ensures var intent := lost.server.calls[id].request.intent;
            Reply(Run(lost, future), id)
              == C.Journal(Canonical(intent.operationId, intent.binding, Unknown(C.LOST)))
  {
    RunKeeps(lost, future);
    hide Run, Valid;
  }

  lemma ShutdownRefuses(s: S.State, error: ExecutorError, id: nat)
    requires S.Valid(s) && s.books.phase != S.Closed && Flow.Has(s.books.pending, id)
    ensures var lost := S.ShutdownStep(s, error);
            && lost.calls == s.calls && id in s.calls && id in lost.results
            && lost.results[id] == S.Refused(S.ShutdownError(error, S.RequestPhase(s.calls[id].request)))
  {
    SR.ShutdownIsFinal(s, error, [], id);
    hide S.Valid, S.FailAll, S.CloseSection, S.ShutdownError;
  }

  /** A journalled success is the truth: when the coordinator reports that a dispatch completed, the Runner holds that
      very result as the receipt of the operation, for ever. */
  lemma CompletedIsTheReceipt(limits: S.Limits, binding: Binding, past: seq<Event>, future: seq<Event>, id: nat)
    requires var s := Run(Init(limits, binding), past);
             Ended(s, id) && Reply(s, id).Journal? && Reply(s, id).result.outcome.Completed?
    ensures var s := Run(Init(limits, binding), past);
            var result := Reply(s, id).result;
            var receipts := Run(s, future).runner.t.receipts;
            result.operationId in receipts && receipts[result.operationId].outcome == result.outcome
  {
    InitValid(limits, binding);
    RunKeeps(Init(limits, binding), past);
    var s := Run(Init(limits, binding), past);
    RunKeeps(s, future);
    assert S.IdsOk(s.server) && S.ResultsOk(s.server) && R.TasksOk(s.runner) && HeardOk(s) && IntentsOk(s);
    hide Valid, S.IdsOk, S.ResultsOk, R.TasksOk, HeardOk, IntentsOk, Run, Reply;
    CompletedHere(s, id);
  }

  lemma CompletedHere(s: State, id: nat)
    requires S.IdsOk(s.server) && S.ResultsOk(s.server) && R.TasksOk(s.runner) && HeardOk(s) && IntentsOk(s)
    requires Ended(s, id) && Reply(s, id).Journal? && Reply(s, id).result.outcome.Completed?
    ensures var result := Reply(s, id).result;
            result.operationId in s.runner.t.receipts
              && s.runner.t.receipts[result.operationId].outcome == result.outcome
  {
    hide Sizes.EvidenceBytes;
    var call := s.server.calls[id];
    var evidence := call.result.response.dispatched;
    assert S.OnTheWire(call);
    assert S.Justified(s.server, id, call.request, call.result);
    assert Honest(s, id, S.Success(S.DispatchResult(evidence)));
    var task := s.runner.tasks[FiberOf(id)];
    assert R.TaskOk(s.runner, FiberOf(id), task);
    assert WorksOn(task, call.request.intent);
    ValidEvidenceIsMadeForTheIntent(call.request.intent, evidence);
    hide S.ResultsOk, R.TasksOk, HeardOk, IntentsOk;
  }

  // ----- whatever is journalled -----

  /** What a run of the whole does to the Runner. */
  function RunnerEvents(s: State, events: seq<Event>): seq<R.Event> {
    if events == [] then []
    else
      var n := |events| - 1;
      var before, e := Run(s, events[..n]), events[n];
      RunnerEvents(s, events[..n])
      + (if !Enabled(before, e) then []
         else match e
           case Server(_) => []
           case Receive(id, known, prepared) =>
             var request := before.server.calls[id].request;
             [R.Spawn(FiberOf(id),
                      R.WorkspaceDispatch(request.intent, request.input, request.handshake, known, prepared))]
           case Runner(step) => [step])
  }

  lemma {:induction false} RunnerProjection(s: State, events: seq<Event>)
    ensures Run(s, events).runner == R.Run(s.runner, RunnerEvents(s, events))
  {
    if events == [] {
    } else {
      var n := |events| - 1;
      RunnerProjection(s, events[..n]);
      var past, before := RunnerEvents(s, events[..n]), Run(s, events[..n]);
      assert past + [] == past;
      match events[n]
      case Server(_) =>
      case Receive(id, known, prepared) =>
        if Enabled(before, events[n]) {
          var request := before.server.calls[id].request;
          RR.RunSnoc(s.runner, past, R.Spawn(FiberOf(id),
            R.WorkspaceDispatch(request.intent, request.input, request.handshake, known, prepared)));
        }
      case Runner(step) => RR.RunSnoc(s.runner, past, step);
      hide Enabled, R.Step, R.Run, S.Step;
    }
  }

  /** At most once, end to end: whatever is sent, lost or repeated, the Runner starts no operation more than twice, and
      none more than once if and only if no dispatch that reaches it finds `active` empty of an operation whose receipt
      was recorded while it was in flight. */
  lemma StartsEndToEnd(limits: S.Limits, binding: Binding, events: seq<Event>)
    ensures var runner := Run(Init(limits, binding), events).runner;
            && RT.AtMostTwice(runner)
            && (RR.AtMostOnce(runner) <==>
                  !RT.EverForksSettled(R.Init(binding), RunnerEvents(Init(limits, binding), events)))
  {
    var whole := RunnerEvents(Init(limits, binding), events);
    assert Init(limits, binding).runner == R.Init(binding);
    hide *;
    RunnerProjection(Init(limits, binding), events);
    RT.NeverThrice(binding, whole);
    RT.AtMostOnceByGuards(binding, whole);
  }

  /** The fiber that served the dispatch has ended with the evidence journalled. */
  lemma AnsweredBy(s: State, id: nat, evidence: ExecutorEvidence)
    requires S.IdsOk(s.server) && S.ResultsOk(s.server) && HeardOk(s) && IntentsOk(s)
    requires Ended(s, id) && s.server.calls[id].result == S.Resolved(S.DispatchResult(evidence))
    ensures FiberOf(id) in s.runner.tasks
    ensures var task, intent := s.runner.tasks[FiberOf(id)], s.server.calls[id].request.intent;
            task == R.Finished(R.Dispatched(intent, evidence)) || task == R.Finished(R.RejectReply(intent, evidence))
  {
    var call := s.server.calls[id];
    assert S.OnTheWire(call);
    assert S.Justified(s.server, id, call.request, call.result);
    assert Honest(s, id, S.Success(S.DispatchResult(evidence)));
    assert WorksOn(s.runner.tasks[FiberOf(id)], call.request.intent);
    hide S.ResultsOk, HeardOk, IntentsOk;
  }

  /** What is journalled from an answer, exactly, in every run and ever after: it is the Runner's receipt if and
      only if the answer is not a rejection that another receipt had overtaken; only a DomainFailure can differ. */
  lemma JournalIsTheReceiptExactly(limits: S.Limits, binding: Binding, events: seq<Event>, id: nat,
                                   evidence: ExecutorEvidence)
    requires var s := Run(Init(limits, binding), events);
             && Ended(s, id) && s.server.calls[id].result == S.Resolved(S.DispatchResult(evidence))
             && Reply(s, id).Journal?
    ensures var s := Run(Init(limits, binding), events);
            var result := Reply(s, id).result;
            var overtaken := RJ.EverOvertaken(R.Init(binding), RunnerEvents(Init(limits, binding), events),
                                              FiberOf(id));
            && result.outcome == evidence.outcome && result.operationId == evidence.operationId
            && result.operationId in s.runner.t.receipts
            && (s.runner.t.receipts[result.operationId] != evidence <==> overtaken)
            && (overtaken ==> result.outcome.DomainFailure?)
  {
    var whole := RunnerEvents(Init(limits, binding), events);
    RJ.RunOk(binding, whole, FiberOf(id));
    RunnerProjection(Init(limits, binding), events);
    InitValid(limits, binding);
    RunKeeps(Init(limits, binding), events);
    ValidParts(Run(Init(limits, binding), events));
    assert Init(limits, binding).runner == R.Init(binding);
    hide *;
    JournalHere(Run(Init(limits, binding), events), id, evidence,
                RJ.EverOvertaken(R.Init(binding), whole, FiberOf(id)));
  }

  lemma ValidParts(s: State)
    requires Valid(s)
    ensures S.IdsOk(s.server) && S.ResultsOk(s.server) && HeardOk(s) && IntentsOk(s) && R.TasksOk(s.runner)
            && R.ReceiptsOk(s.runner.t)
  {
    hide S.IdsOk, S.ResultsOk, HeardOk, IntentsOk, ServedOk;
  }

  lemma JournalHere(s: State, id: nat, evidence: ExecutorEvidence, overtaken: bool)
    requires S.IdsOk(s.server) && S.ResultsOk(s.server) && HeardOk(s) && IntentsOk(s)
    requires R.TasksOk(s.runner) && RJ.RejectOk(s.runner, FiberOf(id), overtaken)
    requires Ended(s, id) && s.server.calls[id].result == S.Resolved(S.DispatchResult(evidence))
    requires Reply(s, id).Journal?
    ensures var result := Reply(s, id).result;
            && result.outcome == evidence.outcome && result.operationId == evidence.operationId
            && result.operationId in s.runner.t.receipts
            && (s.runner.t.receipts[result.operationId] != evidence <==> overtaken)
            && (overtaken ==> result.outcome.DomainFailure?)
  {
    AnsweredBy(s, id, evidence);
    var intent := s.server.calls[id].request.intent;
    FiberTaskOk(s.runner, FiberOf(id));
    JournalledFrom(intent, evidence);
    hide S.IdsOk, S.ResultsOk, HeardOk, IntentsOk, R.TasksOk, C.AfterDispatchReply;
  }

  lemma FiberTaskOk(s: R.State, f: nat)
    requires R.TasksOk(s) && f in s.tasks
    ensures R.TaskOk(s, f, s.tasks[f])
  {
  }

  lemma JournalledFrom(intent: Intent, evidence: ExecutorEvidence)
    ensures var exit := ExecutorDispatch(intent, S.Resolved(S.DispatchResult(evidence)));
            var reply := C.AfterDispatchReply(intent, exit);
            reply.Journal? ==> reply.result == Canonical(intent.operationId, intent.binding, evidence.outcome)
                               && evidence.operationId == intent.operationId
  {
    hide Sizes.EvidenceBytes;
    ValidEvidenceIsMadeForTheIntent(intent, evidence);
  }

  /** Every answer is its intent's own, so the size alone decides; and a result always fits. */
  lemma AnswerFits(s: State, id: nat, evidence: ExecutorEvidence)
    requires S.IdsOk(s.server) && S.ResultsOk(s.server) && HeardOk(s) && IntentsOk(s)
    requires R.TasksOk(s.runner) && R.ReceiptsOk(s.runner.t) && RZ.AllSmall(s.runner)
    requires Ended(s, id) && s.server.calls[id].result == S.Resolved(S.DispatchResult(evidence))
    ensures var intent := s.server.calls[id].request.intent;
            && evidence == EvidenceFor(intent, evidence.outcome).(source := evidence.source)
            && RZ.Small(evidence)
  {
    AnsweredBy(s, id, evidence);
    var intent := s.server.calls[id].request.intent;
    FiberTaskOk(s.runner, FiberOf(id));
    ValidEvidenceIsMadeForTheIntent(intent, evidence);
    FencesAreIdentity(intent.binding, intent.binding, evidence.binding);
    assert RZ.TaskSmall(s.runner.tasks[FiberOf(id)]);
    hide S.IdsOk, S.ResultsOk, HeardOk, IntentsOk, R.TasksOk, RZ.AllSmall, RZ.Small, SameEvidence;
  }

  /** Journalling, exactly, in every run: a dispatch that got an answer is journalled if and only if the evidence is
      within the receipt bound; and a result always is. */
  lemma AnswersAreJournalledExactly(limits: S.Limits, binding: Binding, events: seq<Event>, id: nat,
                                    evidence: ExecutorEvidence)
    requires var s := Run(Init(limits, binding), events);
             && Ended(s, id) && s.server.calls[id].result == S.Resolved(S.DispatchResult(evidence))
             && Sizes.IntentSchema(s.server.calls[id].request.intent)
    ensures var s := Run(Init(limits, binding), events);
            && (Reply(s, id).Journal? <==> Sizes.EvidenceBytes(evidence) <= MAX_RECEIPT_BYTES)
            && (evidence.outcome.Completed? ==> Reply(s, id).Journal?)
  {
    var whole := RunnerEvents(Init(limits, binding), events);
    RZ.RunSmall(binding, whole);
    RunnerProjection(Init(limits, binding), events);
    InitValid(limits, binding);
    RunKeeps(Init(limits, binding), events);
    ValidParts(Run(Init(limits, binding), events));
    assert Init(limits, binding).runner == R.Init(binding);
    hide *;
    FitsHere(Run(Init(limits, binding), events), id, evidence);
  }

  lemma FitsHere(s: State, id: nat, evidence: ExecutorEvidence)
    requires S.IdsOk(s.server) && S.ResultsOk(s.server) && HeardOk(s) && IntentsOk(s)
    requires R.TasksOk(s.runner) && R.ReceiptsOk(s.runner.t) && RZ.AllSmall(s.runner)
    requires Ended(s, id) && s.server.calls[id].result == S.Resolved(S.DispatchResult(evidence))
    requires Sizes.IntentSchema(s.server.calls[id].request.intent)
    ensures Reply(s, id).Journal? <==> Sizes.EvidenceBytes(evidence) <= MAX_RECEIPT_BYTES
    ensures evidence.outcome.Completed? ==> Reply(s, id).Journal?
  {
    hide S.IdsOk, S.ResultsOk, HeardOk, IntentsOk, R.TasksOk, R.ReceiptsOk, RZ.AllSmall, Sizes.IntentSchema,
      Sizes.EvidenceBytes, Sizes.Overhead, Json.Bytes;
    var intent := s.server.calls[id].request.intent;
    AnswerFits(s, id, evidence);
    C.AcceptExactly(intent, evidence);
    ValidEvidenceIsMadeForTheIntent(intent, evidence);
    if evidence.outcome.Completed? {
      Sizes.OverheadBounds(intent, evidence);
      Sizes.PayloadBytes(evidence, evidence.outcome.result);
      assert evidence.(outcome := Completed(evidence.outcome.result)) == evidence;
    }
    hide EvidenceFor, C.Accept, ValidateEvidence;
  }
}
