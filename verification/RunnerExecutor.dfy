/** The Runner executor (packages/runner/src/executor.ts) behind the workspace front
    (packages/runner/src/workspace.ts), as concurrent fibers over three shared maps and one lock. */
module RunnerExecutor {
  import opened Bindings
  import opened ExecutorContract
  import opened Json

  const MAX_OUTPUT_BYTES := 16384

  datatype ToolTag = Bash | Read | Edit | Grep | WebSearch

  /** A prepared request; its JSON identity is its value. */
  datatype Request = Request(tag: ToolTag, payload: string)

  function RequestToolName(request: Request): string {
    match request.tag
    case Bash => "bash"
    case Read => "read"
    case Edit => "edit"
    case Grep => "grep"
    case WebSearch => "web_search"
  }

  /** How a worker ends; values and failures are JSON texts. */
  datatype Exit = Success(value: string) | Failure(failure: string) | Interrupted

  /** `nativeToolFailure` of a known outcome, with the category given. */
  function ToolFailure(tool: string, message: string, category: string): string {
    Object([Member("_tag", Quote("ToolError")), Member("tool", Quote(tool)), Member("message", Quote(message)),
            Member("kind", Quote("operation")), Member("category", Quote(category)), Member("outcome", Quote("known")),
            Member("recovery", Quote("after_change")),
            Member("nextAction", Quote("Correct the provider or workspace condition and retry"))])
  }

  function OutcomeFromExit(intent: Intent, tool: string, exit: Exit): ExecutorEvidence {
    match exit
    case Success(value) =>
      if Bytes(value) > MAX_OUTPUT_BYTES
      then EvidenceFor(intent, DomainFailure(ToolFailure(tool, tool + " result exceeds the retained output limit",
                                                         "operation")))
      else EvidenceFor(intent, Completed(value))
    case Failure(failure) => EvidenceFor(intent, DomainFailure(failure))
    case Interrupted =>
      EvidenceFor(intent, Unknown("Runner operation was interrupted before a canonical result was retained"))
  }

  // ----- the shared maps -----

  datatype Registered = Registered(intent: Intent, request: Request)

  /** `completion` names the Deferred made for the operation; `fiber` its worker. */
  datatype Active = Active(completion: nat, intent: Intent, fiber: nat)

  datatype Tables = Tables(
    requests: map<string, Registered>,
    receipts: map<string, ExecutorEvidence>,
    active: map<string, Active>,
    completions: map<nat, ExecutorEvidence>)

  /** `register`, inside the lock: idempotent for the same digest and request, otherwise refused. */
  function RegisterSection(t: Tables, intent: Intent, request: Request): Option<Tables> {
    if intent.operationId in t.requests then
      var existing := t.requests[intent.operationId];
      if existing.intent.inputDigest == intent.inputDigest && existing.request == request then Some(t) else None
    else Some(t.(requests := t.requests[intent.operationId := Registered(intent, request)]))
  }

  /** First completion of a Deferred wins. */
  function Complete(t: Tables, completion: Option<nat>, evidence: ExecutorEvidence): Tables {
    if completion.None? || completion.value in t.completions then t
    else t.(completions := t.completions[completion.value := evidence])
  }

  /** `settle`, the whole critical section at once. */
  function SettleSection(t: Tables, id: string, evidence: ExecutorEvidence, completion: Option<nat>): Tables {
    if id in t.receipts then t
    else Complete(t.(receipts := t.receipts[id := evidence], active := t.active - {id}), completion, evidence)
  }

  // ----- fibers -----

  datatype Prepared = Unprepared(failure: string) | Ready(request: Request)

  datatype Stage = WaitLock | Locked | Recorded | Removed

  datatype Then = WorkerEnds | RejectReturns(intent: Intent) | CancelReturns

  datatype Reply =
    | Dispatched(intent: Intent, evidence: ExecutorEvidence)
    | RejectReply(intent: Intent, evidence: ExecutorEvidence)
    | Failed(error: ExecutorError)
    | Cancelled
    | AlreadyTerminal(result: Canonical)
    | Ended

  datatype Task =
    | WorkspaceDispatch(intent: Intent, digest: string, handshake: Evidence, known: bool, prepared: Prepared)
    | WorkspacePrepare(intent: Intent, handshake: Evidence, prepared: Prepared)
    | WorkspaceRegister(intent: Intent, handshake: Evidence, request: Request)
    | DispatchRead(intent: Intent, handshake: Evidence)
    | DispatchLookup(intent: Intent)
    | DispatchLock(intent: Intent, request: Request)
    | DispatchAwait(intent: Intent, completion: nat)
    | RejectRead(intent: Intent, failure: string)
    | CancelRead(operationId: string)
    | CancelInterrupt(operationId: string, target: Active)
    | CancelReceipt(operationId: string)
    | Running(intent: Intent, request: Request, completion: nat)
    | Settling(operationId: string, evidence: ExecutorEvidence, deferred: Option<nat>, stage: Stage, next: Then)
    | Finished(reply: Reply)
    | Killed

  datatype Start = Start(caller: nat, operationId: string)

  /** `owners` and `starts` record history: the intent each Deferred was made for, and every fork. */
  datatype State = State(
    binding: Binding,
    t: Tables,
    lock: Option<nat>,
    tasks: map<nat, Task>,
    owners: map<nat, Intent>,
    starts: seq<Start>)

  datatype Event =
    | Spawn(fiber: nat, task: Task)
    | Advance(fiber: nat, worker: nat, exit: Exit)
    | Kill(fiber: nat)

  function Init(binding: Binding): State {
    State(binding, Tables(map[], map[], map[], map[]), None, map[], map[], [])
  }

  function Go(s: State, f: nat, task: Task): State {
    s.(tasks := s.tasks[f := task])
  }

  function Fail(s: State, f: nat, error: ExecutorError): State {
    Go(s, f, Finished(Failed(error)))
  }

  predicate SameIdentity(intent: Intent, evidence: ExecutorEvidence) {
    evidence.inputDigest == intent.inputDigest && SameEvidence(intent.binding, evidence.binding)
  }

  function WorkspaceDispatchStep(s: State, f: nat, task: Task): State
    requires task.WorkspaceDispatch?
  {
    var intent := task.intent;
    if !SameBinding(s.binding, intent.binding) then Fail(s, f, FenceFor(s.binding, ToEvidence(intent.binding)))
    else if !SameEvidence(s.binding, task.handshake) then Fail(s, f, FenceFor(s.binding, task.handshake))
    else if task.digest != intent.inputDigest then Fail(s, f, FenceError(InputReason))
    else if !task.known then Fail(s, f, FenceError(OperationReason))
    else if intent.operationId in s.t.receipts then
      var cached := s.t.receipts[intent.operationId];
      if cached.operationId != intent.operationId || !SameIdentity(intent, cached)
      then Fail(s, f, FenceError(OperationReason))
      else Go(s, f, Finished(Dispatched(intent, cached)))
    else Go(s, f, WorkspacePrepare(intent, task.handshake, task.prepared))
  }

  function RegisterStep(s: State, f: nat, task: Task): State
    requires task.WorkspaceRegister?
  {
    if RequestToolName(task.request) != task.intent.tool then Fail(s, f, FenceError(OperationReason))
    else if s.lock.Some? then s
    else match RegisterSection(s.t, task.intent, task.request)
      case None => Fail(s, f, FenceError(OperationReason))
      case Some(t) => Go(s.(t := t), f, DispatchRead(task.intent, task.handshake))
  }

  /** The receipts map is read here, outside the lock. */
  function DispatchReadStep(s: State, f: nat, intent: Intent, handshake: Evidence): State {
    if !SameEvidence(s.binding, handshake) || !SameBinding(s.binding, intent.binding)
    then Fail(s, f, FenceError(Field(Generation)))
    else if intent.operationId in s.t.receipts then
      var cached := s.t.receipts[intent.operationId];
      if !SameIdentity(intent, cached) then Fail(s, f, FenceError(OperationReason))
      else Go(s, f, Finished(Dispatched(intent, cached)))
    else Go(s, f, DispatchLookup(intent))
  }

  function DispatchLookupStep(s: State, f: nat, intent: Intent): State {
    if intent.operationId !in s.t.requests then Fail(s, f, TransportError(AfterDispatch))
    else
      var registered := s.t.requests[intent.operationId];
      if registered.intent.inputDigest != intent.inputDigest || registered.intent.tool != intent.tool
      then Fail(s, f, TransportError(BeforeDispatch))
      else Go(s, f, DispatchLock(intent, registered.request))
  }

  /** Inside the lock: join the operation in flight, or fork a worker for it. Only `active` is looked at. */
  function DispatchLockStep(s: State, f: nat, intent: Intent, request: Request, worker: nat): State {
    var id := intent.operationId;
    if s.lock.Some? then s
    else if id in s.t.active then Go(s, f, DispatchAwait(intent, s.t.active[id].completion))
    else if worker in s.tasks || worker in s.owners then s
    else s.(t := s.t.(active := s.t.active[id := Active(worker, intent, worker)]),
            tasks := s.tasks[f := DispatchAwait(intent, worker)][worker := Running(intent, request, worker)],
            owners := s.owners[worker := intent],
            starts := s.starts + [Start(f, id)])
  }

  function SettleEnd(task: Task): Task
    requires task.Settling?
  {
    match task.next
    case WorkerEnds => Finished(Ended)
    case RejectReturns(intent) => Finished(RejectReply(intent, task.evidence))
    case CancelReturns => Finished(Cancelled)
  }

  /** `settle`, one shared-memory access at a time. */
  function SettleStep(s: State, f: nat, task: Task): State
    requires task.Settling?
  {
    var id := task.operationId;
    match task.stage
    case WaitLock => if s.lock.Some? then s else Go(s.(lock := Some(f)), f, task.(stage := Locked))
    case Locked =>
      if id in s.t.receipts then Go(s.(lock := None), f, SettleEnd(task))
      else Go(s.(t := s.t.(receipts := s.t.receipts[id := task.evidence])), f, task.(stage := Recorded))
    case Recorded => Go(s.(t := s.t.(active := s.t.active - {id})), f, task.(stage := Removed))
    case Removed => Go(s.(lock := None, t := Complete(s.t, task.deferred, task.evidence)), f, SettleEnd(task))
  }

  function RejectReadStep(s: State, f: nat, intent: Intent, failure: string): State {
    if !SameBinding(s.binding, intent.binding) then Fail(s, f, FenceError(Field(Generation)))
    else if intent.operationId in s.t.receipts then
      var cached := s.t.receipts[intent.operationId];
      if !SameIdentity(intent, cached) then Fail(s, f, FenceError(OperationReason))
      else Go(s, f, Finished(RejectReply(intent, cached)))
    else Go(s, f, Settling(intent.operationId, EvidenceFor(intent, DomainFailure(failure)), None, WaitLock,
                           RejectReturns(intent)))
  }

  predicate Stopped(s: State, f: nat) {
    f in s.tasks && (s.tasks[f].Finished? || s.tasks[f].Killed?)
  }

  const CANCEL_REASON := "Runner operation was cancelled before a canonical result was retained"

  function CancelReceiptStep(s: State, f: nat, id: string): State {
    if id !in s.t.receipts then Fail(s, f, FenceError(OperationReason))
    else
      var result := s.t.receipts[id];
      var original := if id in s.t.requests then s.t.requests[id].intent
                      else Intent(id, "unknown", result.inputDigest, s.binding);
      Go(s, f, Finished(AlreadyTerminal(CanonicalFromEvidence(original, result))))
  }

  function AdvanceStep(s: State, f: nat, worker: nat, exit: Exit): State
    requires f in s.tasks
  {
    var task := s.tasks[f];
    match task
    case WorkspaceDispatch(_, _, _, _, _) => WorkspaceDispatchStep(s, f, task)
    case WorkspacePrepare(intent, handshake, Unprepared(failure)) => Go(s, f, RejectRead(intent, failure))
    case WorkspacePrepare(intent, handshake, Ready(request)) => Go(s, f, WorkspaceRegister(intent, handshake, request))
    case WorkspaceRegister(_, _, _) => RegisterStep(s, f, task)
    case DispatchRead(intent, handshake) => DispatchReadStep(s, f, intent, handshake)
    case DispatchLookup(intent) => DispatchLookupStep(s, f, intent)
    case DispatchLock(intent, request) => DispatchLockStep(s, f, intent, request, worker)
    case DispatchAwait(intent, c) =>
      if c in s.t.completions then Go(s, f, Finished(Dispatched(intent, s.t.completions[c]))) else s
    case RejectRead(intent, failure) => RejectReadStep(s, f, intent, failure)
    case CancelRead(id) =>
      Go(s, f, if id in s.t.active then CancelInterrupt(id, s.t.active[id]) else CancelReceipt(id))
    case CancelInterrupt(id, target) =>
      if !Stopped(s, target.fiber) then s
      else Go(s, f, Settling(id, EvidenceFor(target.intent, Unknown(CANCEL_REASON)), Some(target.completion), WaitLock,
                             CancelReturns))
    case CancelReceipt(id) => CancelReceiptStep(s, f, id)
    case Running(intent, request, c) =>
      Go(s, f, Settling(intent.operationId, OutcomeFromExit(intent, RequestToolName(request), exit), Some(c), WaitLock,
                        WorkerEnds))
    case Settling(_, _, _, _, _) => SettleStep(s, f, task)
    case Finished(_) => s
    case Killed => s
  }

  /** Calls arrive as fresh fibers; a fiber may be interrupted anywhere and then releases the lock. */
  function Step(s: State, e: Event): State {
    match e
    case Spawn(f, task) =>
      if f in s.tasks || !(task.WorkspaceDispatch? || task.DispatchRead? || task.RejectRead? || task.CancelRead?
                           || task.WorkspaceRegister?)
      then s else Go(s, f, task)
    case Advance(f, worker, exit) => if f in s.tasks then AdvanceStep(s, f, worker, exit) else s
    case Kill(f) =>
      if f !in s.tasks || Stopped(s, f) then s
      else Go(s.(lock := if s.lock == Some(f) then None else s.lock), f, Killed)
  }

  function Run(s: State, events: seq<Event>): State {
    if events == [] then s else Step(Run(s, events[..|events| - 1]), events[|events| - 1])
  }

  // ----- invariant -----

  /** The evidence was made for this very intent. */
  predicate MadeFor(intent: Intent, evidence: ExecutorEvidence) {
    evidence == EvidenceFor(intent, evidence.outcome)
  }

  predicate SameOperation(a: Intent, b: Intent) {
    a.operationId == b.operationId && a.inputDigest == b.inputDigest && a.binding == b.binding
  }

  ghost predicate ReceiptsOk(t: Tables) {
    && (forall id :: id in t.receipts ==> t.receipts[id].operationId == id)
    && (forall id :: id in t.requests ==> t.requests[id].intent.operationId == id)
  }

  /** A completed Deferred holds the receipt of the operation it was made for. */
  ghost predicate CompletionsOk(t: Tables, owners: map<nat, Intent>) {
    forall c :: c in t.completions ==>
      && c in owners && MadeFor(owners[c], t.completions[c])
      && owners[c].operationId in t.receipts
      && t.receipts[owners[c].operationId] == t.completions[c]
  }

  ghost predicate OwnersOk(s: State) {
    forall c :: c in s.owners ==>
      && s.owners[c].binding == s.binding
      && s.owners[c].operationId in s.t.requests
      && s.t.requests[s.owners[c].operationId].intent.inputDigest == s.owners[c].inputDigest
  }

  ghost predicate ActivesOk(s: State) {
    forall id :: id in s.t.active ==> ActiveOk(s, id, s.t.active[id])
  }

  ghost predicate ActiveOk(s: State, id: string, op: Active) {
    op.completion in s.owners && s.owners[op.completion] == op.intent && op.intent.operationId == id
  }

  ghost predicate TaskOk(s: State, f: nat, task: Task) {
    match task
    case DispatchLookup(intent) => intent.binding == s.binding
    case DispatchLock(intent, _) =>
      && intent.binding == s.binding && intent.operationId in s.t.requests
      && s.t.requests[intent.operationId].intent.inputDigest == intent.inputDigest
    case DispatchAwait(intent, c) => c in s.owners && SameOperation(intent, s.owners[c])
    case Running(intent, _, c) => c in s.owners && s.owners[c] == intent
    case CancelInterrupt(id, target) => ActiveOk(s, id, target)
    case Settling(id, evidence, deferred, stage, next) =>
      && evidence.operationId == id
      && (deferred.Some? ==> deferred.value in s.owners && MadeFor(s.owners[deferred.value], evidence))
      && (stage != WaitLock <==> s.lock == Some(f))
      && ((stage == Recorded || stage == Removed) ==> id in s.t.receipts && s.t.receipts[id] == evidence)
      && (next.RejectReturns? ==> MadeFor(next.intent, evidence) && evidence.outcome.DomainFailure?)
    case Finished(Dispatched(intent, evidence)) =>
      && intent.operationId in s.t.receipts && s.t.receipts[intent.operationId] == evidence
      && SameIdentity(intent, evidence)
    case Finished(RejectReply(intent, evidence)) =>
      && intent.operationId == evidence.operationId
      && (evidence.outcome.DomainFailure?
          || (intent.operationId in s.t.receipts && s.t.receipts[intent.operationId] == evidence))
    case _ => true
  }

  /** Every fork is still answered for: its operation is in flight or receipted, and the forking call is
      waiting, answered, or gone. */
  ghost predicate StartsOk(s: State) {
    forall i :: 0 <= i < |s.starts| ==>
      && (s.starts[i].operationId in s.t.active || s.starts[i].operationId in s.t.receipts)
      && s.starts[i].caller in s.tasks
      && (var task := s.tasks[s.starts[i].caller];
          task.DispatchAwait? || task.Killed? || (task.Finished? && task.reply.Dispatched?))
  }

  ghost predicate TasksOk(s: State) {
    && (forall f :: f in s.tasks ==> TaskOk(s, f, s.tasks[f]))
    && (s.lock.Some? ==> s.lock.value in s.tasks && s.tasks[s.lock.value].Settling?)
  }

  ghost predicate Valid(s: State) {
    ReceiptsOk(s.t) && CompletionsOk(s.t, s.owners) && OwnersOk(s) && ActivesOk(s) && TasksOk(s) && StartsOk(s)
  }

  /** Receipts and registrations are write-once, and so are replies and Deferreds. */
  ghost predicate Extends(s: State, s': State) {
    && s'.binding == s.binding
    && (forall id :: id in s.t.receipts ==> id in s'.t.receipts && s'.t.receipts[id] == s.t.receipts[id])
    && (forall id :: id in s.t.requests ==> id in s'.t.requests && s'.t.requests[id] == s.t.requests[id])
    && (forall c :: c in s.owners ==> c in s'.owners && s'.owners[c] == s.owners[c])
    && (forall f :: f in s.tasks && Stopped(s, f) ==> f in s'.tasks && s'.tasks[f] == s.tasks[f])
    && s.starts <= s'.starts
  }

  ghost predicate Keeps(s: State, s': State) {
    Valid(s') && Extends(s, s')
  }

  /** A step that only moves one fiber which neither holds the lock nor takes it. */
  lemma MoveKeeps(s: State, f: nat, task: Task)
    requires Valid(s) && TaskOk(s, f, task) && s.lock != Some(f)
    requires f in s.tasks ==> !Stopped(s, f)
    requires f in s.tasks && s.tasks[f].DispatchAwait? ==>
               task.DispatchAwait? || task.Killed? || (task.Finished? && task.reply.Dispatched?)
    ensures Keeps(s, Go(s, f, task))
  {
    var s' := Go(s, f, task);
    forall g | g in s'.tasks ensures TaskOk(s', g, s'.tasks[g]) {
      if g != f { assert TaskOk(s, g, s.tasks[g]); }
    }
    assert StartsOk(s);
  }

  /** Nothing another fiber relies on is lost when the shared state grows. */
  lemma TaskFrame(s: State, s': State, f: nat, task: Task)
    requires TaskOk(s, f, task) && Extends(s, s') && (s.lock == Some(f) <==> s'.lock == Some(f))
    ensures TaskOk(s', f, task)
  {
  }

  /** The fibers a step leaves alone stay well placed. */
  lemma OthersFrame(s: State, s': State, f: nat)
    requires TasksOk(s) && Extends(s, s') && s'.tasks.Keys == s.tasks.Keys
    requires forall g :: g in s.tasks && g != f ==> s'.tasks[g] == s.tasks[g]
    requires s'.lock == s.lock || (s.lock == Some(f) && s'.lock == None) || (s.lock == None && s'.lock == Some(f))
    ensures forall g :: g in s'.tasks && g != f ==> TaskOk(s', g, s'.tasks[g])
  {
    forall g | g in s'.tasks && g != f ensures TaskOk(s', g, s'.tasks[g]) {
      assert TaskOk(s, g, s.tasks[g]);
      TaskFrame(s, s', g, s.tasks[g]);
    }
  }

  lemma LockStepKeeps(s: State, f: nat, intent: Intent, request: Request, worker: nat)
    requires Valid(s) && f in s.tasks && s.tasks[f] == DispatchLock(intent, request)
    ensures Keeps(s, DispatchLockStep(s, f, intent, request, worker))
  {
    var id := intent.operationId;
    assert TaskOk(s, f, s.tasks[f]);
    if s.lock.None? {
      if id in s.t.active {
        assert ActiveOk(s, id, s.t.active[id]);
        assert OwnersOk(s);
        MoveKeeps(s, f, DispatchAwait(intent, s.t.active[id].completion));
      } else if worker !in s.tasks && worker !in s.owners {
        ForkKeeps(s, f, intent, request, worker);
      }
    }
  }

  lemma ForkExtends(s: State, f: nat, intent: Intent, request: Request, worker: nat)
    requires TasksOk(s) && f in s.tasks && s.tasks[f] == DispatchLock(intent, request)
    requires s.lock.None? && intent.operationId !in s.t.active && worker !in s.tasks && worker !in s.owners
    ensures Extends(s, DispatchLockStep(s, f, intent, request, worker))
    ensures TasksOk(DispatchLockStep(s, f, intent, request, worker))
  {
    var s' := DispatchLockStep(s, f, intent, request, worker);
    assert TaskOk(s, f, s.tasks[f]);
    assert Extends(s, s');
    forall g | g in s'.tasks ensures TaskOk(s', g, s'.tasks[g]) {
      if g in s.tasks && g != f { TaskFrame(s, s', g, s.tasks[g]); }
    }
  }

  lemma ForkTables(s: State, f: nat, intent: Intent, request: Request, worker: nat)
    requires OwnersOk(s) && ActivesOk(s) && f in s.tasks
    requires TaskOk(s, f, DispatchLock(intent, request))
    requires s.lock.None? && intent.operationId !in s.t.active && worker !in s.tasks && worker !in s.owners
    ensures OwnersOk(DispatchLockStep(s, f, intent, request, worker))
    ensures ActivesOk(DispatchLockStep(s, f, intent, request, worker))
  {
    var s' := DispatchLockStep(s, f, intent, request, worker);
    assert OwnersOk(s') by { hide ActivesOk; }
    hide OwnersOk;
  }

  lemma ForkStarts(s: State, f: nat, intent: Intent, request: Request, worker: nat)
    requires StartsOk(s) && CompletionsOk(s.t, s.owners) && ReceiptsOk(s.t)
    requires f in s.tasks && s.tasks[f] == DispatchLock(intent, request)
    requires s.lock.None? && intent.operationId !in s.t.active && worker !in s.tasks && worker !in s.owners
    ensures var s' := DispatchLockStep(s, f, intent, request, worker);
            StartsOk(s') && CompletionsOk(s'.t, s'.owners) && ReceiptsOk(s'.t)
  {
    var s' := DispatchLockStep(s, f, intent, request, worker);
    assert CompletionsOk(s'.t, s'.owners) && ReceiptsOk(s'.t) by { hide StartsOk; }
    hide CompletionsOk, ReceiptsOk, MadeFor;
  }

  lemma ForkKeeps(s: State, f: nat, intent: Intent, request: Request, worker: nat)
    requires Valid(s) && f in s.tasks && s.tasks[f] == DispatchLock(intent, request)
    requires s.lock.None? && intent.operationId !in s.t.active && worker !in s.tasks && worker !in s.owners
    ensures Keeps(s, DispatchLockStep(s, f, intent, request, worker))
  {
    assert TaskOk(s, f, s.tasks[f]);
    hide TaskOk, TasksOk, Extends, ReceiptsOk, CompletionsOk, OwnersOk, ActivesOk, StartsOk, DispatchLockStep;
    ForkExtends(s, f, intent, request, worker);
    ForkTables(s, f, intent, request, worker);
    ForkStarts(s, f, intent, request, worker);
  }

  lemma SettleExtends(s: State, f: nat, task: Task)
    requires TasksOk(s) && f in s.tasks && s.tasks[f] == task && task.Settling?
    ensures Extends(s, SettleStep(s, f, task))
  {
    assert !Stopped(s, f);
    hide TasksOk, TaskOk, SettleEnd;
  }

  lemma SettleMoves(s: State, f: nat, task: Task)
    requires f in s.tasks && task.Settling?
    ensures var s' := SettleStep(s, f, task);
            && s'.tasks.Keys == s.tasks.Keys && (forall g :: g in s.tasks && g != f ==> s'.tasks[g] == s.tasks[g])
            && (s.tasks[f] == task && (task.stage != WaitLock ==> s.lock == Some(f)) ==>
                  s'.lock == s.lock || (s.lock == Some(f) && s'.lock == None) || (s.lock == None && s'.lock == Some(f)))
  {
    hide SettleEnd, Complete;
  }

  lemma SettleTasks(s: State, f: nat, task: Task)
    requires TasksOk(s) && f in s.tasks && s.tasks[f] == task && task.Settling? && TaskOk(s, f, task)
    requires Extends(s, SettleStep(s, f, task))
    ensures TasksOk(SettleStep(s, f, task))
  {
    var s' := SettleStep(s, f, task);
    OwnSettle(s, f, task);
    SettleMoves(s, f, task);
    assert task.stage != WaitLock ==> s.lock == Some(f);
    hide SettleStep, TaskOk, Extends;
    OthersFrame(s, s', f);
  }

  lemma OwnSettle(s: State, f: nat, task: Task)
    requires f in s.tasks && s.tasks[f] == task && task.Settling? && TaskOk(s, f, task)
    ensures var s' := SettleStep(s, f, task); f in s'.tasks && TaskOk(s', f, s'.tasks[f])
  {
    hide Complete;
  }

  lemma SettleTables(s: State, f: nat, task: Task)
    requires ReceiptsOk(s.t) && CompletionsOk(s.t, s.owners) && task.Settling? && TaskOk(s, f, task)
    ensures var s' := SettleStep(s, f, task); ReceiptsOk(s'.t) && CompletionsOk(s'.t, s'.owners)
  {
    var s' := SettleStep(s, f, task);
    forall c | c in s'.t.completions ensures
      && c in s'.owners && MadeFor(s'.owners[c], s'.t.completions[c])
      && s'.owners[c].operationId in s'.t.receipts
      && s'.t.receipts[s'.owners[c].operationId] == s'.t.completions[c]
    {
      if c in s.t.completions { assert s'.t.completions[c] == s.t.completions[c]; }
    }
  }

  lemma SettleFrame(s: State, f: nat, task: Task)
    requires task.Settling?
    ensures var s' := SettleStep(s, f, task);
            && s'.owners == s.owners && s'.t.requests == s.t.requests && s'.binding == s.binding
            && (forall id :: id in s'.t.active ==> id in s.t.active && s'.t.active[id] == s.t.active[id])
  {
  }

  lemma SettleOwners(s: State, f: nat, task: Task)
    requires OwnersOk(s) && ActivesOk(s) && task.Settling?
    ensures OwnersOk(SettleStep(s, f, task)) && ActivesOk(SettleStep(s, f, task))
  {
    SettleFrame(s, f, task);
    hide SettleStep;
  }

  lemma SettleStarts(s: State, f: nat, task: Task)
    requires StartsOk(s) && f in s.tasks && s.tasks[f] == task && task.Settling? && TaskOk(s, f, task)
    ensures StartsOk(SettleStep(s, f, task))
  {
  }

  lemma SettleStepKeeps(s: State, f: nat, task: Task)
    requires Valid(s) && f in s.tasks && s.tasks[f] == task && task.Settling?
    ensures Keeps(s, SettleStep(s, f, task))
  {
    assert TaskOk(s, f, task);
    SettleExtends(s, f, task);
    SettleTasks(s, f, task);
    SettleTables(s, f, task);
    SettleOwners(s, f, task);
    SettleStarts(s, f, task);
    hide *;
  }

  lemma RegisterExtends(s: State, f: nat, task: Task)
    requires TasksOk(s) && f in s.tasks && s.tasks[f] == task && task.WorkspaceRegister?
    ensures Extends(s, RegisterStep(s, f, task))
  {
  }

  /** A registration adds one request and moves one fiber on. */
  lemma RegisterRest(s: State, s': State, f: nat)
    requires ReceiptsOk(s.t) && CompletionsOk(s.t, s.owners) && OwnersOk(s) && ActivesOk(s) && StartsOk(s)
    requires f in s.tasks && s.tasks[f].WorkspaceRegister? && Extends(s, s') && ReceiptsOk(s'.t)
    requires s'.owners == s.owners && s'.starts == s.starts && s'.tasks.Keys == s.tasks.Keys
    requires s'.t == s.t.(requests := s'.t.requests)
    requires forall g :: g in s.tasks && g != f ==> s'.tasks[g] == s.tasks[g]
    ensures CompletionsOk(s'.t, s'.owners) && OwnersOk(s') && ActivesOk(s') && StartsOk(s')
  {
  }

  lemma RegisterOwn(s: State, f: nat, task: Task)
    requires ReceiptsOk(s.t) && TasksOk(s) && f in s.tasks && s.tasks[f] == task && task.WorkspaceRegister?
    ensures var s' := RegisterStep(s, f, task);
            ReceiptsOk(s'.t) && f in s'.tasks && TaskOk(s', f, s'.tasks[f])
            && (s'.lock.Some? ==> s'.lock.value in s'.tasks && s'.tasks[s'.lock.value].Settling?)
  {
    assert TaskOk(s, f, task);
  }

  lemma RegisterStepKeeps(s: State, f: nat, task: Task)
    requires Valid(s) && f in s.tasks && s.tasks[f] == task && task.WorkspaceRegister?
    ensures Keeps(s, RegisterStep(s, f, task))
  {
    var s' := RegisterStep(s, f, task);
    RegisterExtends(s, f, task);
    RegisterOwn(s, f, task);
    hide TaskOk, CompletionsOk, OwnersOk, ActivesOk, StartsOk, ReceiptsOk, Extends;
    OthersFrame(s, s', f);
    assert TasksOk(s');
    hide TasksOk;
    RegisterRest(s, s', f);
  }

  lemma KillKeeps(s: State, f: nat)
    requires Valid(s) && f in s.tasks && !Stopped(s, f)
    ensures Keeps(s, Step(s, Kill(f)))
  {
    var s' := Step(s, Kill(f));
    assert TaskOk(s, f, s.tasks[f]);
    assert Extends(s, s');
    OthersFrame(s, s', f);
    assert StartsOk(s');
  }

  predicate IsMove(s: State, f: nat, s': State) {
    f in s'.tasks && s' == Go(s, f, s'.tasks[f])
  }

  lemma CheckedBindings(s: State, intent: Intent, handshake: Evidence)
    ensures SameBinding(s.binding, intent.binding) ==> intent.binding == s.binding
  {
    FencesAreIdentity(s.binding, intent.binding, handshake);
  }

  /** Completed evidence has the identity of every call that waits for it. */
  lemma SharedIdentity(intent: Intent, owner: Intent, evidence: ExecutorEvidence)
    requires SameOperation(intent, owner) && MadeFor(owner, evidence)
    ensures SameIdentity(intent, evidence)
  {
    FencesAreIdentity(intent.binding, intent.binding, evidence.binding);
  }

  /** What a fiber may become by reading shared state. */
  ghost predicate Moves(s: State, f: nat, s': State)
    requires f in s.tasks
  {
    && IsMove(s, f, s') && TaskOk(s, f, s'.tasks[f])
    && (s.tasks[f].DispatchAwait? ==>
          s'.tasks[f].DispatchAwait? || (s'.tasks[f].Finished? && s'.tasks[f].reply.Dispatched?))
  }

  lemma WorkspaceDispatchMoves(s: State, f: nat, task: Task)
    requires f in s.tasks && s.tasks[f] == task && task.WorkspaceDispatch? && s.lock != Some(f)
    ensures Moves(s, f, WorkspaceDispatchStep(s, f, task))
  {
  }

  lemma DispatchReadMoves(s: State, f: nat, intent: Intent, handshake: Evidence)
    requires f in s.tasks && s.tasks[f] == DispatchRead(intent, handshake) && s.lock != Some(f)
    ensures Moves(s, f, DispatchReadStep(s, f, intent, handshake))
  {
    CheckedBindings(s, intent, handshake);
    hide SameEvidence, SameBinding;
  }

  lemma AwaitMoves(s: State, f: nat, intent: Intent, c: nat)
    requires CompletionsOk(s.t, s.owners) && f in s.tasks && s.tasks[f] == DispatchAwait(intent, c)
             && TaskOk(s, f, s.tasks[f])
    ensures Moves(s, f, AdvanceStep(s, f, 0, Interrupted))
  {
    if c in s.t.completions { SharedIdentity(intent, s.owners[c], s.t.completions[c]); }
  }

  lemma RunningMoves(s: State, f: nat, intent: Intent, request: Request, c: nat, exit: Exit)
    requires f in s.tasks && s.tasks[f] == Running(intent, request, c) && TaskOk(s, f, s.tasks[f]) && s.lock != Some(f)
    ensures Moves(s, f, AdvanceStep(s, f, 0, exit))
  {
  }

  lemma CancelMoves(s: State, f: nat)
    requires ReceiptsOk(s.t) && ActivesOk(s) && TasksOk(s) && f in s.tasks && s.lock != Some(f)
    requires s.tasks[f].CancelRead? || s.tasks[f].CancelInterrupt? || s.tasks[f].CancelReceipt?
    ensures Moves(s, f, AdvanceStep(s, f, 0, Interrupted))
  {
    assert TaskOk(s, f, s.tasks[f]);
  }

  predicate ReadsOnly(s: State, f: nat) {
    f in s.tasks && !s.tasks[f].Settling? && !s.tasks[f].DispatchLock? && !s.tasks[f].WorkspaceRegister?
      && !Stopped(s, f)
  }

  /** The steps that read shared state and move one fiber accordingly. */
  lemma ReadStepsMove(s: State, f: nat, worker: nat, exit: Exit)
    requires Valid(s) && ReadsOnly(s, f) && TaskOk(s, f, s.tasks[f]) && s.lock != Some(f)
    ensures Moves(s, f, AdvanceStep(s, f, worker, exit))
  {
    var task := s.tasks[f];
    if task.WorkspaceDispatch? { WorkspaceDispatchMoves(s, f, task); }
    else if task.DispatchRead? { DispatchReadMoves(s, f, task.intent, task.handshake); }
    else if task.DispatchAwait? { AwaitMoves(s, f, task.intent, task.completion); }
    else if task.Running? { RunningMoves(s, f, task.intent, task.request, task.completion, exit); }
    else if task.CancelRead? || task.CancelInterrupt? || task.CancelReceipt? { CancelMoves(s, f); }
    else { PlainMoves(s, f); }
    hide WorkspaceDispatchStep, DispatchReadStep, CancelReceiptStep, RejectReadStep, DispatchLookupStep,
      OutcomeFromExit,
      TaskOk;
  }

  lemma PlainMoves(s: State, f: nat)
    requires ReceiptsOk(s.t) && ReadsOnly(s, f) && TaskOk(s, f, s.tasks[f]) && s.lock != Some(f)
    requires s.tasks[f].WorkspacePrepare? || s.tasks[f].DispatchLookup? || s.tasks[f].RejectRead?
    ensures Moves(s, f, AdvanceStep(s, f, 0, Interrupted))
  {
    hide SameEvidence, SameBinding;
  }

  lemma ReadStepsKeep(s: State, f: nat, worker: nat, exit: Exit)
    requires Valid(s) && ReadsOnly(s, f)
    ensures Keeps(s, AdvanceStep(s, f, worker, exit))
  {
    assert TaskOk(s, f, s.tasks[f]);
    ReadStepsMove(s, f, worker, exit);
    MoveKeeps(s, f, AdvanceStep(s, f, worker, exit).tasks[f]);
  }

  lemma KeepsItself(s: State)
    requires Valid(s)
    ensures Keeps(s, s)
  {
    hide Valid;
  }

  lemma StepKeeps(s: State, e: Event)
    requires Valid(s)
    ensures Keeps(s, Step(s, e))
  {
    KeepsItself(s);
    hide Keeps, SettleStep, RegisterStep, DispatchLockStep, WorkspaceDispatchStep, DispatchReadStep, DispatchLookupStep,
      RejectReadStep, CancelReceiptStep, EvidenceFor, OutcomeFromExit, RequestToolName;
    match e
    case Spawn(f, task) =>
      if f !in s.tasks && Step(s, e) != s { MoveKeeps(s, f, task); }
    case Advance(f, worker, exit) =>
      if f in s.tasks && !Stopped(s, f) {
        var task := s.tasks[f];
        if task.Settling? { SettleStepKeeps(s, f, task); }
        else if task.DispatchLock? { LockStepKeeps(s, f, task.intent, task.request, worker); }
        else if task.WorkspaceRegister? { RegisterStepKeeps(s, f, task); }
        else { ReadStepsKeep(s, f, worker, exit); }
      }
    case Kill(f) =>
      if f in s.tasks && !Stopped(s, f) { KillKeeps(s, f); }
  }
}
