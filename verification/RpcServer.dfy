/** The server end of the Runner WebSocket: the RPC multiplexer of packages/execution/src/transport.ts. */
module RpcServer {
  import opened Bindings
  import opened ExecutorContract
  import opened Flow

  const MAX_BYTES_CEILING := 16 * 1024 * 1024

  datatype Limits = Limits(maxFrameBytes: nat, maxInFlightRpcs: nat, maxInFlightBytes: nat)

  const DEFAULT_LIMITS := Limits(MAX_RECEIPT_BYTES + 16384, 64, MAX_DISPATCH_BYTES * 64)

  function ResolveLimits(limits: Limits): Option<Limits> {
    if limits.maxFrameBytes >= MAX_RECEIPT_BYTES && 1 <= limits.maxInFlightRpcs <= 128
       && limits.maxFrameBytes <= limits.maxInFlightBytes <= MAX_BYTES_CEILING
    then Some(limits) else None
  }

  datatype Cancellation = CancelledNow | AlreadyTerminal(result: Canonical)

  datatype Request =
    | Handshake(binding: Binding)
    | Dispatch(intent: Intent, input: string, handshake: Evidence)
    | Receipt(operationId: string)
    | Cancel(cancelId: string)

  datatype Response =
    | HandshakeResult(evidence: Evidence)
    | DispatchResult(dispatched: ExecutorEvidence)
    | ReceiptResult(receipt: Option<ExecutorEvidence>)
    | CancelResult(cancellation: Cancellation)

  datatype Tag = HandshakeTag | DispatchTag | ReceiptTag | CancelTag

  datatype Frame =
    | Enroll(binding: Binding)
    | Answered(id: nat, answer: Answer)

  datatype Answer = Success(response: Response) | Failure(error: ExecutorError)

  function ResponseTag(request: Request): Tag {
    match request
    case Handshake(_) => HandshakeTag
    case Dispatch(_, _, _) => DispatchTag
    case Receipt(_) => ReceiptTag
    case Cancel(_) => CancelTag
  }

  function TagOf(response: Response): Tag {
    match response
    case HandshakeResult(_) => HandshakeTag
    case DispatchResult(_) => DispatchTag
    case ReceiptResult(_) => ReceiptTag
    case CancelResult(_) => CancelTag
  }

  function RequestPhase(request: Request): Phase {
    match request
    case Handshake(_) => HandshakePhase
    case Dispatch(_, _, _) => AfterDispatch
    case Receipt(_) => ReceiptPhase
    case Cancel(_) => CancelPhase
  }

  function RequestLimit(limits: Limits, request: Request): nat {
    if request.Dispatch? then MAX_DISPATCH_BYTES else limits.maxFrameBytes
  }

  // ----- the shared books and the critical sections over them -----

  datatype Pending = Pending(expected: Tag, phase: Phase)

  datatype ConnectionPhase = AwaitingEnrollment | Ready | Closed

  datatype Books = Books(phase: ConnectionPhase, pending: seq<Slot<Pending>>, retired: seq<nat>)

  /** The locked part of `rpc`: refuse, or record the call as pending. */
  function AdmitSection(limits: Limits, books: Books, slot: Slot<Pending>): (r: (Option<ExecutorError>, Books)) {
    if books.phase != Ready then (Some(TransportError(Connection)), books)
    else if !Fits(books.pending, slot.bytes, limits.maxInFlightRpcs, limits.maxInFlightBytes)
    then (Some(TransportError(BeforeDispatch)), books)
    else (None, books.(pending := books.pending + [slot]))
  }

  /** Insertion order of a JavaScript Set: an element already present keeps its place. */
  function AddId(ids: seq<nat>, id: nat): seq<nat> {
    if id in ids then ids else ids + [id]
  }

  /** Forget the oldest ids beyond twice the RPC limit. */
  function Evict(ids: seq<nat>, limit: nat): seq<nat> {
    if |ids| > 2 * limit then ids[|ids| - 2 * limit..] else ids
  }

  function RetireSection(limits: Limits, books: Books, id: nat): Books {
    if Find(books.pending, id).None? then books
    else books.(pending := Without(books.pending, id),
                retired := Evict(AddId(books.retired, id), limits.maxInFlightRpcs))
  }

  function CloseSection(books: Books): Books {
    if books.phase == Closed then books else books.(phase := Closed, pending := [])
  }

  function Forget(ids: seq<nat>, id: nat): seq<nat> {
    if ids == [] then [] else if ids[0] == id then ids[1..] else [ids[0]] + Forget(ids[1..], id)
  }

  // ----- fibers -----

  datatype Resolution = Resolved(response: Response) | Refused(error: ExecutorError)

  datatype Call =
    | Allocated(request: Request, bytes: nat)
    | Registered(request: Request)
    | SendFailed(request: Request)
    | Sent(request: Request)
    | Done(request: Request, result: Resolution)
    | Interrupted(request: Request)

  datatype Receiver =
    | Received(id: nat, answer: Answer)
    | Matched(id: nat, answer: Answer, expected: Tag)
    | Delivering(id: nat, answer: Answer, expected: Tag)

  /** `results` are the Deferreds of registered calls; `handed` and `heard` record history: ids whose frame
      reached the peer, and the frames that arrived. */
  datatype State = State(
    limits: Limits,
    binding: Binding,
    books: Books,
    enrolled: bool,
    nextRpc: nat,
    calls: map<nat, Call>,
    results: map<nat, Resolution>,
    receivers: map<nat, Receiver>,
    handed: set<nat>,
    heard: set<Frame>)

  datatype Event =
    | CallRpc(request: Request, bytes: nat)
    | Admit(id: nat)
    | Send(id: nat, ok: bool)
    | Finish(id: nat)
    | Interrupt(id: nat)
    | Abandon(id: nat)
    | Arrive(receiver: nat, frame: Frame, sendOk: bool)
    | AdvanceReceiver(receiver: nat)
    | Shutdown(error: ExecutorError)

  function Init(limits: Limits, binding: Binding): State {
    State(limits, binding, Books(AwaitingEnrollment, [], []), false, 0, map[], map[], map[], {}, {})
  }

  /** What `shutdown(error)` tells one pending call. */
  function ShutdownError(error: ExecutorError, phase: Phase): ExecutorError {
    if error.FenceError? then error else TransportError(phase)
  }

  /** Complete the Deferreds of the pending calls, except those already completed. */
  function FailAll(results: map<nat, Resolution>, pending: seq<Slot<Pending>>, error: ExecutorError)
    : (r: map<nat, Resolution>)
    ensures forall id :: id in r <==> id in results || Has(pending, id)
    ensures forall id :: id in results ==> r[id] == results[id]
    ensures forall i :: 0 <= i < |pending| && pending[i].id !in results && Distinct(pending)
              ==> pending[i].id in r && r[pending[i].id] == Refused(ShutdownError(error, pending[i].entry.phase))
  {
    HasIn(pending);
    if pending == [] then results
    else
      var rest := FailAll(results, pending[1..], error);
      HasIn(pending[1..]);
      assert forall i :: 0 < i < |pending| ==> pending[i] == pending[1..][i - 1];
      if pending[0].id in rest then rest
      else rest[pending[0].id := Refused(ShutdownError(error, pending[0].entry.phase))]
  }

  function ShutdownStep(s: State, error: ExecutorError): State {
    if s.books.phase == Closed then s
    else s.(books := CloseSection(s.books), results := FailAll(s.results, s.books.pending, error))
  }

  function Resolve(s: State, id: nat, resolution: Resolution): State {
    if id in s.results then s else s.(results := s.results[id := resolution])
  }

  function CallStep(s: State, request: Request, bytes: nat): State {
    if !s.enrolled then s
    else
      var call := if bytes > RequestLimit(s.limits, request)
                  then Done(request, Refused(TransportError(BeforeDispatch))) else Allocated(request, bytes);
      s.(nextRpc := s.nextRpc + 1, calls := s.calls[s.nextRpc := call])
  }

  function AdmitStep(s: State, id: nat, request: Request, bytes: nat): State {
    var (refused, books) :=
      AdmitSection(s.limits, s.books, Slot(id, bytes, Pending(ResponseTag(request), RequestPhase(request))));
    var call := match refused { case Some(error) => Done(request, Refused(error)) case None => Registered(request) };
    s.(books := books, calls := s.calls[id := call])
  }

  function SendStep(s: State, id: nat, ok: bool): State
    requires id in s.calls
  {
    if ok then s.(calls := s.calls[id := Sent(s.calls[id].request)], handed := s.handed + {id})
    else s.(calls := s.calls[id := SendFailed(s.calls[id].request)])
  }

  function FinishStep(s: State, id: nat, call: Call): State {
    var retired := s.(books := RetireSection(s.limits, s.books, id));
    match call
    case SendFailed(request) => retired.(calls := s.calls[id := Done(request, Refused(TransportError(BeforeDispatch)))])
    case Sent(request) =>
      if id in s.results then retired.(calls := s.calls[id := Done(request, s.results[id])]) else s
    case _ => s
  }

  function EnrollStep(s: State, binding: Binding, sendOk: bool): State {
    if s.books.phase != AwaitingEnrollment then ShutdownStep(s, FenceError(Field(Protocol)))
    else if !SameBinding(s.binding, binding) then ShutdownStep(s, FenceFor(s.binding, ToEvidence(binding)))
    else
      var ready := s.(books := s.books.(phase := Ready));
      if sendOk then ready.(enrolled := true) else ShutdownStep(ready, TransportError(Connection))
  }

  function ArriveStep(s: State, receiver: nat, frame: Frame, sendOk: bool): State {
    var s := s.(heard := s.heard + {frame});
    if frame.Enroll? then EnrollStep(s, frame.binding, sendOk)
    else if s.books.phase != Ready then ShutdownStep(s, FenceError(Field(Protocol)))
    else match Find(s.books.pending, frame.id)
      case Some(entry) => s.(receivers := s.receivers[receiver := Matched(frame.id, frame.answer, entry.expected)])
      case None => s.(receivers := s.receivers[receiver := Received(frame.id, frame.answer)])
  }

  function DeliverStep(s: State, id: nat, answer: Answer, expected: Tag): State {
    match answer
    case Failure(error) => Resolve(s, id, Refused(error))
    case Success(response) =>
      if TagOf(response) == expected then Resolve(s, id, Resolved(response))
      else ShutdownStep(Resolve(s, id, Refused(FenceError(Field(Protocol)))), FenceError(Field(Protocol)))
  }

  function ReceiverStep(s: State, r: nat, pc: Receiver): State {
    var gone := s.(receivers := s.receivers - {r});
    match pc
    case Received(id, _) =>
      if id in s.books.retired then gone.(books := s.books.(retired := Forget(s.books.retired, id)))
      else ShutdownStep(gone, FenceError(Field(Protocol)))
    case Matched(id, answer, expected) =>
      s.(books := RetireSection(s.limits, s.books, id), receivers := s.receivers[r := Delivering(id, answer, expected)])
    case Delivering(id, answer, expected) => DeliverStep(gone, id, answer, expected)
  }

  function Stop(s: State, id: nat): State
    requires id in s.calls
  {
    s.(calls := s.calls[id := Interrupted(s.calls[id].request)])
  }

  /** A call that its caller still runs. */
  predicate IsOpen(call: Call) { !call.Done? && !call.Interrupted? }

  /** `Interrupt` stops a call that waits for its answer, and so retires it; `Abandon` stops one anywhere else,
      between two of its steps. */
  function Step(s: State, e: Event): State {
    match e
    case CallRpc(request, bytes) => CallStep(s, request, bytes)
    case Admit(id) =>
      if id in s.calls && s.calls[id].Allocated? then AdmitStep(s, id, s.calls[id].request, s.calls[id].bytes) else s
    case Send(id, ok) =>
      if id in s.calls && s.calls[id].Registered? then SendStep(s, id, ok) else s
    case Finish(id) => if id in s.calls then FinishStep(s, id, s.calls[id]) else s
    case Interrupt(id) =>
      if id in s.calls && s.calls[id].Sent?
      then s.(books := RetireSection(s.limits, s.books, id), calls := s.calls[id := Interrupted(s.calls[id].request)])
      else s
    case Abandon(id) =>
      if id in s.calls && IsOpen(s.calls[id]) then Stop(s, id) else s
    case Arrive(receiver, frame, sendOk) =>
      if receiver in s.receivers then s else ArriveStep(s, receiver, frame, sendOk)
    case AdvanceReceiver(r) =>
      if r in s.receivers then ReceiverStep(s, r, s.receivers[r]) else s
    case Shutdown(error) => ShutdownStep(s, error)
  }

  function Run(s: State, events: seq<Event>): State {
    if events == [] then s else Step(Run(s, events[..|events| - 1]), events[|events| - 1])
  }

  // ----- invariants -----

  ghost predicate NoDuplicates(ids: seq<nat>) {
    forall i, j :: 0 <= i < j < |ids| ==> ids[i] != ids[j]
  }

  /** Flow control and identity of the books. */
  ghost predicate BooksOk(limits: Limits, books: Books) {
    && Distinct(books.pending)
    && |books.pending| <= limits.maxInFlightRpcs
    && Bytes(books.pending) <= limits.maxInFlightBytes
    && NoDuplicates(books.retired)
    && |books.retired| <= 2 * limits.maxInFlightRpcs
    && (forall id :: Has(books.pending, id) ==> id !in books.retired)
    && (books.phase == Closed ==> books.pending == [])
  }

  /** A call that waits for, or got, an answer has handed its frame to the peer. */
  predicate OnTheWire(call: Call) {
    call.Sent? || (call.Done? && call.result.Resolved?)
  }

  /** Every identity in use was allocated, and a call not yet admitted has none of it. */
  ghost predicate IdsOk(s: State) {
    && (forall id: nat :: id in s.calls <==> id < s.nextRpc)
    && (forall id :: Has(s.books.pending, id) ==> id in s.calls && !s.calls[id].Allocated? && id !in s.results)
    && (forall id :: id in s.books.retired ==> id in s.calls && !s.calls[id].Allocated?)
    && (forall id :: id in s.results ==> id in s.calls && !s.calls[id].Allocated?)
    && (forall id :: id in s.handed ==>
          id in s.calls && !s.calls[id].Allocated? && !s.calls[id].Registered? && !s.calls[id].SendFailed?)
    && (forall id :: id in s.calls && OnTheWire(s.calls[id]) ==> id in s.handed)
  }

  /** What a pending entry promises about the call it stands for. */
  ghost predicate EntriesOk(s: State) {
    forall i :: 0 <= i < |s.books.pending| ==>
      var slot := s.books.pending[i];
      slot.id in s.calls
      && slot.entry == Pending(ResponseTag(s.calls[slot.id].request), RequestPhase(s.calls[slot.id].request))
  }

  ghost predicate ReceiversOk(s: State) {
    forall r :: r in s.receivers ==>
      var pc := s.receivers[r];
      && Answered(pc.id, pc.answer) in s.heard
      && (!pc.Received? ==>
            pc.id in s.calls && !s.calls[pc.id].Allocated? && pc.expected == ResponseTag(s.calls[pc.id].request))
      && (pc.Delivering? ==> !Has(s.books.pending, pc.id))
  }

  /** Where a resolution can come from: a frame with the call's own id and the tag it expects, a failure frame
      with its own id, a fence, or the loss of the connection in the call's own phase. */
  ghost predicate Justified(s: State, id: nat, request: Request, resolution: Resolution) {
    match resolution
    case Resolved(response) => Answered(id, Success(response)) in s.heard && TagOf(response) == ResponseTag(request)
    case Refused(error) =>
      Answered(id, Failure(error)) in s.heard || error.FenceError? || error == TransportError(RequestPhase(request))
  }

  ghost predicate ResultsOk(s: State) {
    && (forall id :: id in s.results ==> id in s.calls && Justified(s, id, s.calls[id].request, s.results[id]))
    && (forall id :: id in s.calls && s.calls[id].Done? && id in s.handed ==>
          Justified(s, id, s.calls[id].request, s.calls[id].result))
  }

  /** A call on the wire is pending, resolved, or being resolved: its answer cannot be lost. */
  ghost predicate Tracked(s: State) {
    forall id :: id in s.calls && (s.calls[id].Registered? || s.calls[id].Sent?) ==>
      || Has(s.books.pending, id) || id in s.results
      || exists r :: r in s.receivers && s.receivers[r].Delivering? && s.receivers[r].id == id
  }

  ghost predicate Valid(s: State) {
    && BooksOk(s.limits, s.books) && IdsOk(s) && EntriesOk(s) && ReceiversOk(s) && ResultsOk(s) && Tracked(s)
    && (s.enrolled ==> s.books.phase != AwaitingEnrollment)
  }

  // ----- the books -----

  lemma AdmitKeepsBooks(limits: Limits, books: Books, slot: Slot<Pending>)
    requires BooksOk(limits, books) && !Has(books.pending, slot.id) && slot.id !in books.retired
    ensures BooksOk(limits, AdmitSection(limits, books, slot).1)
    ensures AdmitSection(limits, books, slot).0.None? ==>
              forall id :: Has(AdmitSection(limits, books, slot).1.pending, id) <==>
                Has(books.pending, id) || id == slot.id
  {
    if AdmitSection(limits, books, slot).0.None? {
      AddKeepsLimits(books.pending, slot, limits.maxInFlightRpcs, limits.maxInFlightBytes);
    }
  }

  lemma EvictKeepsIds(ids: seq<nat>, id: nat, limit: nat)
    requires NoDuplicates(ids)
    ensures var after := Evict(AddId(ids, id), limit);
            && NoDuplicates(after) && |after| <= 2 * limit
            && (forall other :: other in after ==> other in ids || other == id)
  {
    var grown := AddId(ids, id);
    assert NoDuplicates(grown);
    assert forall other :: other in grown ==> other in ids || other == id;
    assert forall i :: 0 <= i < |Evict(grown, limit)| ==> Evict(grown, limit)[i] in grown;
  }

  lemma RetireKeepsBooks(limits: Limits, books: Books, id: nat)
    requires BooksOk(limits, books)
    ensures var after := RetireSection(limits, books, id);
            && BooksOk(limits, after) && after.phase == books.phase
            && (forall other :: Has(after.pending, other) <==> Has(books.pending, other) && other != id)
            && (forall other :: other in after.retired ==>
                other in books.retired || (other == id && Has(books.pending, id)))
  {
    WithoutKeepsDistinct(books.pending, id);
    EvictKeepsIds(books.retired, id, limits.maxInFlightRpcs);
    hide Evict, AddId, NoDuplicates, Distinct, Bytes;
    assert books.pending == [] ==> !Has(books.pending, id);
  }

  lemma {:induction false} ForgetKeepsIds(ids: seq<nat>, id: nat)
    requires NoDuplicates(ids)
    ensures NoDuplicates(Forget(ids, id)) && |Forget(ids, id)| <= |ids|
    ensures forall other :: other in Forget(ids, id) <==> other in ids && other != id
  {
    if ids == [] {
    } else {
      assert ids == [ids[0]] + ids[1..];
      assert NoDuplicates(ids[1..]);
      ForgetKeepsIds(ids[1..], id);
      forall i | 0 <= i < |ids[1..]| ensures ids[1..][i] != ids[0] { assert ids[1..][i] == ids[i + 1]; }
      if ids[0] != id {
        var rest := Forget(ids[1..], id);
        forall i | 0 <= i < |rest| ensures rest[i] != ids[0] { assert rest[i] in ids[1..]; }
      }
    }
  }

  lemma ShutdownKeepsBooks(limits: Limits, books: Books)
    requires BooksOk(limits, books)
    ensures BooksOk(limits, CloseSection(books)) && CloseSection(books).phase == Closed
    ensures CloseSection(books).retired == books.retired
  {
    assert forall id :: !Has<Pending>([], id);
  }

  // ----- every step keeps the invariants -----

  lemma CallIds(s: State, request: Request, bytes: nat)
    requires IdsOk(s) && Tracked(s)
    ensures IdsOk(CallStep(s, request, bytes)) && Tracked(CallStep(s, request, bytes))
  {
    hide Has;
  }

  lemma CallRecords(s: State, request: Request, bytes: nat)
    requires IdsOk(s) && EntriesOk(s) && ReceiversOk(s) && ResultsOk(s)
    ensures EntriesOk(CallStep(s, request, bytes)) && ReceiversOk(CallStep(s, request, bytes))
            && ResultsOk(CallStep(s, request, bytes))
  {
    hide Has;
  }

  lemma CallKeeps(s: State, request: Request, bytes: nat)
    requires Valid(s)
    ensures Valid(CallStep(s, request, bytes))
  {
    var s' := CallStep(s, request, bytes);
    assert s'.books == s.books && s'.limits == s.limits && s'.enrolled == s.enrolled;
    CallIds(s, request, bytes);
    CallRecords(s, request, bytes);
    hide CallStep, BooksOk, IdsOk, EntriesOk, ReceiversOk, ResultsOk, Tracked;
    Together(s');
  }

  lemma RefuseKeeps(s: State, id: nat, error: ExecutorError)
    requires Valid(s) && id in s.calls && s.calls[id].Allocated?
    ensures Valid(s.(calls := s.calls[id := Done(s.calls[id].request, Refused(error))]))
  {
    hide BooksOk, Has;
  }

  lemma RegisterKeeps(s: State, id: nat, slot: Slot<Pending>)
    requires Valid(s) && id in s.calls && s.calls[id].Allocated? && slot.id == id
    requires slot.entry == Pending(ResponseTag(s.calls[id].request), RequestPhase(s.calls[id].request))
    requires BooksOk(s.limits, s.books.(pending := s.books.pending + [slot])) && s.books.phase == Ready
    requires forall other :: Has(s.books.pending + [slot], other) <==> Has(s.books.pending, other) || other == id
    ensures Valid(s.(books := s.books.(pending := s.books.pending + [slot]),
                     calls := s.calls[id := Registered(s.calls[id].request)]))
  {
    hide BooksOk, Has;
  }

  lemma AdmitKeeps(s: State, id: nat)
    requires Valid(s) && id in s.calls && s.calls[id].Allocated?
    ensures Valid(AdmitStep(s, id, s.calls[id].request, s.calls[id].bytes))
  {
    var request := s.calls[id].request;
    var slot := Slot(id, s.calls[id].bytes, Pending(ResponseTag(request), RequestPhase(request)));
    AdmitKeepsBooks(s.limits, s.books, slot);
    match AdmitSection(s.limits, s.books, slot).0
    case Some(error) =>
      RefuseKeeps(s, id, error);
      assert AdmitStep(s, id, request, slot.bytes) == s.(calls := s.calls[id := Done(request, Refused(error))]);
    case None =>
      RegisterKeeps(s, id, slot);
  }

  lemma SendIds(s: State, id: nat, ok: bool)
    requires IdsOk(s) && id in s.calls && s.calls[id].Registered?
    ensures IdsOk(SendStep(s, id, ok))
  {
    hide Has;
  }

  lemma SendEntries(s: State, id: nat, ok: bool)
    requires EntriesOk(s) && ReceiversOk(s) && id in s.calls && s.calls[id].Registered?
    ensures EntriesOk(SendStep(s, id, ok)) && ReceiversOk(SendStep(s, id, ok))
  {
    hide Has;
  }

  lemma SendResults(s: State, id: nat, ok: bool)
    requires ResultsOk(s) && id in s.calls && s.calls[id].Registered?
    ensures ResultsOk(SendStep(s, id, ok))
  {
  }

  lemma SendTracked(s: State, id: nat, ok: bool)
    requires Tracked(s) && id in s.calls && s.calls[id].Registered?
    ensures Tracked(SendStep(s, id, ok))
  {
    hide Has;
  }

  lemma Together(s: State)
    requires BooksOk(s.limits, s.books) && IdsOk(s) && EntriesOk(s) && ReceiversOk(s) && ResultsOk(s) && Tracked(s)
    requires s.enrolled ==> s.books.phase != AwaitingEnrollment
    ensures Valid(s)
  {
  }

  lemma SendKeeps(s: State, id: nat, ok: bool)
    requires Valid(s) && id in s.calls && s.calls[id].Registered?
    ensures Valid(SendStep(s, id, ok))
  {
    SendIds(s, id, ok);
    SendEntries(s, id, ok);
    SendResults(s, id, ok);
    SendTracked(s, id, ok);
    hide BooksOk, IdsOk, EntriesOk, ReceiversOk, ResultsOk, Tracked;
    Together(SendStep(s, id, ok));
  }

  ghost predicate Shrinks(books: Books, after: Books, id: nat) {
    && after.phase == books.phase
    && (forall other :: Has(after.pending, other) <==> Has(books.pending, other) && other != id)
    && (forall other :: other in after.retired ==> other in books.retired || (other == id && Has(books.pending, id)))
    && (forall i :: 0 <= i < |after.pending| ==> after.pending[i] in books.pending)
  }

  /** Retiring an identity whose call no longer waits. */
  lemma RetireKeeps(s: State, id: nat, call: Call)
    requires Valid(s) && id in s.calls && (s.calls[id].Sent? || s.calls[id].SendFailed?)
    requires (call.Done? || call.Interrupted?) && call.request == s.calls[id].request
    requires call.Done? && id in s.handed ==> Justified(s, id, call.request, call.result)
    requires OnTheWire(call) ==> OnTheWire(s.calls[id])
    ensures Valid(s.(books := RetireSection(s.limits, s.books, id), calls := s.calls[id := call]))
  {
    RetireKeepsBooks(s.limits, s.books, id);
    RetireEntries(s.limits, s.books, id);
    EndKeeps(s, id, call, RetireSection(s.limits, s.books, id));
  }

  lemma EndIds(s: State, id: nat, call: Call, books: Books)
    requires IdsOk(s) && EntriesOk(s) && ReceiversOk(s) && id in s.calls
             && (s.calls[id].Sent? || s.calls[id].SendFailed?)
    requires (call.Done? || call.Interrupted?) && call.request == s.calls[id].request
    requires OnTheWire(call) ==> OnTheWire(s.calls[id])
    requires Shrinks(s.books, books, id)
    ensures var s' := s.(books := books, calls := s.calls[id := call]); IdsOk(s') && EntriesOk(s') && ReceiversOk(s')
  {
    hide Has;
    var s' := s.(books := books, calls := s.calls[id := call]);
    assert IdsOk(s') by { hide EntriesOk, ReceiversOk; }
    assert EntriesOk(s') by { hide IdsOk, ReceiversOk; }
    hide IdsOk, EntriesOk;
  }

  lemma EndResults(s: State, id: nat, call: Call, books: Books)
    requires ResultsOk(s) && Tracked(s) && id in s.calls
    requires (call.Done? || call.Interrupted?) && call.request == s.calls[id].request
    requires call.Done? && id in s.handed ==> Justified(s, id, call.request, call.result)
    requires Shrinks(s.books, books, id)
    ensures var s' := s.(books := books, calls := s.calls[id := call]); ResultsOk(s') && Tracked(s')
  {
    hide Has;
    var s' := s.(books := books, calls := s.calls[id := call]);
    assert ResultsOk(s') by { hide Tracked; }
    hide ResultsOk;
  }

  lemma EndKeeps(s: State, id: nat, call: Call, books: Books)
    requires Valid(s) && id in s.calls && (s.calls[id].Sent? || s.calls[id].SendFailed?)
    requires (call.Done? || call.Interrupted?) && call.request == s.calls[id].request
    requires call.Done? && id in s.handed ==> Justified(s, id, call.request, call.result)
    requires OnTheWire(call) ==> OnTheWire(s.calls[id])
    requires BooksOk(s.limits, books) && Shrinks(s.books, books, id)
    ensures Valid(s.(books := books, calls := s.calls[id := call]))
  {
    EndIds(s, id, call, books);
    EndResults(s, id, call, books);
    assert s.enrolled ==> books.phase != AwaitingEnrollment;
    hide BooksOk, IdsOk, EntriesOk, ReceiversOk, ResultsOk, Tracked, Shrinks, OnTheWire, Justified;
    Together(s.(books := books, calls := s.calls[id := call]));
  }

  lemma RetireEntries(limits: Limits, books: Books, id: nat)
    ensures forall i :: 0 <= i < |RetireSection(limits, books, id).pending| ==>
              RetireSection(limits, books, id).pending[i] in books.pending
  {
  }

  lemma ShutdownKeeps(s: State, error: ExecutorError)
    requires Valid(s)
    ensures Valid(ShutdownStep(s, error))
  {
    if s.books.phase != Closed {
      ShutdownKeepsBooks(s.limits, s.books);
      FailedJustified(s, error);
      ClosedKeeps(s, s.books.(phase := Closed, pending := []), FailAll(s.results, s.books.pending, error));
    }
  }

  lemma ClosedKeeps(s: State, books: Books, results: map<nat, Resolution>)
    requires Valid(s) && BooksOk(s.limits, books) && books == s.books.(phase := Closed, pending := [])
    requires forall id :: id in results <==> id in s.results || Has(s.books.pending, id)
    requires forall id :: id in results ==> id in s.calls && Justified(s, id, s.calls[id].request, results[id])
    ensures Valid(s.(books := books, results := results))
  {
    assert forall id :: !Has<Pending>([], id);
    hide BooksOk, Has;
    var s' := s.(books := books, results := results);
    assert IdsOk(s');
    assert ReceiversOk(s');
    assert ResultsOk(s') by { hide IdsOk, ReceiversOk, Tracked; }
    assert Tracked(s') by { hide IdsOk, ReceiversOk, ResultsOk; }
  }

  /** Every Deferred a shutdown fails is failed in its own call's phase, or with the fence. */
  lemma FailedJustified(s: State, error: ExecutorError)
    requires BooksOk(s.limits, s.books) && IdsOk(s) && EntriesOk(s) && ResultsOk(s)
    ensures var results := FailAll(s.results, s.books.pending, error);
            forall id :: id in results ==> id in s.calls && Justified(s, id, s.calls[id].request, results[id])
  {
    var results := FailAll(s.results, s.books.pending, error);
    forall id | id in results ensures id in s.calls && Justified(s, id, s.calls[id].request, results[id]) {
      if id !in s.results {
        var i :| 0 <= i < |s.books.pending| && s.books.pending[i].id == id;
        assert Has(s.books.pending, id);
      }
    }
  }

  lemma HeardKeeps(s: State, frame: Frame)
    requires Valid(s)
    ensures Valid(s.(heard := s.heard + {frame}))
  {
    hide BooksOk, Has;
  }

  lemma EnrollKeeps(s: State, binding: Binding, sendOk: bool)
    requires Valid(s)
    ensures Valid(EnrollStep(s, binding, sendOk))
  {
    if s.books.phase != AwaitingEnrollment {
      ShutdownKeeps(s, FenceError(Field(Protocol)));
    } else if !SameBinding(s.binding, binding) {
      ShutdownKeeps(s, FenceFor(s.binding, ToEvidence(binding)));
    } else {
      ReadyKeeps(s);
      if !sendOk { ShutdownKeeps(s.(books := s.books.(phase := Ready)), TransportError(Connection)); }
    }
  }

  lemma ReadyKeeps(s: State)
    requires Valid(s) && s.books.phase == AwaitingEnrollment
    ensures var ready := s.(books := s.books.(phase := Ready)); Valid(ready) && Valid(ready.(enrolled := true))
  {
    var ready := s.(books := s.books.(phase := Ready));
    var enrolled := ready.(enrolled := true);
    assert BooksOk(s.limits, ready.books);
    ReadyIds(s, ready);
    ReadyIds(s, enrolled);
    hide BooksOk, IdsOk, EntriesOk, ReceiversOk, ResultsOk, Tracked;
    Together(ready);
    Together(enrolled);
  }

  lemma ReadyIds(s: State, s': State)
    requires IdsOk(s) && EntriesOk(s) && ReceiversOk(s) && ResultsOk(s) && Tracked(s)
    requires s' == s.(books := s.books.(phase := s'.books.phase), enrolled := s'.enrolled)
    ensures IdsOk(s') && EntriesOk(s') && ReceiversOk(s') && ResultsOk(s') && Tracked(s')
  {
    TrackedMore(s, s');
    hide Has, Tracked;
  }

  lemma ReceiveKeeps(s: State, r: nat, pc: Receiver)
    requires Valid(s) && r !in s.receivers && Answered(pc.id, pc.answer) in s.heard
    requires pc.Received? || (pc.Matched? && pc.id in s.calls && !s.calls[pc.id].Allocated?
                              && pc.expected == ResponseTag(s.calls[pc.id].request))
    ensures Valid(s.(receivers := s.receivers[r := pc]))
  {
    hide BooksOk, Has;
    var s' := s.(receivers := s.receivers[r := pc]);
    TrackedMore(s, s');
  }

  lemma TrackedMore(s: State, s': State)
    requires Tracked(s) && s'.books.pending == s.books.pending && s'.results == s.results && s'.calls == s.calls
    requires forall r :: r in s.receivers && s.receivers[r].Delivering? ==>
             r in s'.receivers && s'.receivers[r] == s.receivers[r]
    ensures Tracked(s')
  {
    forall id | id in s'.calls && (s'.calls[id].Registered? || s'.calls[id].Sent?) ensures
      || Has(s'.books.pending, id) || id in s'.results
      || exists r :: r in s'.receivers && s'.receivers[r].Delivering? && s'.receivers[r].id == id
    {
      if !Has(s.books.pending, id) && id !in s.results {
        var r :| r in s.receivers && s.receivers[r].Delivering? && s.receivers[r].id == id;
        assert s'.receivers[r].id == id;
      }
    }
  }

  lemma ArriveKeeps(s: State, receiver: nat, frame: Frame, sendOk: bool)
    requires Valid(s) && receiver !in s.receivers
    ensures Valid(ArriveStep(s, receiver, frame, sendOk))
  {
    HeardKeeps(s, frame);
    var h := s.(heard := s.heard + {frame});
    if frame.Enroll? { EnrollKeeps(h, frame.binding, sendOk); }
    else if h.books.phase != Ready { ShutdownKeeps(h, FenceError(Field(Protocol))); }
    else {
      match Find(h.books.pending, frame.id)
      case Some(entry) =>
        assert Has(h.books.pending, frame.id);
        ReceiveKeeps(h, receiver, Matched(frame.id, frame.answer, entry.expected));
      case None => ReceiveKeeps(h, receiver, Received(frame.id, frame.answer));
    }
  }

  lemma GoneKeeps(s: State, r: nat)
    requires Valid(s) && r in s.receivers && s.receivers[r].Received?
    ensures Valid(s.(receivers := s.receivers - {r}))
  {
    TrackedMore(s, s.(receivers := s.receivers - {r}));
    hide BooksOk, Has, Tracked, Justified;
  }

  lemma ForgetKeeps(s: State, id: nat)
    requires Valid(s)
    ensures Valid(s.(books := s.books.(retired := Forget(s.books.retired, id))))
  {
    ForgetKeepsIds(s.books.retired, id);
    var s' := s.(books := s.books.(retired := Forget(s.books.retired, id)));
    assert BooksOk(s'.limits, s'.books);
    TrackedMore(s, s');
    hide BooksOk, Has, Tracked, Forget, Justified;
  }

  lemma UnmatchedKeeps(s: State, r: nat)
    requires Valid(s) && r in s.receivers && s.receivers[r].Received?
    ensures Valid(ReceiverStep(s, r, s.receivers[r]))
  {
    GoneKeeps(s, r);
    var gone := s.(receivers := s.receivers - {r});
    hide Valid;
    if s.receivers[r].id in s.books.retired { ForgetKeeps(gone, s.receivers[r].id); }
    else { ShutdownKeeps(gone, FenceError(Field(Protocol))); }
  }

  lemma MatchedKeeps(s: State, r: nat)
    requires Valid(s) && r in s.receivers && s.receivers[r].Matched?
    ensures Valid(ReceiverStep(s, r, s.receivers[r]))
  {
    var pc := s.receivers[r];
    RetireKeepsBooks(s.limits, s.books, pc.id);
    RetireEntries(s.limits, s.books, pc.id);
    hide Valid;
    ClaimKeeps(s, r, RetireSection(s.limits, s.books, pc.id));
  }

  /** The receiver that retires a call owns its delivery from then on. */
  function ClaimStep(s: State, r: nat, books: Books): State
    requires r in s.receivers && s.receivers[r].Matched?
  {
    var pc := s.receivers[r];
    s.(books := books, receivers := s.receivers[r := Delivering(pc.id, pc.answer, pc.expected)])
  }

  lemma ClaimIds(s: State, r: nat, books: Books)
    requires IdsOk(s) && EntriesOk(s) && ResultsOk(s) && r in s.receivers && s.receivers[r].Matched?
    requires Shrinks(s.books, books, s.receivers[r].id)
    ensures IdsOk(ClaimStep(s, r, books)) && EntriesOk(ClaimStep(s, r, books)) && ResultsOk(ClaimStep(s, r, books))
  {
    hide Has;
  }

  lemma ClaimReceivers(s: State, r: nat, books: Books)
    requires EntriesOk(s) && ReceiversOk(s) && r in s.receivers && s.receivers[r].Matched?
    requires Shrinks(s.books, books, s.receivers[r].id)
    ensures ReceiversOk(ClaimStep(s, r, books))
  {
    hide Has;
  }

  lemma ClaimTracked(s: State, r: nat, books: Books)
    requires Tracked(s) && r in s.receivers && s.receivers[r].Matched?
    requires Shrinks(s.books, books, s.receivers[r].id)
    ensures Tracked(ClaimStep(s, r, books))
  {
    var pc, s' := s.receivers[r], ClaimStep(s, r, books);
    hide Has;
    forall id | id in s'.calls && (s'.calls[id].Registered? || s'.calls[id].Sent?) ensures
      || Has(s'.books.pending, id) || id in s'.results
      || exists q :: q in s'.receivers && s'.receivers[q].Delivering? && s'.receivers[q].id == id
    {
      if id == pc.id { assert s'.receivers[r].id == id; }
      else if !Has(s.books.pending, id) && id !in s.results {
        var q :| q in s.receivers && s.receivers[q].Delivering? && s.receivers[q].id == id;
        assert s'.receivers[q].id == id;
      }
    }
  }

  lemma ClaimKeeps(s: State, r: nat, books: Books)
    requires Valid(s) && r in s.receivers && s.receivers[r].Matched?
    requires BooksOk(s.limits, books) && Shrinks(s.books, books, s.receivers[r].id)
    ensures Valid(ClaimStep(s, r, books))
  {
    ClaimIds(s, r, books);
    ClaimReceivers(s, r, books);
    ClaimTracked(s, r, books);
    assert s.enrolled ==> books.phase != AwaitingEnrollment;
    hide BooksOk, IdsOk, EntriesOk, ReceiversOk, ResultsOk, Tracked, Shrinks;
    Together(ClaimStep(s, r, books));
  }

  lemma ResolveKeeps(s: State, r: nat, resolution: Resolution)
    requires Valid(s) && r in s.receivers && s.receivers[r].Delivering?
    requires var id := s.receivers[r].id; id in s.calls ==> Justified(s, id, s.calls[id].request, resolution)
    ensures Valid(Resolve(s.(receivers := s.receivers - {r}), s.receivers[r].id, resolution))
  {
    ResolveBooks(s, r, resolution);
    ResolveResults(s, r, resolution);
    ResolveTracked(s, r, resolution);
    hide IdsOk, EntriesOk, ReceiversOk, ResultsOk, Tracked, BooksOk;
  }

  lemma ResolveBooks(s: State, r: nat, resolution: Resolution)
    requires IdsOk(s) && EntriesOk(s) && ReceiversOk(s) && r in s.receivers && s.receivers[r].Delivering?
    ensures var s' := Resolve(s.(receivers := s.receivers - {r}), s.receivers[r].id, resolution);
            IdsOk(s') && EntriesOk(s') && ReceiversOk(s')
  {
    hide Has, OnTheWire;
  }

  lemma ResolveResults(s: State, r: nat, resolution: Resolution)
    requires ResultsOk(s) && IdsOk(s) && ReceiversOk(s) && r in s.receivers && s.receivers[r].Delivering?
    requires var id := s.receivers[r].id; id in s.calls ==> Justified(s, id, s.calls[id].request, resolution)
    ensures ResultsOk(Resolve(s.(receivers := s.receivers - {r}), s.receivers[r].id, resolution))
  {
    hide Has, OnTheWire;
  }

  lemma ResolveTracked(s: State, r: nat, resolution: Resolution)
    requires Tracked(s) && r in s.receivers
    ensures Tracked(Resolve(s.(receivers := s.receivers - {r}), s.receivers[r].id, resolution))
  {
    var id := s.receivers[r].id;
    var s' := Resolve(s.(receivers := s.receivers - {r}), id, resolution);
    hide Has;
    forall other | other in s'.calls && (s'.calls[other].Registered? || s'.calls[other].Sent?) ensures
      || Has(s'.books.pending, other) || other in s'.results
      || exists q :: q in s'.receivers && s'.receivers[q].Delivering? && s'.receivers[q].id == other
    {
      if other != id && !Has(s.books.pending, other) && other !in s.results {
        var q :| q in s.receivers && s.receivers[q].Delivering? && s.receivers[q].id == other;
        assert s'.receivers[q].id == other;
      }
    }
  }

  lemma DeliverKeeps(s: State, r: nat)
    requires Valid(s) && r in s.receivers && s.receivers[r].Delivering?
    ensures Valid(ReceiverStep(s, r, s.receivers[r]))
  {
    var pc := s.receivers[r];
    match pc.answer
    case Failure(error) => ResolveKeeps(s, r, Refused(error));
    case Success(response) =>
      if TagOf(response) == pc.expected {
        ResolveKeeps(s, r, Resolved(response));
      } else {
        ResolveKeeps(s, r, Refused(FenceError(Field(Protocol))));
        ShutdownKeeps(Resolve(s.(receivers := s.receivers - {r}), pc.id, Refused(FenceError(Field(Protocol)))),
                      FenceError(Field(Protocol)));
      }
  }

  lemma FinishKeeps(s: State, id: nat)
    requires Valid(s) && id in s.calls
    ensures Valid(FinishStep(s, id, s.calls[id]))
  {
    var call := s.calls[id];
    if call.SendFailed? {
      assert id !in s.handed;
      hide *;
      FinishFailed(s, id);
    } else if call.Sent? && id in s.results {
      assert Justified(s, id, call.request, s.results[id]);
      hide Justified, Valid, RetireSection;
      RetireKeeps(s, id, Done(call.request, s.results[id]));
    }
  }

  lemma FinishFailed(s: State, id: nat)
    requires Valid(s) && id in s.calls && s.calls[id].SendFailed? && id !in s.handed
    ensures Valid(FinishStep(s, id, s.calls[id]))
  {
    hide Justified, Valid, RetireSection;
    RetireKeeps(s, id, Done(s.calls[id].request, Refused(TransportError(BeforeDispatch))));
  }

  lemma StopIds(s: State, id: nat)
    requires IdsOk(s) && id in s.calls
    ensures IdsOk(Stop(s, id))
  {
    hide Has;
  }

  lemma StopResults(s: State, id: nat)
    requires ResultsOk(s) && id in s.calls
    ensures ResultsOk(Stop(s, id))
  {
    assert forall other, request, resolution :: Justified(s, other, request, resolution) ==>
        Justified(Stop(s, id), other, request, resolution);
    hide Justified;
  }

  lemma StopTracked(s: State, id: nat)
    requires Tracked(s) && EntriesOk(s) && ReceiversOk(s) && id in s.calls
    ensures Tracked(Stop(s, id)) && EntriesOk(Stop(s, id)) && ReceiversOk(Stop(s, id))
  {
    hide Has;
  }

  /** A call stopped between two steps leaves the books as they are. */
  lemma AbandonKeeps(s: State, id: nat)
    requires Valid(s) && id in s.calls
    ensures Valid(Stop(s, id))
  {
    hide IdsOk, ResultsOk, Tracked, EntriesOk, ReceiversOk, BooksOk;
    StopIds(s, id);
    StopResults(s, id);
    StopTracked(s, id);
  }

  lemma StepKeeps(s: State, e: Event)
    requires Valid(s)
    ensures Valid(Step(s, e))
  {
    hide Valid, AdmitStep, CallStep, SendStep, FinishStep, ArriveStep, ReceiverStep, ShutdownStep, RetireSection;
    match e
    case CallRpc(request, bytes) => CallKeeps(s, request, bytes);
    case Admit(id) => if id in s.calls && s.calls[id].Allocated? { AdmitKeeps(s, id); }
    case Send(id, ok) => if id in s.calls && s.calls[id].Registered? { SendKeeps(s, id, ok); }
    case Finish(id) =>
      if id in s.calls { FinishKeeps(s, id); }
    case Interrupt(id) =>
      if id in s.calls && s.calls[id].Sent? { RetireKeeps(s, id, Interrupted(s.calls[id].request)); }
    case Abandon(id) => if id in s.calls && IsOpen(s.calls[id]) { AbandonKeeps(s, id); }
    case Arrive(receiver, frame, sendOk) => if receiver !in s.receivers { ArriveKeeps(s, receiver, frame, sendOk); }
    case AdvanceReceiver(r) =>
      if r in s.receivers {
        match s.receivers[r]
        case Received(_, _) => UnmatchedKeeps(s, r);
        case Matched(_, _, _) => MatchedKeeps(s, r);
        case Delivering(_, _, _) => DeliverKeeps(s, r);
      }
    case Shutdown(error) => ShutdownKeeps(s, error);
  }
}
