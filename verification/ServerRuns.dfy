/** What the RPC multiplexer guarantees over whole runs, and the object that implements its sections. */
module ServerRuns {
  import opened Bindings
  import opened ExecutorContract
  import opened Flow
  import opened RpcServer

  lemma InitValid(limits: Limits, binding: Binding)
    ensures Valid(Init(limits, binding))
  {
    assert forall id :: !Has<Pending>([], id);
  }

  /** Deferreds are write-once, a finished call keeps its result, a closed connection stays closed, and no
      call returns to an earlier stage. */
  ghost predicate Extends(s: State, s': State) {
    && s'.limits == s.limits
    && (forall id :: id in s.results ==> id in s'.results && s'.results[id] == s.results[id])
    && (forall id :: id in s.calls ==> id in s'.calls && s'.calls[id].request == s.calls[id].request)
    && (forall id :: id in s.calls && (s.calls[id].Done? || s.calls[id].Interrupted?) ==> s'.calls[id] == s.calls[id])
    && (forall id :: id in s.calls && s.calls[id].Sent? ==>
        s'.calls[id].Sent? || s'.calls[id].Done? || s'.calls[id].Interrupted?)
    && (forall id :: id in s.calls && s.calls[id].Sent? && s'.calls[id].Done? ==>
          id in s'.results && s'.calls[id].result == s'.results[id])
    && (s.books.phase == Closed ==> s'.books.phase == Closed && s'.books.pending == [])
    && s.handed <= s'.handed && s.heard <= s'.heard
  }

  lemma ClosedPendingEmpty(s: State)
    requires Valid(s)
    ensures s.books.phase == Closed ==> s.books.pending == []
    ensures s.nextRpc !in s.calls
  {
  }

  lemma ShutdownExtends(s: State, error: ExecutorError)
    requires s.books.phase == Closed ==> s.books.pending == []
    ensures Extends(s, ShutdownStep(s, error))
  {
  }

  lemma FinishExtends(s: State, id: nat)
    requires (s.books.phase == Closed ==> s.books.pending == []) && id in s.calls
    ensures Extends(s, FinishStep(s, id, s.calls[id]))
  {
    hide Evict, AddId;
  }

  lemma AdmitExtends(s: State, id: nat)
    requires (s.books.phase == Closed ==> s.books.pending == []) && id in s.calls && s.calls[id].Allocated?
    ensures Extends(s, AdmitStep(s, id, s.calls[id].request, s.calls[id].bytes))
  {
    hide Fits;
  }

  lemma LocalExtends(s: State, e: Event)
    requires (s.books.phase == Closed ==> s.books.pending == []) && s.nextRpc !in s.calls
    requires e.CallRpc? || e.Send? || e.Interrupt?
    ensures Extends(s, Step(s, e))
  {
    hide Evict, AddId;
  }

  lemma AbandonExtends(s: State, id: nat)
    requires s.books.phase == Closed ==> s.books.pending == []
    ensures Extends(s, Step(s, Abandon(id)))
  {
  }

  /** Steps that touch only the receivers, what was heard, a still open phase, or unused Deferreds. */
  lemma SideExtends(s: State, s': State)
    requires s'.limits == s.limits && s'.calls == s.calls && s.handed == s'.handed && s.heard <= s'.heard
    requires forall id :: id in s.results ==> id in s'.results && s'.results[id] == s.results[id]
    requires s.books.phase == Closed ==> s'.books.phase == Closed && s'.books.pending == []
    ensures Extends(s, s')
  {
  }

  lemma ArriveExtends(s: State, receiver: nat, frame: Frame, sendOk: bool)
    requires s.books.phase == Closed ==> s.books.pending == []
    ensures Extends(s, ArriveStep(s, receiver, frame, sendOk))
  {
    var h := s.(heard := s.heard + {frame});
    var s' := ArriveStep(s, receiver, frame, sendOk);
    SideExtends(s, h);
    if frame.Enroll? {
      EnrollExtends(h, frame.binding, sendOk);
      ExtendsTrans(s, h, s');
    } else if h.books.phase != Ready {
      ShutdownExtends(h, FenceError(Field(Protocol)));
      ExtendsTrans(s, h, s');
    } else {
      SideExtends(s, s');
    }
  }

  lemma EnrollExtends(s: State, binding: Binding, sendOk: bool)
    requires s.books.phase == Closed ==> s.books.pending == []
    ensures Extends(s, EnrollStep(s, binding, sendOk))
  {
    hide ShutdownStep, Extends;
    var s' := EnrollStep(s, binding, sendOk);
    if s.books.phase != AwaitingEnrollment { ShutdownExtends(s, FenceError(Field(Protocol))); }
    else if !SameBinding(s.binding, binding) { ShutdownExtends(s, FenceFor(s.binding, ToEvidence(binding))); }
    else {
      var ready := s.(books := s.books.(phase := Ready));
      if sendOk { SideExtends(s, s'); }
      else {
        SideExtends(s, ready);
        ShutdownExtends(ready, TransportError(Connection));
        ExtendsTrans(s, ready, s');
      }
    }
  }

  lemma ReceiverExtends(s: State, r: nat)
    requires (s.books.phase == Closed ==> s.books.pending == []) && r in s.receivers
    ensures Extends(s, ReceiverStep(s, r, s.receivers[r]))
  {
    hide Extends, ShutdownStep, Evict, AddId, Forget, Without;
    var pc := s.receivers[r];
    var gone := s.(receivers := s.receivers - {r});
    var s' := ReceiverStep(s, r, pc);
    var fence := FenceError(Field(Protocol));
    SideExtends(s, gone);
    match pc
    case Received(id, _) =>
      if id in s.books.retired { SideExtends(s, s'); }
      else { ShutdownExtends(gone, fence); ExtendsTrans(s, gone, s'); }
    case Matched(_, _, _) => SideExtends(s, s');
    case Delivering(id, answer, expected) =>
      var mid := Resolve(gone, id, Refused(fence));
      SideExtends(s, mid);
      if answer.Failure? || TagOf(answer.response) == expected { SideExtends(s, s'); }
      else { ShutdownExtends(mid, fence); ExtendsTrans(s, mid, s'); }
  }

  lemma Unfolded(s: State, e: Event)
    ensures e.Arrive? && e.receiver in s.receivers ==> Step(s, e) == s
    ensures e.Arrive? && e.receiver !in s.receivers ==> Step(s, e) == ArriveStep(s, e.receiver, e.frame, e.sendOk)
    ensures e.AdvanceReceiver? && e.receiver !in s.receivers ==> Step(s, e) == s
    ensures e.AdvanceReceiver? && e.receiver in s.receivers ==>
            Step(s, e) == ReceiverStep(s, e.receiver, s.receivers[e.receiver])
    ensures e.Admit? && !(e.id in s.calls && s.calls[e.id].Allocated?) ==> Step(s, e) == s
    ensures e.Admit? && e.id in s.calls && s.calls[e.id].Allocated? ==>
              Step(s, e) == AdmitStep(s, e.id, s.calls[e.id].request, s.calls[e.id].bytes)
    ensures e.Shutdown? ==> Step(s, e) == ShutdownStep(s, e.error)
    ensures e.Finish? && e.id !in s.calls ==> Step(s, e) == s
    ensures e.Finish? && e.id in s.calls ==> Step(s, e) == FinishStep(s, e.id, s.calls[e.id])
  {
    hide ArriveStep, ReceiverStep, AdmitStep, ShutdownStep, FinishStep;
  }

  lemma StepExtends(s: State, e: Event)
    requires Valid(s)
    ensures Extends(s, Step(s, e))
  {
    ClosedPendingEmpty(s);
    Reflexive(s);
    Unfolded(s, e);
    hide *;
    match e
    case Arrive(receiver, frame, sendOk) => if receiver !in s.receivers { ArriveExtends(s, receiver, frame, sendOk); }
    case AdvanceReceiver(r) => if r in s.receivers { ReceiverExtends(s, r); }
    case Admit(id) => if id in s.calls && s.calls[id].Allocated? { AdmitExtends(s, id); }
    case Shutdown(error) => ShutdownExtends(s, error);
    case Finish(id) => if id in s.calls { FinishExtends(s, id); }
    case Abandon(id) => AbandonExtends(s, id);
    case _ => LocalExtends(s, e);
  }

  lemma Reflexive(s: State)
    requires s.books.phase == Closed ==> s.books.pending == []
    ensures Extends(s, s)
  {
  }

  lemma ExtendsTrans(a: State, b: State, c: State)
    requires Extends(a, b) && Extends(b, c)
    ensures Extends(a, c)
  {
  }

  lemma {:induction false} RunKeeps(s: State, events: seq<Event>)
    requires Valid(s)
    ensures Valid(Run(s, events)) && Extends(s, Run(s, events))
  {
    if events == [] {
      ClosedPendingEmpty(s);
    } else {
      hide Valid, Extends, Step;
      var mid := Run(s, events[..|events| - 1]);
      RunKeeps(s, events[..|events| - 1]);
      StepKeeps(mid, events[|events| - 1]);
      StepExtends(mid, events[|events| - 1]);
      ExtendsTrans(s, mid, Run(s, events));
    }
  }

  /** Multiplexing. In every reachable state the calls in flight stay within the count and byte limits, the
      remembered retired identities within twice the count, no identity is both pending and retired, and the
      next identity is fresh for all of them. */
  lemma Multiplexing(limits: Limits, binding: Binding, events: seq<Event>)
    ensures var s := Run(Init(limits, binding), events);
            && |s.books.pending| <= limits.maxInFlightRpcs && Bytes(s.books.pending) <= limits.maxInFlightBytes
            && |s.books.retired| <= 2 * limits.maxInFlightRpcs
            && Distinct(s.books.pending) && NoDuplicates(s.books.retired)
            && (forall id: nat :: Has(s.books.pending, id) ==> id !in s.books.retired && id < s.nextRpc)
            && (forall id :: id in s.books.retired ==> id < s.nextRpc)
            && s.nextRpc !in s.results && s.nextRpc !in s.handed
  {
    InitValid(limits, binding);
    RunKeeps(Init(limits, binding), events);
  }

  /** An RPC succeeds only with a frame that carried its own identity and the response kind it asked for. */
  lemma AnswersMatch(limits: Limits, binding: Binding, events: seq<Event>, id: nat)
    requires var s := Run(Init(limits, binding), events);
             id in s.calls && s.calls[id].Done? && s.calls[id].result.Resolved?
    ensures var s := Run(Init(limits, binding), events);
            var call := s.calls[id];
            && Answered(id, Success(call.result.response)) in s.heard
            && TagOf(call.result.response) == ResponseTag(call.request)
  {
    InitValid(limits, binding);
    RunKeeps(Init(limits, binding), events);
    var s := Run(Init(limits, binding), events);
    assert OnTheWire(s.calls[id]);
    assert Justified(s, id, s.calls[id].request, s.calls[id].result);
  }

  /** A Dispatch that ends in the before-dispatch failure was either never handed to the peer, or the peer
      itself answered this very call with that failure. */
  lemma BeforeDispatchIsDefinite(limits: Limits, binding: Binding, events: seq<Event>, id: nat)
    requires var s := Run(Init(limits, binding), events);
             id in s.calls && s.calls[id].Done? && s.calls[id].request.Dispatch?
             && s.calls[id].result == Refused(TransportError(BeforeDispatch))
    ensures var s := Run(Init(limits, binding), events);
            id !in s.handed || Answered(id, Failure(TransportError(BeforeDispatch))) in s.heard
  {
    InitValid(limits, binding);
    RunKeeps(Init(limits, binding), events);
    var s := Run(Init(limits, binding), events);
    assert id in s.handed ==> Justified(s, id, s.calls[id].request, s.calls[id].result);
  }

  /** Shutdown fails every pending call in its own phase (or with the fence), leaves none pending, and nothing
      becomes pending or changes its answer afterwards; a call on the wire that is still unanswered is one
      whose answer is just being delivered. */
  lemma ShutdownIsFinal(s: State, error: ExecutorError, future: seq<Event>, id: nat)
    requires Valid(s) && s.books.phase != Closed && Has(s.books.pending, id)
    ensures var later := Run(ShutdownStep(s, error), future);
            && later.books.phase == Closed && later.books.pending == []
            && id in later.results && id in s.calls
            && later.results[id] == Refused(ShutdownError(error, RequestPhase(s.calls[id].request)))
  {
    ShutdownKeeps(s, error);
    var closed := ShutdownStep(s, error);
    var i :| 0 <= i < |s.books.pending| && s.books.pending[i].id == id;
    assert closed.results[id] == Refused(ShutdownError(error, s.books.pending[i].entry.phase));
    RunKeeps(closed, future);
    hide Valid, FailAll, Step;
  }

  lemma ClosedCallsAreAnswered(limits: Limits, binding: Binding, events: seq<Event>, id: nat)
    requires var s := Run(Init(limits, binding), events);
             s.books.phase == Closed && id in s.calls && s.calls[id].Sent?
    ensures var s := Run(Init(limits, binding), events);
            id in s.results || exists r :: r in s.receivers && s.receivers[r].Delivering? && s.receivers[r].id == id
  {
    InitValid(limits, binding);
    RunKeeps(Init(limits, binding), events);
    assert !Has<Pending>([], id);
  }

  // ----- slots without a caller -----

  /** A call whose caller is gone while its slot is still taken. */
  ghost predicate Orphan(s: State, id: nat) {
    Has(s.books.pending, id) && id in s.calls && s.calls[id].Interrupted?
  }

  /** The step retires the call: its caller has its answer or gives up waiting, or its answer has arrived. */
  predicate Retires(s: State, e: Event, id: nat) {
    match e
    case Finish(i) => i == id && id in s.calls && (s.calls[id].SendFailed? || s.calls[id].Sent?)
    case Interrupt(i) => i == id && id in s.calls && s.calls[id].Sent?
    case AdvanceReceiver(r) => r in s.receivers && s.receivers[r].Matched? && s.receivers[r].id == id
    case _ => false
  }

  lemma RetiredSlot(limits: Limits, books: Books, id: nat, other: nat)
    requires BooksOk(limits, books)
    ensures RetireSection(limits, books, id).phase == books.phase
    ensures Has(RetireSection(limits, books, id).pending, other) <==> Has(books.pending, other) && other != id
  {
    WithoutKeepsDistinct(books.pending, id);
    hide Has, Without, Evict, AddId;
  }

  lemma AdmittedSlot(s: State, id: nat, other: nat)
    requires Valid(s) && id in s.calls && s.calls[id].Allocated?
    ensures var next := AdmitStep(s, id, s.calls[id].request, s.calls[id].bytes);
            && next.books.phase == s.books.phase && id in next.calls
            && (Has(next.books.pending, other) <==>
                  Has(s.books.pending, other) || (other == id && next.calls[id].Registered?))
  {
    var request, bytes := s.calls[id].request, s.calls[id].bytes;
    assert !Has(s.books.pending, id) && id !in s.books.retired && BooksOk(s.limits, s.books);
    AdmitKeepsBooks(s.limits, s.books, Slot(id, bytes, Pending(ResponseTag(request), RequestPhase(request))));
    hide Valid, BooksOk, Fits, Has;
  }

  lemma DeliveredSlot(s: State, id: nat, answer: Answer, expected: Tag, other: nat)
    ensures var next := DeliverStep(s, id, answer, expected);
            next.books == s.books || next.books.phase == Closed
    ensures Has(DeliverStep(s, id, answer, expected).books.pending, other) ==> Has(s.books.pending, other)
  {
    hide FailAll;
  }

  /** A slot is taken only by the admission of its call, and given back only with it or when the connection closes. */
  ghost predicate SlotKept(s: State, next: State, e: Event, id: nat) {
    && (Has(s.books.pending, id) ==> Has(next.books.pending, id) || next.books.phase == Closed || Retires(s, e, id))
    && (Has(next.books.pending, id) ==>
          Has(s.books.pending, id) || (id in next.calls && next.calls[id].Registered?))
  }

  lemma ReceiverSlot(s: State, r: nat, id: nat)
    requires BooksOk(s.limits, s.books) && r in s.receivers
    ensures SlotKept(s, ReceiverStep(s, r, s.receivers[r]), AdvanceReceiver(r), id)
  {
    hide BooksOk, Has, RetireSection, FailAll, DeliverStep, Forget;
    match s.receivers[r]
    case Matched(i, _, _) => RetiredSlot(s.limits, s.books, i, id);
    case Delivering(i, answer, expected) => DeliveredSlot(s.(receivers := s.receivers - {r}), i, answer, expected, id);
    case Received(_, _) => NoSlots(id);
  }

  lemma ArriveSlot(s: State, receiver: nat, frame: Frame, sendOk: bool, id: nat)
    ensures SlotKept(s, ArriveStep(s, receiver, frame, sendOk), Arrive(receiver, frame, sendOk), id)
  {
    hide Has, FailAll, Find, SameBinding, FenceFor;
    NoSlots(id);
  }

  lemma LocalSlot(s: State, e: Event, id: nat)
    requires BooksOk(s.limits, s.books)
    requires e.CallRpc? || e.Send? || e.Abandon? || e.Finish? || e.Interrupt?
    ensures SlotKept(s, Step(s, e), e, id)
  {
    hide BooksOk, Has, RetireSection;
    if e.Finish? || e.Interrupt? { RetiredSlot(s.limits, s.books, e.id, id); }
  }

  lemma SlotStep(s: State, e: Event, id: nat)
    requires Valid(s)
    ensures SlotKept(s, Step(s, e), e, id)
  {
    ValidBooks(s);
    Unfolded(s, e);
    match e
    case Arrive(receiver, frame, sendOk) =>
      if receiver !in s.receivers { ArriveSlot(s, receiver, frame, sendOk, id); }
      hide Valid, Step, ArriveStep;
    case AdvanceReceiver(r) => if r in s.receivers { ReceiverSlot(s, r, id); } hide Valid, Step, ReceiverStep;
    case Admit(i) => if i in s.calls && s.calls[i].Allocated? { AdmittedSlot(s, i, id); } hide Valid, Step, AdmitStep;
    case Shutdown(error) => NoSlots(id); hide Valid, FailAll, Has;
    case _ => LocalSlot(s, e, id); hide Valid, Step;
  }

  lemma NoSlots(id: nat)
    ensures !Has<Pending>([], id)
  {
  }

  lemma ShutdownLeaves()
    ensures forall s, error :: var next := ShutdownStep(s, error);
                               next.calls == s.calls && next.handed == s.handed && next.heard == s.heard
  {
    hide FailAll, CloseSection;
  }

  lemma ArriveLeaves(s: State, receiver: nat, frame: Frame, sendOk: bool)
    ensures var next := ArriveStep(s, receiver, frame, sendOk);
            next.calls == s.calls && next.handed == s.handed && next.heard == s.heard + {frame}
  {
    hide ShutdownStep, Find, SameBinding, FenceFor;
    ShutdownLeaves();
  }

  lemma ReceiverLeaves(s: State, r: nat, pc: Receiver)
    ensures var next := ReceiverStep(s, r, pc);
            next.calls == s.calls && next.handed == s.handed && next.heard == s.heard
  {
    hide ShutdownStep, RetireSection, Forget;
    ShutdownLeaves();
  }

  /** What the peer does changes no call, and is heard. */
  lemma PeerLeavesCalls(s: State, e: Event)
    requires e.Arrive? || e.AdvanceReceiver? || e.Shutdown?
    ensures var next := Step(s, e);
            && next.calls == s.calls && next.handed == s.handed && s.heard <= next.heard
            && next.heard <= if e.Arrive? then s.heard + {e.frame} else s.heard
  {
    hide ShutdownStep, ArriveStep, ReceiverStep;
    ShutdownLeaves();
    if e.Arrive? { ArriveLeaves(s, e.receiver, e.frame, e.sendOk); }
    if e.AdvanceReceiver? && e.receiver in s.receivers { ReceiverLeaves(s, e.receiver, s.receivers[e.receiver]); }
  }

  lemma StoppedBy(s: State, e: Event, id: nat)
    requires id in Step(s, e).calls && Step(s, e).calls[id].Interrupted?
    ensures (id in s.calls && s.calls[id].Interrupted?) || e == Abandon(id) || (e == Interrupt(id) && Retires(s, e, id))
  {
    if e.Arrive? || e.AdvanceReceiver? || e.Shutdown? {
      PeerLeavesCalls(s, e);
      hide Step, Retires;
    } else {
      hide RetireSection, AdmitSection, ArriveStep, ReceiverStep, ShutdownStep;
    }
  }

  lemma OrphanStep(s: State, e: Event, id: nat)
    requires Valid(s) && Orphan(Step(s, e), id)
    ensures Orphan(s, id) || (e == Abandon(id) && Has(s.books.pending, id))
  {
    SlotStep(s, e, id);
    StoppedBy(s, e, id);
    if e == Interrupt(id) && Retires(s, e, id) { InterruptedSlot(s, id); }
    ClosedPendingEmpty(s);
    SlotIsACall(s, id);
    hide Valid, Step, Has, Retires;
  }

  lemma SlotIsACall(s: State, id: nat)
    requires Valid(s)
    ensures Has(s.books.pending, id) ==> id in s.calls
  {
  }

  lemma InterruptedSlot(s: State, id: nat)
    requires Valid(s) && Retires(s, Interrupt(id), id)
    ensures !Has(Step(s, Interrupt(id)).books.pending, id)
  {
    ValidBooks(s);
    RetiredSlot(s.limits, s.books, id, id);
    hide Valid, RetireSection, Has;
  }

  /** The caller was stopped outside its wait at a moment when its call held a slot. */
  ghost predicate EverAbandoned(s: State, events: seq<Event>, id: nat) {
    events != [] &&
    var n := |events| - 1;
    || EverAbandoned(s, events[..n], id)
    || (events[n] == Abandon(id) && Has(Run(s, events[..n]).books.pending, id))
  }

  /** Slots without a caller come only from calls stopped between being registered and waiting for the answer. */
  lemma {:induction false} OrphansAreAbandoned(limits: Limits, binding: Binding, events: seq<Event>, id: nat)
    requires Orphan(Run(Init(limits, binding), events), id)
    ensures EverAbandoned(Init(limits, binding), events, id)
  {
    if events == [] {
      NoSlots(id);
    } else {
      hide Valid, Step, Has;
      var n := |events| - 1;
      var s := Run(Init(limits, binding), events[..n]);
      InitValid(limits, binding);
      RunKeeps(Init(limits, binding), events[..n]);
      OrphanStep(s, events[n], id);
      if Orphan(s, id) { OrphansAreAbandoned(limits, binding, events[..n], id); }
    }
  }

  lemma OrphanStepStays(s: State, e: Event, id: nat)
    requires Valid(s) && Orphan(s, id) && forall answer :: Answered(id, answer) !in s.heard
    ensures Step(s, e).books.phase == Closed || Orphan(Step(s, e), id)
  {
    SlotStep(s, e, id);
    StepExtends(s, e);
    assert ReceiversOk(s) by { hide BooksOk, IdsOk, EntriesOk, ResultsOk, Tracked; }
    hide Valid, Step, Has;
  }

  /** And they stay taken: nothing gives back a slot without a caller but an answer, or the end of the connection. */
  lemma {:induction false} OrphanStays(s: State, events: seq<Event>, id: nat)
    requires Valid(s) && Orphan(s, id) && forall answer :: Answered(id, answer) !in Run(s, events).heard
    ensures Run(s, events).books.phase == Closed || Orphan(Run(s, events), id)
  {
    if events == [] {
    } else {
      hide Valid, Step, Orphan;
      var n := |events| - 1;
      var mid := Run(s, events[..n]);
      RunKeeps(s, events[..n]);
      StepExtends(mid, events[n]);
      OrphanStays(s, events[..n], id);
      if mid.books.phase != Closed { OrphanStepStays(mid, events[n], id); }
    }
  }

  /** The id just retired is among those remembered. */
  lemma RetiredIsRemembered(limits: Limits, books: Books, id: nat)
    requires BooksOk(limits, books) && Has(books.pending, id)
    ensures id in RetireSection(limits, books, id).retired
  {
    var grown := AddId(books.retired, id);
    assert grown[|grown| - 1] == id;
    assert Evict(grown, limits.maxInFlightRpcs)[|Evict(grown, limits.maxInFlightRpcs)| - 1] == id;
  }

  /** Retiring an id, exactly: it joins the remembered ones as the newest, and only the oldest are forgotten, never more
      than needed to keep twice the RPC limit. */
  lemma RetiresExactly(limits: Limits, books: Books, id: nat)
    requires BooksOk(limits, books) && Has(books.pending, id)
    ensures var next := RetireSection(limits, books, id);
            var all := books.retired + [id];
            && next.pending == Without(books.pending, id) && next.phase == books.phase
            && next.retired == all[|all| - |next.retired|..]
            && |next.retired| == if |all| <= 2 * limits.maxInFlightRpcs then |all| else 2 * limits.maxInFlightRpcs
  {
    assert id !in books.retired;
    hide Has, Without, BooksOk;
  }

  /** A frame that answered no pending call changes nothing but the list of retired ids when its id is one of them,
      which is then forgotten; otherwise it closes the connection. */
  lemma UnmatchedAnswerExactly(s: State, r: nat)
    requires Valid(s) && r in s.receivers && s.receivers[r].Received?
    ensures var id := s.receivers[r].id;
            var s' := Step(s, AdvanceReceiver(r));
            if id in s.books.retired
            then && s' == s.(receivers := s.receivers - {r}, books := s.books.(retired := s'.books.retired))
                 && forall other :: other in s'.books.retired <==> other in s.books.retired && other != id
            else s'.books.phase == Closed && s'.books.pending == []
  {
    ForgetKeepsIds(s.books.retired, s.receivers[r].id);
  }

  lemma ThreeSteps(s: State, a: Event, b: Event, c: Event)
    ensures Run(s, [a, b, c]) == Step(Step(Step(s, a), b), c)
  {
    hide Step;
    assert [a, b, c][..2] == [a, b] && [a, b][..1] == [a] && [a][..0] == [];
    assert Run(s, [a]) == Step(s, a);
    assert Run(s, [a, b]) == Step(Step(s, a), b);
  }

  lemma RetireSectionRetires(limits: Limits, books: Books, id: nat)
    requires BooksOk(limits, books) && Has(books.pending, id)
    ensures var next := RetireSection(limits, books, id);
            next.phase == books.phase && next.pending == Without(books.pending, id) && !Has(next.pending, id)
            && id in next.retired
  {
    RetiredIsRemembered(limits, books, id);
    WithoutKeepsDistinct(books.pending, id);
    hide Has, Without, Evict, AddId, BooksOk;
  }

  lemma ValidBooks(s: State)
    requires Valid(s)
    ensures BooksOk(s.limits, s.books)
  {
  }

  lemma InterruptRetires(s: State, id: nat)
    requires BooksOk(s.limits, s.books)
    requires id in s.calls && s.calls[id].Sent? && Has(s.books.pending, id)
    ensures var next := Step(s, Interrupt(id));
            && next == s.(books := next.books, calls := s.calls[id := Interrupted(s.calls[id].request)])
            && next.books.phase == s.books.phase && next.books.pending == Without(s.books.pending, id)
            && !Has(next.books.pending, id) && id in next.books.retired
  {
    RetireSectionRetires(s.limits, s.books, id);
    hide RetireSection, Has, Without, BooksOk;
  }

  lemma UnmatchedIsReceived(s: State, r: nat, id: nat, answer: Answer, sendOk: bool)
    requires s.books.phase == Ready && !Has(s.books.pending, id) && r !in s.receivers
    ensures var frame := Answered(id, answer);
            Step(s, Arrive(r, frame, sendOk))
            == s.(heard := s.heard + {frame}, receivers := s.receivers[r := Received(id, answer)])
  {
  }

  /** The answer to a call that was interrupted while it was on the wire is dropped: the connection stays ready, the
      other pending calls keep their places, and no call gets another result. */
  lemma InterruptedAnswerIsDropped(s: State, id: nat, r: nat, answer: Answer, sendOk: bool)
    requires Valid(s) && s.books.phase == Ready
    requires id in s.calls && s.calls[id].Sent? && Has(s.books.pending, id) && r !in s.receivers
    ensures var after := Run(s, [Interrupt(id), Arrive(r, Answered(id, answer), sendOk), AdvanceReceiver(r)]);
            && after.books.phase == Ready && after.books.pending == Without(s.books.pending, id)
            && after.calls == s.calls[id := Interrupted(s.calls[id].request)] && after.results == s.results
            && after.receivers == s.receivers && id !in after.books.retired
  {
    var frame := Answered(id, answer);
    var s1 := Step(s, Interrupt(id));
    var s2 := Step(s1, Arrive(r, frame, sendOk));
    hide *;
    ValidBooks(s);
    StepKeeps(s, Interrupt(id));
    StepKeeps(s1, Arrive(r, frame, sendOk));
    ThreeSteps(s, Interrupt(id), Arrive(r, frame, sendOk), AdvanceReceiver(r));
    InterruptRetires(s, id);
    UnmatchedIsReceived(s1, r, id, answer, sendOk);
    UnmatchedAnswerExactly(s2, r);
    assert s2.receivers - {r} == s.receivers;
  }

  /** Dropping the oldest id is the first part of dropping all that are too many. */
  lemma EvictOldest(ids: seq<nat>, limit: nat)
    requires |ids| > 2 * limit
    ensures Evict(ids[1..], limit) == Evict(ids, limit)
  {
    if |ids[1..]| > 2 * limit { assert ids[1..][|ids[1..]| - 2 * limit..] == ids[|ids| - 2 * limit..]; }
  }

  lemma EvictNothing(ids: seq<nat>, limit: nat)
    requires |ids| <= 2 * limit
    ensures Evict(ids, limit) == ids
  {
  }

  // ----- the server object -----

  /** `makeServer`: the pending and retired collections, the connection state and the identity counter. */
  class Multiplexer {
    const limits: Limits
    var phase: ConnectionPhase
    var pending: seq<Slot<Pending>>
    var retired: seq<nat>
    var nextRpc: nat

    ghost function View(): Books
      reads this
    {
      Books(phase, pending, retired)
    }

    constructor (limits: Limits)
      ensures this.limits == limits && nextRpc == 0 && View() == Books(AwaitingEnrollment, [], [])
    {
      this.limits := limits;
      phase, pending, retired, nextRpc := AwaitingEnrollment, [], [], 0;
    }

    method Allocate() returns (id: nat)
      modifies this`nextRpc
      ensures id == old(nextRpc) && nextRpc == id + 1
    {
      id := nextRpc;
      nextRpc := nextRpc + 1;
    }

    method Admit(id: nat, bytes: nat, expected: Tag, errorPhase: Phase) returns (refused: Option<ExecutorError>)
      modifies this`pending
      ensures (refused, View()) == AdmitSection(limits, old(View()), Slot(id, bytes, Pending(expected, errorPhase)))
    {
      if phase != Ready { return Some(TransportError(Connection)); }
      var currentBytes := TotalBytes(pending);
      if |pending| >= limits.maxInFlightRpcs || currentBytes + bytes > limits.maxInFlightBytes {
        return Some(TransportError(BeforeDispatch));
      }
      pending := pending + [Slot(id, bytes, Pending(expected, errorPhase))];
      return None;
    }

    method Retire(id: nat)
      modifies this`pending, this`retired
      ensures View() == RetireSection(limits, old(View()), id)
    {
      hide Find, Without, Evict;
      ghost var before := View();
      if Find(pending, id).None? { return; }
      pending := Without(pending, id);
      var bounded := if id in retired then retired else retired + [id];
      while |bounded| > limits.maxInFlightRpcs * 2
        invariant View() == before.(pending := Without(before.pending, id))
        invariant Evict(bounded, limits.maxInFlightRpcs) == Evict(AddId(before.retired, id), limits.maxInFlightRpcs)
      {
        EvictOldest(bounded, limits.maxInFlightRpcs);
        bounded := bounded[1..];
      }
      EvictNothing(bounded, limits.maxInFlightRpcs);
      retired := bounded;
    }

    method Close() returns (failed: seq<Slot<Pending>>)
      modifies this`phase, this`pending
      ensures View() == CloseSection(old(View()))
      ensures failed == if old(phase) == Closed then [] else old(pending)
    {
      if phase == Closed { return []; }
      failed := pending;
      phase, pending := Closed, [];
    }
  }
}
