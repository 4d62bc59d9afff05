/** What the RPC multiplexer of the server achieves (packages/execution/src/transport.ts): who is enrolled, which
    calls are sent, and how an answer ends the call it answers. */
module ServerProgress {
  import opened Bindings
  import opened ExecutorContract
  import opened Flow
  import opened RpcServer
  import opened ServerRuns

  // ----- enrolment -----

  const FENCE := FenceError(Field(Protocol))

  /** Enrolment, exactly: an awaiting connection becomes ready, and lets calls through, if and only if the Runner enrols
      with this very, consistent binding and can be told so; any other frame at that point, and any enrolment at another
      point, leaves the connection closed. */
  lemma EnrolsExactly(s: State, receiver: nat, frame: Frame, sendOk: bool)
    requires receiver !in s.receivers && s.books.phase == AwaitingEnrollment && !s.enrolled
    ensures var next := Step(s, Arrive(receiver, frame, sendOk));
            var fits := frame.Enroll? && frame.binding == s.binding && PlacementMatchesWorkspace(s.binding) && sendOk;
            && (next.books.phase == Ready <==> fits) && (next.enrolled <==> fits)
            && (fits ==> next == s.(books := s.books.(phase := Ready), enrolled := true, heard := s.heard + {frame}))
            && (!fits ==> next.books.phase == Closed && next.books.pending == [])
  {
    if frame.Enroll? { FencesAreIdentity(s.binding, frame.binding, ToEvidence(frame.binding)); }
    hide FailAll, SameBinding;
  }

  lemma EnrolsOnce(s: State, receiver: nat, binding: Binding, sendOk: bool)
    requires receiver !in s.receivers && s.books.phase != AwaitingEnrollment
    ensures Step(s, Arrive(receiver, Enroll(binding), sendOk)).books.phase == Closed
  {
    hide FailAll, SameBinding;
  }

  // ----- answers -----

  /** A response of the kind that the request asks for. */
  predicate OfKind(request: Request, response: Response) {
    match request
    case Handshake(_) => response.HandshakeResult?
    case Dispatch(_, _, _) => response.DispatchResult?
    case Receipt(_) => response.ReceiptResult?
    case Cancel(_) => response.CancelResult?
  }

  /** How an answer ends the call it answers. */
  function Ending(request: Request, answer: Answer): Resolution {
    match answer
    case Failure(error) => Refused(error)
    case Success(response) => if OfKind(request, response) then Resolved(response) else Refused(FENCE)
  }

  predicate Matching(request: Request, answer: Answer) {
    answer.Success? ==> OfKind(request, answer.response)
  }

  lemma AnswerIsMatched(s: State, id: nat, r: nat, answer: Answer, sendOk: bool)
    requires EntriesOk(s) && s.books.phase == Ready && id in s.calls && Has(s.books.pending, id) && r !in s.receivers
    ensures Step(s, Arrive(r, Answered(id, answer), sendOk))
         == s.(heard := s.heard + {Answered(id, answer)},
               receivers := s.receivers[r := Matched(id, answer, ResponseTag(s.calls[id].request))])
  {
    var entry := Find(s.books.pending, id).value;
    var i :| 0 <= i < |s.books.pending| && s.books.pending[i].id == id && s.books.pending[i].entry == entry;
    assert entry.expected == ResponseTag(s.calls[id].request);
    hide EntriesOk, Find, Has;
  }

  lemma MatchIsRetired(s: State, r: nat)
    requires BooksOk(s.limits, s.books) && r in s.receivers && s.receivers[r].Matched?
    requires Has(s.books.pending, s.receivers[r].id)
    ensures var pc := s.receivers[r];
            var next := Step(s, AdvanceReceiver(r));
            && next == s.(books := next.books, receivers := s.receivers[r := Delivering(pc.id, pc.answer, pc.expected)])
            && next.books.phase == s.books.phase && next.books.pending == Without(s.books.pending, pc.id)
            && !Has(next.books.pending, pc.id)
  {
    hide BooksOk, RetireSection, Has, Without, DeliverStep, ShutdownStep, Forget;
    RetireSectionRetires(s.limits, s.books, s.receivers[r].id);
  }

  lemma KindsAgree(request: Request, response: Response)
    ensures OfKind(request, response) <==> TagOf(response) == ResponseTag(request)
  {
  }

  lemma Delivers(s: State, id: nat, answer: Answer, request: Request)
    requires id !in s.results && s.books.phase == Ready
    ensures var next := DeliverStep(s, id, answer, ResponseTag(request));
            && id in next.results && next.results[id] == Ending(request, answer) && next.calls == s.calls
            && (Matching(request, answer) ==> next == s.(results := s.results[id := Ending(request, answer)]))
            && (!Matching(request, answer) ==> next.books.phase == Closed && next.books.pending == [])
  {
    if answer.Success? { KindsAgree(request, answer.response); }
    hide FailAll, OfKind, TagOf, ResponseTag;
  }

  lemma AnswerIsDelivered(s: State, r: nat)
    requires r in s.receivers && s.receivers[r].Delivering? && s.receivers[r].id !in s.results
    requires s.books.phase == Ready && s.receivers[r].id in s.calls
    requires s.receivers[r].expected == ResponseTag(s.calls[s.receivers[r].id].request)
    ensures var pc := s.receivers[r];
            var request := s.calls[pc.id].request;
            var next := Step(s, AdvanceReceiver(r));
            && pc.id in next.results && next.results[pc.id] == Ending(request, pc.answer) && next.calls == s.calls
            && (Matching(request, pc.answer) ==>
                  next == s.(receivers := s.receivers - {r},
                             results := s.results[pc.id := Ending(request, pc.answer)]))
            && (!Matching(request, pc.answer) ==> next.books.phase == Closed && next.books.pending == [])
  {
    hide DeliverStep, ShutdownStep, RetireSection, Forget, Ending, Matching, ResponseTag;
    var pc := s.receivers[r];
    Delivers(s.(receivers := s.receivers - {r}), pc.id, pc.answer, s.calls[pc.id].request);
  }

  lemma ResultIsTaken(s: State, id: nat)
    requires id in s.calls && s.calls[id].Sent? && id in s.results && !Has(s.books.pending, id)
    ensures Step(s, Finish(id)) == s.(calls := s.calls[id := Done(s.calls[id].request, s.results[id])])
  {
    hide Has;
  }

  lemma FourSteps(s: State, a: Event, b: Event, c: Event, d: Event)
    ensures Run(s, [a, b, c, d]) == Step(Step(Step(Step(s, a), b), c), d)
  {
    ThreeSteps(s, a, b, c);
    assert [a, b, c, d][..3] == [a, b, c];
    hide Step;
  }

  /** An answer ends its call, exactly: a response of the kind asked for is what the call succeeds with, and an
      error what it fails with, while the connection stays ready and all other calls stay pending; a response of
      another kind fails it with the protocol fence and closes the connection. */
  lemma AnswerEndsCall(s: State, id: nat, r: nat, answer: Answer, sendOk: bool)
    requires Valid(s) && s.books.phase == Ready
    requires id in s.calls && s.calls[id].Sent? && Has(s.books.pending, id) && r !in s.receivers
    ensures var after := Run(s, [Arrive(r, Answered(id, answer), sendOk), AdvanceReceiver(r), AdvanceReceiver(r),
                                 Finish(id)]);
            var request := s.calls[id].request;
            && after.calls == s.calls[id := Done(request, Ending(request, answer))]
            && (if Matching(request, answer)
                then after.books.phase == Ready && after.books.pending == Without(s.books.pending, id)
                     && after.results == s.results[id := Ending(request, answer)]
                else after.books.phase == Closed && after.books.pending == [])
  {
    var arrive := Arrive(r, Answered(id, answer), sendOk);
    var s1 := Step(s, arrive);
    var s2 := Step(s1, AdvanceReceiver(r));
    var s3 := Step(s2, AdvanceReceiver(r));
    PendingIsOpen(s, id);
    NoSlots(id);
    hide Step, Run, Valid, BooksOk, EntriesOk, Has, Without, Ending, Matching;
    FourSteps(s, arrive, AdvanceReceiver(r), AdvanceReceiver(r), Finish(id));
    AnswerIsMatched(s, id, r, answer, sendOk);
    MatchIsRetired(s1, r);
    AnswerIsDelivered(s2, r);
    ResultIsTaken(s3, id);
  }

  lemma PendingIsOpen(s: State, id: nat)
    requires Valid(s) && Has(s.books.pending, id)
    ensures id !in s.results && EntriesOk(s) && BooksOk(s.limits, s.books)
  {
    hide BooksOk, EntriesOk, ReceiversOk, ResultsOk, Tracked;
  }

  // ----- whole calls -----

  /** There is room for one more call of that size. */
  predicate Room(s: State, bytes: nat) {
    |s.books.pending| < s.limits.maxInFlightRpcs && Bytes(s.books.pending) + bytes <= s.limits.maxInFlightBytes
  }

  /** The frame is within the bound for its kind of request. */
  predicate Short(s: State, request: Request, bytes: nat) {
    bytes <= if request.Dispatch? then 65536 else s.limits.maxFrameBytes
  }

  function SlotOf(id: nat, request: Request, bytes: nat): Slot<Pending> {
    Slot(id, bytes, Pending(ResponseTag(request), RequestPhase(request)))
  }

  lemma FreshId(s: State)
    requires Valid(s)
    ensures var id := s.nextRpc; id !in s.calls && id !in s.results && !Has(s.books.pending, id) && id !in s.handed
  {
    assert IdsOk(s);
    hide BooksOk, EntriesOk, ReceiversOk, ResultsOk, Tracked;
  }

  lemma Allocates(s: State, request: Request, bytes: nat)
    requires s.enrolled
    ensures var call := if Short(s, request, bytes) then Allocated(request, bytes)
                        else Done(request, Refused(TransportError(BeforeDispatch)));
            Step(s, CallRpc(request, bytes)) == s.(nextRpc := s.nextRpc + 1, calls := s.calls[s.nextRpc := call])
  {
  }

  lemma Registers(s: State, id: nat)
    requires id in s.calls
    ensures var call := s.calls[id];
            Step(s, Admit(id))
            == if !call.Allocated? then s
               else if s.books.phase != Ready
               then s.(calls := s.calls[id := Done(call.request, Refused(TransportError(Connection)))])
               else if !Room(s, call.bytes)
               then s.(calls := s.calls[id := Done(call.request, Refused(TransportError(BeforeDispatch)))])
               else s.(calls := s.calls[id := Registered(call.request)],
                       books := s.books.(pending := s.books.pending + [SlotOf(id, call.request, call.bytes)]))
  {
    hide Bytes;
  }

  lemma Sends(s: State, id: nat, ok: bool)
    requires id in s.calls
    ensures var call := s.calls[id];
            Step(s, Send(id, ok))
            == if !call.Registered? then s
               else if ok then s.(calls := s.calls[id := Sent(call.request)], handed := s.handed + {id})
               else s.(calls := s.calls[id := SendFailed(call.request)])
  {
  }

  lemma Ends(s: State, id: nat)
    requires id in s.calls && id !in s.results
    requires s.calls[id].SendFailed? ==> Has(s.books.pending, id)
    ensures var call := s.calls[id];
            var next := Step(s, Finish(id));
            if !call.SendFailed? then next == s
            else
              && next.calls == s.calls[id := Done(call.request, Refused(TransportError(BeforeDispatch)))]
              && next.books.phase == s.books.phase && next.books.pending == Without(s.books.pending, id)
              && next.handed == s.handed && next.nextRpc == s.nextRpc && next.receivers == s.receivers
  {
    hide Has, Evict, AddId;
  }

  lemma SlotIsThere(pending: seq<Slot<Pending>>, slot: Slot<Pending>)
    ensures Has(pending + [slot], slot.id)
  {
    assert (pending + [slot])[|pending|] == slot;
  }

  /** A call up to the wait for its answer, exactly: it is refused before dispatch if its frame is too long or there
      is no room for it, refused for the connection if that is not ready, and else pending under the next id, with
      its frame handed to the peer; if the peer does not take the frame it is refused before dispatch and gives its
      slot back. */
  lemma CallIsSentExactly(s: State, request: Request, bytes: nat, ok: bool)
    requires Valid(s) && s.enrolled
    ensures var id := s.nextRpc;
            var after := Run(s, [CallRpc(request, bytes), Admit(id), Send(id, ok), Finish(id)]);
            && id in after.calls && after.nextRpc == id + 1 && after.books.phase == s.books.phase
            && after.receivers == s.receivers
            && (if !Short(s, request, bytes) || (s.books.phase == Ready && !Room(s, bytes))
                then after.calls[id] == Done(request, Refused(TransportError(BeforeDispatch)))
                     && after.books == s.books && after.handed == s.handed
                else if s.books.phase != Ready
                then after.calls[id] == Done(request, Refused(TransportError(Connection)))
                     && after.books == s.books && after.handed == s.handed
                else if ok
                then after.calls[id] == Sent(request)
                  && after.books.pending == s.books.pending + [SlotOf(id, request, bytes)]
                     && after.handed == s.handed + {id}
                else after.calls[id] == Done(request, Refused(TransportError(BeforeDispatch)))
                     && after.books.pending == Without(s.books.pending + [SlotOf(id, request, bytes)], id)
                     && after.handed == s.handed)
  {
    var id := s.nextRpc;
    var s1 := Step(s, CallRpc(request, bytes));
    var s2 := Step(s1, Admit(id));
    var s3 := Step(s2, Send(id, ok));
    assert Room(s1, bytes) == Room(s, bytes) by { Allocates(s, request, bytes); hide Step, Bytes; }
    hide Valid, Bytes, Without, Step, Run, Short, Room, Has;
    FreshId(s);
    FourSteps(s, CallRpc(request, bytes), Admit(id), Send(id, ok), Finish(id));
    Allocates(s, request, bytes);
    Registers(s1, id);
    Sends(s2, id, ok);
    SlotIsThere(s.books.pending, SlotOf(id, request, bytes));
    Ends(s3, id);
  }

  /** Whole calls: with room for it, a call whose frame the peer takes ends with the answer to it. */
  lemma CallIsAnswered(s: State, request: Request, bytes: nat, r: nat, answer: Answer, sendOk: bool)
    requires Valid(s) && s.enrolled && s.books.phase == Ready && r !in s.receivers
    requires Short(s, request, bytes) && Room(s, bytes)
    ensures var id := s.nextRpc;
            var sent := Run(s, [CallRpc(request, bytes), Admit(id), Send(id, true), Finish(id)]);
            var after := Run(sent, [Arrive(r, Answered(id, answer), sendOk), AdvanceReceiver(r), AdvanceReceiver(r),
                                    Finish(id)]);
            id in after.calls && after.calls[id] == Done(request, Ending(request, answer))
  {
    var id := s.nextRpc;
    var events := [CallRpc(request, bytes), Admit(id), Send(id, true), Finish(id)];
    var sent := Run(s, events);
    hide Valid, Step, Run, Short, Room, Has, Ending, Bytes;
    CallIsSentExactly(s, request, bytes, true);
    RunKeeps(s, events);
    SlotIsThere(s.books.pending, SlotOf(id, request, bytes));
    AnswerEndsCall(sent, id, r, answer, sendOk);
  }

  // ----- the end of a connection -----

  /** What the end of a connection tells each pending call: the fence, or where the call stood, by its kind. */
  lemma ShutdownTells(s: State, error: ExecutorError, future: seq<Event>, id: nat)
    requires Valid(s) && s.books.phase != Closed && Has(s.books.pending, id)
    ensures var later := Run(ShutdownStep(s, error), future);
            && id in later.results && id in s.calls
            && later.results[id]
               == Refused(if error.FenceError? then error
                          else match s.calls[id].request
                            case Handshake(_) => TransportError(HandshakePhase)
                            case Dispatch(_, _, _) => TransportError(AfterDispatch)
                            case Receipt(_) => TransportError(ReceiptPhase)
                            case Cancel(_) => TransportError(CancelPhase))
  {
    hide Valid, Run, ShutdownStep, Has;
    ShutdownIsFinal(s, error, future, id);
  }
}
