/** The Runner end of the WebSocket (packages/runner/src/transport.ts): enrolment, the bounded table of requests being
    served, and the one answer each of them gets. */
module RunnerTransport {
  import opened Bindings
  import opened ExecutorContract
  import opened Flow
  import S = RpcServer

  datatype Phase = Created | Awaiting | Ready | Closed

  /** The Runner refuses smaller frames than the default, the server only frames smaller than a receipt. */
  function ResolveLimits(limits: S.Limits): Option<S.Limits> {
    if limits.maxFrameBytes >= S.DEFAULT_LIMITS.maxFrameBytes && 1 <= limits.maxInFlightRpcs <= 128
       && limits.maxFrameBytes <= limits.maxInFlightBytes <= S.MAX_BYTES_CEILING
    then Some(limits) else None
  }

  /** What `executeRequest` ended with; a defect has no typed error. */
  datatype Exit = Answered(response: S.Response) | Typed(error: ExecutorError) | Defect

  /** A request being served by a fiber; `answered` once its frame was sent or refused by the peer. */
  datatype Handler = Serving(id: nat, tag: S.Tag) | Replied(id: nat, tag: S.Tag) | Released(id: nat, tag: S.Tag)

  datatype Waiting = Waiting(id: nat, bytes: nat, tag: S.Tag)

  datatype Sent = EnrollFrame | Reply(serial: nat, id: nat, answer: S.Answer)

  /** `serial` names accepted requests in order; a table entry holds the serial of its request. */
  datatype State = State(
    limits: S.Limits,
    binding: Binding,
    phase: Phase,
    active: seq<Slot<nat>>,
    serial: nat,
    waiting: map<nat, Waiting>,
    refused: set<nat>,
    handlers: map<nat, Handler>,
    sent: seq<Sent>)

  function Init(limits: S.Limits, binding: Binding): State {
    State(limits, binding, Created, [], 0, map[], {}, map[], [])
  }

  datatype Event =
    | Opened(sendOk: bool)
    | Enrolled(evidence: Evidence)
    | Malformed
    | Arrive(fiber: nat, id: nat, bytes: nat, tag: S.Tag)
    | Admit(fiber: nat)
    | Turn(fiber: nat)
    | Finish(serial: nat, exit: Exit, sendOk: bool)
    | Release(serial: nat)
    | Disconnect

  function Close(s: State): State { s.(phase := Closed) }

  /** The phase of the failure sent for a request that ended without a typed error. */
  function PhaseFor(tag: S.Tag): ExecutorContract.Phase {
    match tag
    case HandshakeTag => HandshakePhase
    case DispatchTag => AfterDispatch
    case ReceiptTag => ReceiptPhase
    case CancelTag => CancelPhase
  }

  function AnswerFor(tag: S.Tag, exit: Exit): S.Answer {
    match exit
    case Answered(response) => S.Success(response)
    case Typed(error) => S.Failure(error)
    case Defect => S.Failure(TransportError(PhaseFor(tag)))
  }

  /** `executeRequest` answers each kind of request with its own kind of response. */
  predicate Faithful(tag: S.Tag, exit: Exit) {
    exit.Answered? ==> S.TagOf(exit.response) == tag
  }

  function OpenStep(s: State, sendOk: bool): State {
    if s.phase != Created then s
    else s.(phase := Awaiting, sent := if sendOk then s.sent + [EnrollFrame] else s.sent)
  }

  /** The evidence is compared and the state set in one synchronous stretch. */
  function EnrollStep(s: State, evidence: Evidence): State {
    if s.phase != Awaiting || !SameEvidence(s.binding, evidence) then Close(s) else s.(phase := Ready)
  }

  /** The phase is read before the lock is taken. */
  function ArriveStep(s: State, fiber: nat, frame: Waiting): State {
    if fiber in s.waiting || fiber in s.refused then s
    else if frame.bytes > s.limits.maxFrameBytes || s.phase != Ready then Close(s)
    else s.(waiting := s.waiting[fiber := frame])
  }

  /** The locked part of `receive`. */
  function AdmitSection(limits: S.Limits, active: seq<Slot<nat>>, id: nat, bytes: nat, serial: nat)
    : Option<seq<Slot<nat>>>
  {
    if Find(active, id).Some? || !Fits(active, bytes, limits.maxInFlightRpcs, limits.maxInFlightBytes) then None
    else Some(active + [Slot(id, bytes, serial)])
  }

  function AdmitStep(s: State, fiber: nat): State {
    if fiber !in s.waiting then s
    else
      var frame, rest := s.waiting[fiber], s.(waiting := s.waiting - {fiber});
      match AdmitSection(s.limits, s.active, frame.id, frame.bytes, s.serial)
      case None => rest.(refused := s.refused + {fiber})
      case Some(active) =>
        rest.(active := active, serial := s.serial + 1,
              handlers := s.handlers[s.serial := Serving(frame.id, frame.tag)])
  }

  /** A refused request closes the connection, in a critical section of its own. */
  function TurnStep(s: State, fiber: nat): State {
    if fiber !in s.refused then s else Close(s.(refused := s.refused - {fiber}))
  }

  /** `handle` sends its one frame; a frame that cannot be sent closes the connection instead. */
  function FinishStep(s: State, serial: nat, exit: Exit, sendOk: bool): State {
    if serial !in s.handlers || !s.handlers[serial].Serving? || !Faithful(s.handlers[serial].tag, exit) then s
    else
      var handler := s.handlers[serial];
      var next := s.(handlers := s.handlers[serial := Replied(handler.id, handler.tag)]);
      if sendOk then next.(sent := s.sent + [Reply(serial, handler.id, AnswerFor(handler.tag, exit))]) else Close(next)
  }

  /** `complete` runs whether the handler ended or was interrupted. */
  function ReleaseStep(s: State, serial: nat): State {
    if serial !in s.handlers || s.handlers[serial].Released? then s
    else
      var handler := s.handlers[serial];
      s.(handlers := s.handlers[serial := Released(handler.id, handler.tag)], active := Without(s.active, handler.id))
  }

  function Step(s: State, e: Event): State {
    match e
    case Opened(sendOk) => OpenStep(s, sendOk)
    case Enrolled(evidence) => EnrollStep(s, evidence)
    case Malformed => Close(s)
    case Arrive(fiber, id, bytes, tag) => ArriveStep(s, fiber, Waiting(id, bytes, tag))
    case Admit(fiber) => AdmitStep(s, fiber)
    case Turn(fiber) => TurnStep(s, fiber)
    case Finish(serial, exit, sendOk) => FinishStep(s, serial, exit, sendOk)
    case Release(serial) => ReleaseStep(s, serial)
    case Disconnect => Close(s)
  }

  function Run(s: State, events: seq<Event>): State {
    if events == [] then s else Step(Run(s, events[..|events| - 1]), events[|events| - 1])
  }

  // ----- invariant -----

  ghost predicate TableOk(s: State) {
    && Distinct(s.active)
    && |s.active| <= s.limits.maxInFlightRpcs && Bytes(s.active) <= s.limits.maxInFlightBytes
  }

  /** The table holds exactly the requests not completed yet. */
  ghost predicate Owned(s: State) {
    && (forall serial :: serial in s.handlers ==> serial < s.serial)
    && (forall slot :: slot in s.active ==>
          slot.entry in s.handlers && !s.handlers[slot.entry].Released? && s.handlers[slot.entry].id == slot.id)
    && (forall serial :: serial in s.handlers && !s.handlers[serial].Released? ==>
          exists slot :: slot in s.active && slot.entry == serial)
  }

  /** Every answer sent belongs to one accepted request, which had not been answered before. */
  ghost predicate AnswersOk(s: State) {
    && (forall i :: 0 <= i < |s.sent| && s.sent[i].Reply? ==> RepliesTo(s, s.sent[i]))
    && (forall i, j :: 0 <= i < j < |s.sent| && s.sent[i].Reply? && s.sent[j].Reply? ==>
        s.sent[i].serial != s.sent[j].serial)
  }

  predicate RepliesTo(s: State, frame: Sent)
    requires frame.Reply?
  {
    && frame.serial in s.handlers && !s.handlers[frame.serial].Serving? && s.handlers[frame.serial].id == frame.id
    && (frame.answer.Success? ==> S.TagOf(frame.answer.response) == s.handlers[frame.serial].tag)
  }

  /** The connection enrolled at most once, with the binding it serves. */
  ghost predicate PhaseOk(s: State) {
    && (s.phase == Created ==> s.sent == [] && s.waiting == map[] && s.handlers == map[])
    && (s.phase == Awaiting ==> s.waiting == map[] && s.handlers == map[])
  }

  ghost predicate Valid(s: State) {
    TableOk(s) && Owned(s) && AnswersOk(s) && PhaseOk(s)
  }

  lemma AdmitKeeps(s: State, fiber: nat)
    requires Valid(s)
    ensures Valid(AdmitStep(s, fiber))
  {
    if fiber in s.waiting {
      var frame := s.waiting[fiber];
      var next := AdmitStep(s, fiber);
      if next.serial == s.serial + 1 {
        var slot := Slot(frame.id, frame.bytes, s.serial);
        assert next.active == s.active + [slot];
        AddKeepsLimits(s.active, slot, s.limits.maxInFlightRpcs, s.limits.maxInFlightBytes);
        hide Bytes, Has, Find, Fits, Distinct, AdmitSection, AdmitStep;
        assert slot in next.active;
        forall serial | serial in next.handlers && !next.handlers[serial].Released?
          ensures exists slot :: slot in next.active && slot.entry == serial
        {
          if serial != s.serial {
            var old_ :| old_ in s.active && old_.entry == serial;
            assert old_ in next.active;
          }
        }
        assert Owned(next);
        assert AnswersOk(next);
      }
    }
  }

  lemma FinishKeeps(s: State, serial: nat, exit: Exit, sendOk: bool)
    requires Valid(s)
    ensures Valid(FinishStep(s, serial, exit, sendOk))
  {
    hide Bytes, Distinct;
    var next := FinishStep(s, serial, exit, sendOk);
    forall other | other in next.handlers && !next.handlers[other].Released?
      ensures exists slot :: slot in next.active && slot.entry == other
    {
      var slot :| slot in s.active && slot.entry == other;
      assert slot in next.active;
    }
  }

  lemma SameSlot<T>(table: seq<Slot<T>>, a: Slot<T>, b: Slot<T>)
    requires Distinct(table) && a in table && b in table && a.id == b.id
    ensures a == b
  {
    var i :| 0 <= i < |table| && table[i] == a;
    var j :| 0 <= j < |table| && table[j] == b;
  }

  lemma WithoutMembers<T>(table: seq<Slot<T>>, id: nat)
    ensures forall slot :: slot in Without(table, id) <==> slot in table && slot.id != id
  {
    var rest := Without(table, id);
    forall slot | slot in table && slot.id != id ensures slot in rest {
      var i :| 0 <= i < |table| && table[i] == slot;
    }
    forall slot | slot in rest ensures slot in table && slot.id != id {
      var i :| 0 <= i < |rest| && rest[i] == slot;
    }
  }

  lemma ReleaseOwned(s: State, serial: nat, after: seq<Slot<nat>>)
    requires Owned(s) && TableOk(s) && serial in s.handlers && !s.handlers[serial].Released?
    requires forall slot :: slot in after <==> slot in s.active && slot.id != s.handlers[serial].id
    ensures Owned(s.(handlers := s.handlers[serial := Released(s.handlers[serial].id, s.handlers[serial].tag)],
                     active := after))
  {
    var own :| own in s.active && own.entry == serial;
    forall slot | slot in s.active && slot.id == own.id ensures slot == own { SameSlot(s.active, slot, own); }
    hide Distinct;
    forall other | other in s.handlers && other != serial && !s.handlers[other].Released?
      ensures exists slot :: slot in after && slot.entry == other
    {
      var slot :| slot in s.active && slot.entry == other;
      assert slot in after;
    }
  }

  lemma ReleaseTable(s: State, serial: nat)
    requires TableOk(s)
    ensures TableOk(ReleaseStep(s, serial))
  {
    if serial in s.handlers { WithoutKeepsDistinct(s.active, s.handlers[serial].id); }
    hide Distinct, Has, Find;
  }

  lemma ReleaseAnswers(s: State, serial: nat)
    requires AnswersOk(s) && PhaseOk(s)
    ensures AnswersOk(ReleaseStep(s, serial)) && PhaseOk(ReleaseStep(s, serial))
  {
    hide Without;
  }

  lemma ReleaseKeeps(s: State, serial: nat)
    requires Valid(s)
    ensures Valid(ReleaseStep(s, serial))
  {
    ReleaseTable(s, serial);
    ReleaseAnswers(s, serial);
    hide TableOk, AnswersOk, PhaseOk;
    if serial in s.handlers && !s.handlers[serial].Released? {
      var after := Without(s.active, s.handlers[serial].id);
      WithoutMembers(s.active, s.handlers[serial].id);
      hide Owned, Without, Distinct;
      ReleaseOwned(s, serial, after);
    }
  }

  lemma StepKeeps(s: State, e: Event)
    requires Valid(s)
    ensures Valid(Step(s, e))
  {
    match e
    case Admit(fiber) => AdmitKeeps(s, fiber);
    case Finish(serial, exit, sendOk) => FinishKeeps(s, serial, exit, sendOk);
    case Release(serial) => ReleaseKeeps(s, serial);
    case _ => hide Bytes, Distinct, SameEvidence;
  }

  lemma StepSettings(s: State, e: Event)
    ensures Step(s, e).limits == s.limits && Step(s, e).binding == s.binding
  {
    hide AdmitSection, Without, SameEvidence;
  }

  lemma {:induction false} RunKeeps(s: State, events: seq<Event>)
    requires Valid(s)
    ensures Valid(Run(s, events)) && Run(s, events).limits == s.limits && Run(s, events).binding == s.binding
  {
    if events == [] {
    } else {
      RunKeeps(s, events[..|events| - 1]);
      StepKeeps(Run(s, events[..|events| - 1]), events[|events| - 1]);
      StepSettings(Run(s, events[..|events| - 1]), events[|events| - 1]);
      hide Step, Valid;
    }
  }

  predicate InFlight(s: State, serial: nat) {
    serial in s.handlers && !s.handlers[serial].Released?
  }

  /** Flow control: in every reachable state no two requests in flight share an id, their number and bytes stay
      within the limits, and each accepted request has been answered at most once, under its own id and with its own
      kind of response. */
  lemma FlowControl(given: S.Limits, binding: Binding, events: seq<Event>)
    requires ResolveLimits(given).Some?
    ensures var s := Run(Init(given, binding), events);
            && |s.active| <= given.maxInFlightRpcs <= 128
            && Bytes(s.active) <= given.maxInFlightBytes <= S.MAX_BYTES_CEILING
            && (forall a, b :: InFlight(s, a) && InFlight(s, b) && a != b ==> s.handlers[a].id != s.handlers[b].id)
            && AnswersOk(s)
  {
    RunKeeps(Init(given, binding), events);
    var s := Run(Init(given, binding), events);
    forall a, b | InFlight(s, a) && InFlight(s, b) && a != b
      ensures s.handlers[a].id != s.handlers[b].id
    {
      var slotA :| slotA in s.active && slotA.entry == a;
      var slotB :| slotB in s.active && slotB.entry == b;
      assert slotA.id == slotB.id ==> slotA == slotB by {
        if slotA.id == slotB.id { SameSlot(s.active, slotA, slotB); }
      }
    }
  }

  predicate IsOwnEnrolment(binding: Binding, e: Event) {
    e.Enrolled? && SameEvidence(binding, e.evidence)
  }

  /** Nothing is served before the server has enrolled this Runner's own binding. */
  lemma {:induction false} EnrolmentIsFenced(limits: S.Limits, binding: Binding, events: seq<Event>)
    ensures var s := Run(Init(limits, binding), events);
            s.binding == binding &&
            (s.phase == Ready || s.waiting != map[] || s.handlers != map[] ==>
              exists i :: 0 <= i < |events| && IsOwnEnrolment(binding, events[i]))
  {
    if events == [] {
    } else {
      var past, e := events[..|events| - 1], events[|events| - 1];
      EnrolmentIsFenced(limits, binding, past);
      var before := Run(Init(limits, binding), past);
      if before.phase == Ready || before.waiting != map[] || before.handlers != map[] {
        var i :| 0 <= i < |past| && IsOwnEnrolment(binding, past[i]);
        assert events[i] == past[i];
      } else {
        assert Run(Init(limits, binding), events).phase == Ready ==> IsOwnEnrolment(binding, events[|events| - 1]);
      }
    }
  }

  lemma ClosedStep(s: State, e: Event)
    requires s.phase == Closed
    ensures var next := Step(s, e);
            next.phase == Closed && next.waiting.Keys <= s.waiting.Keys
            && next.serial + |next.waiting| <= s.serial + |s.waiting|
  {
    hide AdmitSection, Without;
    if e.Admit? && e.fiber in s.waiting {
      assert (s.waiting - {e.fiber}).Keys == s.waiting.Keys - {e.fiber};
      assert |s.waiting - {e.fiber}| == |(s.waiting - {e.fiber}).Keys| && |s.waiting| == |s.waiting.Keys|;
    }
  }

  /** Closing is final; only requests that had passed the phase check before can still be accepted. */
  lemma {:induction false} ClosedIsFinal(s: State, events: seq<Event>)
    requires s.phase == Closed
    ensures var after := Run(s, events);
            after.phase == Closed && after.waiting.Keys <= s.waiting.Keys
            && after.serial + |after.waiting| <= s.serial + |s.waiting|
  {
    if events == [] {
    } else {
      ClosedIsFinal(s, events[..|events| - 1]);
      ClosedStep(Run(s, events[..|events| - 1]), events[|events| - 1]);
      hide Step;
    }
  }

  /** Limits the Runner accepts suit the server too; the server also accepts smaller frames than the Runner does. */
  lemma LimitsAgree(limits: S.Limits)
    ensures ResolveLimits(limits).Some? <==>
              S.ResolveLimits(limits).Some? && limits.maxFrameBytes >= S.DEFAULT_LIMITS.maxFrameBytes
  {
  }

  /** The table of `makeClient`, changed in place under its lock. */
  class ActiveTable {
    const limits: S.Limits
    var active: seq<Slot<nat>>
    var serial: nat

    constructor (limits: S.Limits)
      ensures this.limits == limits && active == [] && serial == 0
    {
      this.limits := limits;
      active, serial := [], 0;
    }

    /** The locked part of `receive`. */
    method Admit(id: nat, bytes: nat) returns (accepted: bool)
      modifies this
      ensures var r := AdmitSection(limits, old(active), id, bytes, old(serial));
              accepted == r.Some? && active == (if accepted then r.value else old(active))
      ensures serial == (if accepted then old(serial) + 1 else old(serial))
      ensures old(Distinct(active)) ==> Distinct(active)
    {
      var total := TotalBytes(active);
      if Find(active, id).Some? { return false; }
      if |active| >= limits.maxInFlightRpcs || total + bytes > limits.maxInFlightBytes { return false; }
      AddKeepsDistinct(active, Slot(id, bytes, serial));
      active := active + [Slot(id, bytes, serial)];
      serial := serial + 1;
      return true;
    }

    method Complete(id: nat)
      modifies this`active
      ensures active == Without(old(active), id)
      ensures old(Distinct(active)) ==> Distinct(active) && !Has(active, id)
    {
      if Distinct(active) { WithoutKeepsDistinct(active, id); }
      active := Without(active, id);
    }
  }

  lemma AddKeepsDistinct(table: seq<Slot<nat>>, slot: Slot<nat>)
    requires !Has(table, slot.id)
    ensures Distinct(table) ==> Distinct(table + [slot])
  {
  }

  // ----- what a connection achieves -----

  /** Enrolment, exactly: a connection that is awaiting it becomes ready if and only if the evidence is its own
      binding's, and is closed by anything else. */
  lemma EnrolsExactly(s: State, evidence: Evidence)
    ensures Step(s, Enrolled(evidence))
         == s.(phase := if s.phase == Awaiting && evidence == ToEvidence(s.binding) then Ready else Closed)
  {
    FencesAreIdentity(s.binding, s.binding, evidence);
    hide SameEvidence;
  }

  /** There is room for one more request of that size under that id. */
  ghost predicate Room(s: State, id: nat, bytes: nat) {
    && !Has(s.active, id) && |s.active| < s.limits.maxInFlightRpcs
    && Bytes(s.active) + bytes <= s.limits.maxInFlightBytes
  }

  /** What the peer is told of how a request ended. */
  function Told(tag: S.Tag, exit: Exit): S.Answer {
    match exit
    case Answered(response) => S.Success(response)
    case Typed(error) => S.Failure(error)
    case Defect => S.Failure(TransportError(match tag
                                            case HandshakeTag => HandshakePhase
                                            case DispatchTag => AfterDispatch
                                            case ReceiptTag => ReceiptPhase
                                            case CancelTag => CancelPhase))
  }

  /** Requests, exactly: one that arrives at a ready connection within the frame bound is taken on if there is room
      for it, under the next serial, and closes the connection otherwise. */
  lemma RequestIsTakenExactly(s: State, fiber: nat, id: nat, bytes: nat, tag: S.Tag)
    requires s.phase == Ready && fiber !in s.waiting && fiber !in s.refused && bytes <= s.limits.maxFrameBytes
    ensures var after := Step(Step(Step(s, Arrive(fiber, id, bytes, tag)), Admit(fiber)), Turn(fiber));
            && after.sent == s.sent && after.waiting == s.waiting && after.refused == s.refused
            && if Room(s, id, bytes)
               then after == s.(active := s.active + [Slot(id, bytes, s.serial)], serial := s.serial + 1,
                                handlers := s.handlers[s.serial := Serving(id, tag)])
               else after.phase == Closed && after.active == s.active && after.handlers == s.handlers
  {
    hide Bytes, Has;
    assert s.waiting[fiber := Waiting(id, bytes, tag)] - {fiber} == s.waiting;
    assert s.refused + {fiber} - {fiber} == s.refused;
  }

  /** A request that has been taken on is answered: under its own id, with what its execution ended with, and its
      place in the table is given back, to no other's loss. */
  lemma RequestIsAnswered(s: State, serial: nat, before: seq<Slot<nat>>, slot: Slot<nat>, after: seq<Slot<nat>>,
                          exit: Exit)
    requires serial in s.handlers && s.handlers[serial].Serving? && slot.id == s.handlers[serial].id
    requires s.active == before + [slot] + after && Absent(before, slot.id) && Absent(after, slot.id)
    requires exit.Answered? ==> S.TagOf(exit.response) == s.handlers[serial].tag
    ensures var done := Step(Step(s, Finish(serial, exit, true)), Release(serial));
            && done.sent == s.sent + [Reply(serial, slot.id, Told(s.handlers[serial].tag, exit))]
            && done.active == before + after && done.phase == s.phase
            && done.handlers == s.handlers[serial := Released(slot.id, s.handlers[serial].tag)]
  {
    hide Absent, Without;
    WithoutKeepsTheRest(before, slot, after);
    var tag := s.handlers[serial].tag;
    assert s.handlers[serial := Replied(slot.id, tag)][serial := Released(slot.id, tag)]
        == s.handlers[serial := Released(slot.id, tag)];
  }

  /** A connection opens once: it then awaits its enrolment, for which it has asked if the peer took the frame. */
  lemma OpensExactly(s: State, sendOk: bool)
    ensures Step(s, Opened(sendOk))
         == if s.phase != Created then s
            else s.(phase := Awaiting, sent := s.sent + if sendOk then [EnrollFrame] else [])
  {
  }

  /** A request that comes too early, too late or too long closes the connection, and is not taken on. */
  lemma UnfitRequestCloses(s: State, fiber: nat, id: nat, bytes: nat, tag: S.Tag)
    requires fiber !in s.waiting && fiber !in s.refused
    requires s.phase != Ready || bytes > s.limits.maxFrameBytes
    ensures Step(s, Arrive(fiber, id, bytes, tag)) == s.(phase := Closed)
  {
  }
}
