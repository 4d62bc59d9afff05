/** Box enrolment tickets (apps/api/src/executor/box-enrollment.ts): short-lived, for one Box and one assignment,
    taken at most once. Tickets are random and fresh, and their digests never collide, so a ticket stands for its
    own key. */
module Enrollment {
  import opened Bindings

  const MAX_TICKETS := 256
  const LIFETIME_MILLIS := 60_000

  datatype Target = OrbTarget | RunnerTarget

  /** A Thread's execution binding; `identity` stands for the remaining fields of its partition. */
  datatype ThreadBinding = ThreadBinding(identity: string, target: Target, workspace: Binding)

  datatype Grant = Grant(boxId: string, binding: ThreadBinding, expiresAt: int)

  function AssignmentOf(grant: Grant): string { grant.binding.workspace.assignmentId }

  datatype Authority = Authority(closed: bool, grants: map<nat, Grant>)

  // ----- the two modifications of the Ref -----

  /** The grants that a new one at `now` for the assignment leaves in place. */
  function Pruned(grants: map<nat, Grant>, assignmentId: string, now: int): map<nat, Grant> {
    map key | key in grants && grants[key].expiresAt > now && AssignmentOf(grants[key]) != assignmentId :: grants[key]
  }

  function IssueSection(authority: Authority, key: nat, assignmentId: string, grant: Grant, now: int)
    : (r: (bool, Authority))
  {
    var grants := Pruned(authority.grants, assignmentId, now);
    if authority.closed || |grants| >= MAX_TICKETS then (false, authority)
    else (true, Authority(false, grants[key := grant]))
  }

  function TakeSection(authority: Authority, key: nat, boxId: string, now: int): (r: (Option<Grant>, Authority)) {
    if authority.closed || key !in authority.grants || authority.grants[key].boxId != boxId
       || authority.grants[key].expiresAt <= now
    then (None, authority)
    else (Some(authority.grants[key]), authority.(grants := authority.grants - {key}))
  }

  /** `current`, once the repository has said what it found. */
  predicate IsCurrent(expected: Binding, found: Option<ThreadBinding>) {
    expected.placement.Orb? && found.Some? && found.value.target == OrbTarget
      && SameBinding(found.value.workspace, expected)
  }

  predicate SamePartition(left: ThreadBinding, right: ThreadBinding) {
    left.identity == right.identity && left.target == right.target
  }

  // ----- runs -----

  /** A ticket taken from the table, for which Box and when. */
  datatype Taken = Taken(ticket: nat, boxId: string, now: int)

  /** `issued` and `log` record history; `checking` are authorizations whose assignment is still to be looked up again,
      `open` those that saw the authority open, `accepted` what the lookup found for those that ended well. */
  datatype State = State(
    authority: Authority,
    issued: map<nat, Grant>,
    log: seq<Taken>,
    checking: set<nat>,
    open: set<nat>,
    accepted: map<nat, ThreadBinding>)

  const INIT := State(Authority(false, map[]), map[], [], {}, {}, map[])

  datatype Event =
    | Issue(ticket: nat, boxId: string, expected: Binding, found: Option<ThreadBinding>, now: int)
    | Take(ticket: nat, boxId: string, now: int)
    | Look(ticket: nat)
    | Confirm(ticket: nat, found: Option<ThreadBinding>)
    | Close

  predicate Issues(s: State, e: Event)
    requires e.Issue?
  {
    e.ticket !in s.issued && !s.authority.closed && IsCurrent(e.expected, e.found)
    && |Pruned(s.authority.grants, e.expected.assignmentId, e.now)| < MAX_TICKETS
  }

  function NewGrant(e: Event): Grant
    requires e.Issue? && e.found.Some?
  {
    Grant(e.boxId, e.found.value, e.now + LIFETIME_MILLIS)
  }

  /** `issue`: the repository was asked while the authority was open; a random ticket was never issued before. */
  function IssueStep(s: State, e: Event): State
    requires e.Issue?
  {
    if e.ticket in s.issued || !IsCurrent(e.expected, e.found) then s
    else
      var (accepted, authority) := IssueSection(s.authority, e.ticket, e.expected.assignmentId, NewGrant(e), e.now);
      if !accepted then s
      else s.(authority := authority, issued := s.issued[e.ticket := NewGrant(e)])
  }

  function TakeStep(s: State, e: Event): State
    requires e.Take?
  {
    var (grant, authority) := TakeSection(s.authority, e.ticket, e.boxId, e.now);
    if grant.None? then s
    else s.(authority := authority, log := s.log + [Taken(e.ticket, e.boxId, e.now)],
            checking := s.checking + {e.ticket})
  }

  function ConfirmStep(s: State, e: Event): State
    requires e.Confirm?
  {
    if e.ticket !in s.open then s
    else
      var ended := s.(open := s.open - {e.ticket});
      if e.ticket in s.issued && IsCurrent(s.issued[e.ticket].binding.workspace, e.found)
         && SamePartition(e.found.value, s.issued[e.ticket].binding)
      then ended.(accepted := s.accepted[e.ticket := e.found.value])
      else ended
  }

  function Step(s: State, e: Event): State {
    match e
    case Issue(_, _, _, _, _) => IssueStep(s, e)
    case Take(_, _, _) => TakeStep(s, e)
    case Look(ticket) =>
      if ticket !in s.checking then s
      else s.(checking := s.checking - {ticket}, open := if s.authority.closed then s.open else s.open + {ticket})
    case Confirm(_, _) => ConfirmStep(s, e)
    case Close => s.(authority := Authority(true, map[]))
  }

  function Run(s: State, events: seq<Event>): State {
    if events == [] then s else Step(Run(s, events[..|events| - 1]), events[|events| - 1])
  }

  // ----- invariant -----

  ghost predicate TableOk(s: State) {
    && |s.authority.grants| <= MAX_TICKETS
    && (s.authority.closed ==> s.authority.grants == map[])
    && (forall t :: t in s.authority.grants ==> t in s.issued && s.issued[t] == s.authority.grants[t])
    && (forall t, u :: t in s.authority.grants && u in s.authority.grants && t != u ==>
          AssignmentOf(s.authority.grants[t]) != AssignmentOf(s.authority.grants[u]))
  }

  /** What was taken was issued for that Box, was still valid, and is gone. */
  ghost predicate LogOk(s: State) {
    && (forall i :: 0 <= i < |s.log| ==> Fair(s, s.log[i]))
    && (forall i, j :: 0 <= i < j < |s.log| ==> s.log[i].ticket != s.log[j].ticket)
  }

  predicate Fair(s: State, taken: Taken) {
    && taken.ticket in s.issued && taken.ticket !in s.authority.grants
    && s.issued[taken.ticket].boxId == taken.boxId && taken.now < s.issued[taken.ticket].expiresAt
  }

  ghost predicate WasTaken(s: State, ticket: nat) {
    exists i :: 0 <= i < |s.log| && s.log[i].ticket == ticket
  }

  ghost predicate AcceptedOk(s: State) {
    && (forall t :: t in s.checking || t in s.open || t in s.accepted ==> WasTaken(s, t))
    && (forall t :: t in s.accepted ==> Unchanged(s, t))
  }

  /** The Thread still has the binding and partition for which the ticket was issued. */
  predicate Unchanged(s: State, ticket: nat)
    requires ticket in s.accepted
  {
    && ticket in s.issued
    && s.accepted[ticket].workspace == s.issued[ticket].binding.workspace
    && SamePartition(s.accepted[ticket], s.issued[ticket].binding)
  }

  ghost predicate Valid(s: State) {
    TableOk(s) && LogOk(s) && AcceptedOk(s)
  }

  lemma PrunedSmaller(grants: map<nat, Grant>, assignmentId: string, now: int, key: nat, grant: Grant)
    ensures |Pruned(grants, assignmentId, now)[key := grant]| <= |Pruned(grants, assignmentId, now)| + 1
  {
    var pruned := Pruned(grants, assignmentId, now);
    assert pruned[key := grant].Keys == pruned.Keys + {key};
    assert |pruned[key := grant]| == |pruned[key := grant].Keys| && |pruned| == |pruned.Keys|;
  }

  /** A table of one grant for each assignment stays one when a grant replaces all others of its assignment. */
  lemma OnePerAssignment(grants: map<nat, Grant>, pruned: map<nat, Grant>, ticket: nat, grant: Grant)
    requires forall t, u :: t in grants && u in grants && t != u ==> AssignmentOf(grants[t]) != AssignmentOf(grants[u])
    requires forall t :: t in pruned ==>
             t in grants && pruned[t] == grants[t] && AssignmentOf(pruned[t]) != AssignmentOf(grant)
    ensures var after := pruned[ticket := grant];
            forall t, u :: t in after && u in after && t != u ==> AssignmentOf(after[t]) != AssignmentOf(after[u])
  {
    hide AssignmentOf;
  }

  lemma IssuedAdded(grants: map<nat, Grant>, issued: map<nat, Grant>, pruned: map<nat, Grant>, ticket: nat,
                    grant: Grant)
    requires forall t :: t in grants ==> t in issued && issued[t] == grants[t]
    requires forall t :: t in pruned ==> t in grants && pruned[t] == grants[t]
    ensures var after, now := pruned[ticket := grant], issued[ticket := grant];
            forall t :: t in after ==> t in now && now[t] == after[t]
  {
  }

  lemma GrantAdded(s: State, next: State, pruned: map<nat, Grant>, ticket: nat, grant: Grant)
    requires TableOk(s) && ticket !in s.issued && |pruned[ticket := grant]| <= MAX_TICKETS
    requires forall t :: t in pruned ==> t in s.authority.grants && pruned[t] == s.authority.grants[t]
                                         && AssignmentOf(pruned[t]) != AssignmentOf(grant)
    requires next.authority == Authority(false, pruned[ticket := grant]) && next.issued == s.issued[ticket := grant]
    ensures TableOk(next)
  {
    hide AssignmentOf;
    OnePerAssignment(s.authority.grants, pruned, ticket, grant);
    IssuedAdded(s.authority.grants, s.issued, pruned, ticket, grant);
    var after, issued := next.authority.grants, next.issued;
    assert forall t :: t in after ==> t in issued && issued[t] == after[t];
    assert forall t, u :: t in after && u in after && t != u ==> AssignmentOf(after[t]) != AssignmentOf(after[u]);
  }

  lemma IssueTable(s: State, e: Event)
    requires TableOk(s) && e.Issue? && Issues(s, e)
    ensures TableOk(IssueStep(s, e))
  {
    var pruned, grant := Pruned(s.authority.grants, e.expected.assignmentId, e.now), NewGrant(e);
    PrunedSmaller(s.authority.grants, e.expected.assignmentId, e.now, e.ticket, grant);
    assert AssignmentOf(grant) == e.expected.assignmentId;
    var next := IssueStep(s, e);
    hide TableOk, IsCurrent;
    GrantAdded(s, next, pruned, e.ticket, grant);
  }

  lemma IssueLog(s: State, e: Event)
    requires LogOk(s) && AcceptedOk(s) && e.Issue? && Issues(s, e)
    ensures LogOk(IssueStep(s, e)) && AcceptedOk(IssueStep(s, e))
  {
    var next := IssueStep(s, e);
    forall i | 0 <= i < |s.log| ensures Fair(next, s.log[i]) {
      assert Fair(s, s.log[i]);
      assert s.log[i].ticket !in next.authority.grants;
    }
    assert next.log == s.log && next.checking == s.checking && next.open == s.open && next.accepted == s.accepted;
    hide IssueStep, Issues, Fair;
  }

  lemma IssueKeeps(s: State, e: Event)
    requires Valid(s) && e.Issue?
    ensures Valid(IssueStep(s, e))
  {
    if Issues(s, e) {
      IssueTable(s, e);
      IssueLog(s, e);
      hide TableOk, LogOk, AcceptedOk, IssueStep;
    } else {
      assert IssueStep(s, e) == s;
    }
  }

  lemma TakeTable(s: State, e: Event)
    requires TableOk(s) && e.Take?
    ensures TableOk(TakeStep(s, e))
  {
    var rest := s.authority.grants - {e.ticket};
    assert |rest| <= |s.authority.grants| by {
      assert rest.Keys == s.authority.grants.Keys - {e.ticket};
      assert |rest| == |rest.Keys| && |s.authority.grants| == |s.authority.grants.Keys|;
    }
    hide AssignmentOf;
  }

  lemma TakenIsLogged(s: State, next: State, taken: Taken)
    requires next.log == s.log + [taken]
    ensures forall t :: WasTaken(s, t) || t == taken.ticket ==> WasTaken(next, t)
  {
    assert next.log[|s.log|].ticket == taken.ticket;
    forall t | WasTaken(s, t) ensures WasTaken(next, t) {
      var i :| 0 <= i < |s.log| && s.log[i].ticket == t;
      assert next.log[i].ticket == t;
    }
  }

  lemma TakeLog(s: State, e: Event)
    requires Valid(s) && e.Take?
    ensures LogOk(TakeStep(s, e)) && AcceptedOk(TakeStep(s, e))
  {
    var next := TakeStep(s, e);
    if e.ticket in s.authority.grants && next.log != s.log {
      var taken := Taken(e.ticket, e.boxId, e.now);
      forall i | 0 <= i < |s.log| ensures Fair(next, s.log[i]) && s.log[i].ticket != e.ticket {
        assert Fair(s, s.log[i]);
      }
      assert e.ticket in s.issued && s.issued[e.ticket] == s.authority.grants[e.ticket];
      assert Fair(next, taken);
      assert next.log == s.log + [taken] && next.issued == s.issued;
      hide TableOk, Fair, WasTaken;
      TakenIsLogged(s, next, taken);
    }
  }

  lemma TakeKeeps(s: State, e: Event)
    requires Valid(s) && e.Take?
    ensures Valid(TakeStep(s, e))
  {
    TakeTable(s, e);
    TakeLog(s, e);
  }

  lemma CurrentIsUnchanged(expected: Binding, found: Option<ThreadBinding>)
    requires IsCurrent(expected, found)
    ensures found.value.workspace == expected
  {
    FencesAreIdentity(found.value.workspace, expected, ToEvidence(expected));
  }

  lemma ConfirmAccepted(s: State, e: Event)
    requires AcceptedOk(s) && e.Confirm?
    ensures AcceptedOk(ConfirmStep(s, e))
  {
    if e.ticket in s.issued && IsCurrent(s.issued[e.ticket].binding.workspace, e.found) {
      CurrentIsUnchanged(s.issued[e.ticket].binding.workspace, e.found);
    }
    var next := ConfirmStep(s, e);
    assert forall t :: WasTaken(next, t) <==> WasTaken(s, t);
    hide IsCurrent, WasTaken, SamePartition;
  }

  lemma ConfirmKeeps(s: State, e: Event)
    requires Valid(s) && e.Confirm?
    ensures Valid(ConfirmStep(s, e))
  {
    var next := ConfirmStep(s, e);
    assert next.authority == s.authority && next.issued == s.issued && next.log == s.log;
    hide TableOk, LogOk, AcceptedOk, ConfirmStep;
    ConfirmAccepted(s, e);
    ConfirmTable(s, next);
  }

  lemma LookKeeps(s: State, ticket: nat)
    requires Valid(s)
    ensures Valid(Step(s, Look(ticket)))
  {
    var next := Step(s, Look(ticket));
    assert next.authority == s.authority && next.issued == s.issued && next.log == s.log && next.accepted == s.accepted;
    assert next.checking <= s.checking && next.open <= s.open + s.checking;
    hide Step, TableOk, LogOk;
    ConfirmTable(s, next);
    assert forall t :: WasTaken(next, t) <==> WasTaken(s, t);
    hide WasTaken, SamePartition;
  }

  lemma CloseKeeps(s: State)
    requires Valid(s)
    ensures Valid(Step(s, Close))
  {
    var next := Step(s, Close);
    assert TableOk(next) && AcceptedOk(next) by { hide LogOk; }
    hide TableOk, AcceptedOk;
    forall i | 0 <= i < |s.log| ensures Fair(next, s.log[i]) { assert Fair(s, s.log[i]); }
    hide Fair;
  }

  lemma ConfirmTable(s: State, next: State)
    requires TableOk(s) && LogOk(s)
    requires next.authority == s.authority && next.issued == s.issued && next.log == s.log
    ensures TableOk(next) && LogOk(next)
  {
    assert forall i :: 0 <= i < |s.log| ==> (Fair(next, s.log[i]) <==> Fair(s, s.log[i]));
  }

  lemma StepKeeps(s: State, e: Event)
    requires Valid(s)
    ensures Valid(Step(s, e))
  {
    match e
    case Issue(_, _, _, _, _) => hide Valid, IssueStep; IssueKeeps(s, e);
    case Take(_, _, _) => hide Valid, TakeStep; TakeKeeps(s, e);
    case Confirm(_, _) => hide Valid, ConfirmStep; ConfirmKeeps(s, e);
    case Look(ticket) => hide *; LookKeeps(s, ticket);
    case Close => hide *; CloseKeeps(s);
  }

  lemma {:induction false} RunKeeps(events: seq<Event>)
    ensures Valid(Run(INIT, events))
  {
    if events == [] {
    } else {
      RunKeeps(events[..|events| - 1]);
      StepKeeps(Run(INIT, events[..|events| - 1]), events[|events| - 1]);
    }
  }

  /** Tickets: every ticket taken had been issued for that very Box and had not expired, no ticket was taken twice,
      only taken tickets whose assignment is still the one issued for are accepted, and the table never holds more
      than 256 grants nor two for one assignment. */
  lemma TicketsAreSingleUse(events: seq<Event>)
    ensures var s := Run(INIT, events);
            && (forall i :: 0 <= i < |s.log| ==>
                  s.log[i].ticket in s.issued && s.issued[s.log[i].ticket].boxId == s.log[i].boxId
                  && s.log[i].now < s.issued[s.log[i].ticket].expiresAt)
            && (forall i, j :: 0 <= i < j < |s.log| ==> s.log[i].ticket != s.log[j].ticket)
            && (forall t :: t in s.accepted ==> WasTaken(s, t) && Unchanged(s, t))
            && |s.authority.grants| <= 256
            && (forall t, u :: t in s.authority.grants && u in s.authority.grants && t != u ==>
                  AssignmentOf(s.authority.grants[t]) != AssignmentOf(s.authority.grants[u]))
  {
    RunKeeps(events);
    var s := Run(INIT, events);
    forall i | 0 <= i < |s.log|
      ensures s.log[i].ticket in s.issued && s.issued[s.log[i].ticket].boxId == s.log[i].boxId
              && s.log[i].now < s.issued[s.log[i].ticket].expiresAt
    {
      assert Fair(s, s.log[i]);
    }
  }

  // ----- tickets that are gone -----

  /** An issued ticket that the table no longer holds. */
  predicate Gone(s: State, ticket: nat) {
    ticket in s.issued && ticket !in s.authority.grants
  }

  lemma GoneStep(s: State, e: Event, ticket: nat)
    requires Gone(s, ticket)
    ensures Gone(Step(s, e), ticket) && (WasTaken(Step(s, e), ticket) ==> WasTaken(s, ticket))
  {
    hide IsCurrent;
    var next := Step(s, e);
    if WasTaken(next, ticket) {
      var i :| 0 <= i < |next.log| && next.log[i].ticket == ticket;
      assert next.log[i] == s.log[i];
    }
  }

  /** A ticket once gone is never taken again. */
  lemma {:induction false} GoneForGood(s: State, future: seq<Event>, ticket: nat)
    requires Gone(s, ticket)
    ensures Gone(Run(s, future), ticket) && (WasTaken(Run(s, future), ticket) ==> WasTaken(s, ticket))
  {
    if future == [] {
    } else {
      GoneForGood(s, future[..|future| - 1], ticket);
      GoneStep(Run(s, future[..|future| - 1]), future[|future| - 1], ticket);
    }
  }

  lemma Issued(s: State, e: Event, ticket: nat)
    requires e.Issue? && Issues(s, e) && ticket in s.issued
    requires ticket in s.authority.grants ==> AssignmentOf(s.authority.grants[ticket]) == e.expected.assignmentId
    ensures Gone(IssueStep(s, e), ticket)
  {
    hide IsCurrent;
  }

  /** No ticket is taken after a later one was issued for its assignment. */
  lemma SupersededIsRefused(past: seq<Event>, e: Event, future: seq<Event>, ticket: nat)
    requires var s := Run(INIT, past);
             && e.Issue? && Issues(s, e) && ticket in s.issued
             && AssignmentOf(s.issued[ticket]) == e.expected.assignmentId && !WasTaken(s, ticket)
    ensures !WasTaken(Run(Step(Run(INIT, past), e), future), ticket)
  {
    RunKeeps(past);
    var s := Run(INIT, past);
    Issued(s, e, ticket);
    GoneForGood(Step(s, e), future, ticket);
    hide IsCurrent, Valid;
  }

  /** No ticket is taken after the authority closed, nor is a new one issued. */
  lemma {:induction false} ClosedRefuses(past: seq<Event>, future: seq<Event>)
    ensures var closed := Step(Run(INIT, past), Close);
            var s := Run(closed, future);
            s.authority == Authority(true, map[]) && s.log == closed.log && s.issued == closed.issued
            && s.open <= closed.open
  {
    if future == [] {
    } else {
      ClosedRefuses(past, future[..|future| - 1]);
      hide IsCurrent;
    }
  }

  /** Issuing touches nobody else: live tickets of other assignments stay, only expired ones and the assignment's
      own go, and what has expired never stands in the way of a new ticket. */
  lemma IssueExactly(authority: Authority, key: nat, assignmentId: string, grant: Grant, now: int, other: nat)
    requires other != key
    ensures var (accepted, after) := IssueSection(authority, key, assignmentId, grant, now);
            && (other in after.grants ==> other in authority.grants)
            && (other in authority.grants ==>
                  (other in after.grants <==>
                    (accepted ==> authority.grants[other].expiresAt > now
                                  && AssignmentOf(authority.grants[other]) != assignmentId)))
            && (other in after.grants ==> after.grants[other] == authority.grants[other])
    ensures !authority.closed && |authority.grants| <= MAX_TICKETS
            && (exists k :: k in authority.grants
                  && (authority.grants[k].expiresAt <= now || AssignmentOf(authority.grants[k]) == assignmentId))
            ==> IssueSection(authority, key, assignmentId, grant, now).0
  {
    var pruned := Pruned(authority.grants, assignmentId, now);
    if k :| k in authority.grants
            && (authority.grants[k].expiresAt <= now || AssignmentOf(authority.grants[k]) == assignmentId)
    {
      Fewer(pruned, authority.grants, k);
    }
  }

  lemma Fewer(some: map<nat, Grant>, all: map<nat, Grant>, left: nat)
    requires some.Keys <= all.Keys && left in all && left !in some
    ensures |some| < |all|
  {
    assert all.Keys == some.Keys + (all.Keys - some.Keys) && left in all.Keys - some.Keys;
    assert |some| == |some.Keys| && |all| == |all.Keys| && |all.Keys - some.Keys| > 0;
  }

  /** A ticket in the table is taken exactly by its own Box and before it expires. */
  lemma TakenExactly(past: seq<Event>, ticket: nat, boxId: string, now: int)
    ensures var s := Run(INIT, past);
            TakeSection(s.authority, ticket, boxId, now).0.Some? <==>
              ticket in s.issued && !Gone(s, ticket) && s.issued[ticket].boxId == boxId
                && now < s.issued[ticket].expiresAt
  {
    RunKeeps(past);
  }

  /** The `state` Ref of `makeBoxEnrollmentAuthority`. */
  class EnrollmentTable {
    var closed: bool
    var grants: map<nat, Grant>

    ghost function View(): Authority
      reads this
    {
      Authority(closed, grants)
    }

    constructor ()
      ensures View() == INIT.authority
    {
      closed, grants := false, map[];
    }

    method Issue(key: nat, assignmentId: string, grant: Grant, now: int) returns (accepted: bool)
      modifies this
      ensures (accepted, View()) == IssueSection(old(View()), key, assignmentId, grant, now)
      ensures accepted && AssignmentOf(grant) == assignmentId ==>
                forall other :: other in grants && other != key ==> AssignmentOf(grants[other]) != AssignmentOf(grant)
    {
      if closed { return false; }
      var kept := map k | k in grants && grants[k].expiresAt > now && AssignmentOf(grants[k]) != assignmentId
                    :: grants[k];
      assert kept == Pruned(grants, assignmentId, now);
      if |kept| >= MAX_TICKETS { return false; }
      grants := kept[key := grant];
      return true;
    }

    method Take(key: nat, boxId: string, now: int) returns (grant: Option<Grant>)
      modifies this`grants
      ensures (grant, View()) == TakeSection(old(View()), key, boxId, now)
      ensures grant.Some? ==> key in old(grants) && key !in grants
    {
      if closed || key !in grants { return None; }
      grant := Some(grants[key]);
      if grant.value.boxId != boxId || grant.value.expiresAt <= now { return None; }
      grants := grants - {key};
    }

    method Finalize()
      modifies this
      ensures View() == Authority(true, map[])
    {
      closed, grants := true, map[];
    }
  }

  // ----- what a ticket is good for -----

  /** Acceptance, exactly: an authorization that saw the authority open ends well if and only if the Thread is found
      in an Orb, with the very binding the ticket was issued for, consistent, and the same identity; and it is for
      what was found. */
  lemma AcceptsExactly(s: State, ticket: nat, found: Option<ThreadBinding>)
    requires ticket in s.open && ticket in s.issued
    ensures var next := Step(s, Confirm(ticket, found));
            var binding := s.issued[ticket].binding;
            var same := && found.Some? && found.value.target == OrbTarget && found.value == binding
                        && binding.workspace.placement.Orb? && PlacementMatchesWorkspace(binding.workspace);
            && next.open == s.open - {ticket}
            && next.accepted == (if same then s.accepted[ticket := found.value] else s.accepted)
  {
    if found.Some? {
      var expected := s.issued[ticket].binding.workspace;
      FencesAreIdentity(found.value.workspace, expected, ToEvidence(expected));
    }
    hide SameBinding;
  }

  /** A ticket in use: issued for the Box of a Thread in an Orb, shown in time by that Box, and looked up again while
      nothing has changed, it is accepted. */
  lemma TicketIsAccepted(s: State, ticket: nat, boxId: string, found: ThreadBinding, now: int, later: int)
    requires !s.authority.closed && ticket !in s.issued && found.target == OrbTarget
    requires found.workspace.placement.Orb? && PlacementMatchesWorkspace(found.workspace)
    requires |Pruned(s.authority.grants, found.workspace.assignmentId, now)| < 256 && later < now + 60_000
    ensures var issued := Step(s, Issue(ticket, boxId, found.workspace, Some(found), now));
            var taken := Step(issued, Take(ticket, boxId, later));
            var after := Step(Step(taken, Look(ticket)), Confirm(ticket, Some(found)));
            && ticket in issued.authority.grants && ticket !in taken.authority.grants
            && ticket in after.accepted && after.accepted[ticket] == found
  {
    FencesAreIdentity(found.workspace, found.workspace, ToEvidence(found.workspace));
    hide Pruned, SameBinding;
    var issued := Step(s, Issue(ticket, boxId, found.workspace, Some(found), now));
    assert issued.issued[ticket] == Grant(boxId, found, now + LIFETIME_MILLIS);
    var taken := Step(issued, Take(ticket, boxId, later));
    assert ticket in taken.checking && taken.issued == issued.issued;
    var open := Step(taken, Look(ticket));
    assert ticket in open.open && open.issued == issued.issued;
    AcceptsExactly(open, ticket, Some(found));
    hide Step;
  }
}
