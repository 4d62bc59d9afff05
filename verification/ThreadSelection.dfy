/** What the selection epoch protects: commands of an abandoned selection reach nothing, and what is shown is what is
    cached (packages/client/src/thread.ts). */
module ThreadSelection {
  import opened Bindings
  import opened Projection
  import opened Convergence
  import opened Thread
  import opened ThreadAgreement

  /** Everything shown or cached was read for the selection in force. */
  predicate Isolated(client: Client) {
    && (forall id :: id in client.cached ==> client.cached[id].origin == client.epoch)
    && (client.projection.Some? ==> client.projection.value.origin == client.epoch)
  }

  predicate Stamped(client: Client) {
    forall id :: id in client.openings ==>
      client.openings[id].epoch <= client.epoch
      && (client.openings[id].checked <==> client.openings[id].held.Some?)
      && (client.openings[id].held.Some? ==> client.openings[id].held.value.origin == client.openings[id].epoch)
  }

  /** A child opened in an earlier selection whose wait for the previous connection ends now: `openChildSession`
      does not look at the epoch again after that wait. */
  predicate IsLate(client: Client, step: Step) {
    step.ChildStopped? && step.id in client.openings && client.openings[step.id].held.Some?
    && client.openings[step.id].epoch != client.epoch
  }

  lemma UpdateIsolated(client: Client, held: Held)
    requires Isolated(client) && held.origin == client.epoch
    ensures Isolated(UpdateProjection(client, held)) && UpdateProjection(client, held).openings == client.openings
    ensures UpdateProjection(client, held).epoch == client.epoch
  {
  }

  lemma RefreshIsolated(client: Client, epoch: nat, page: Family)
    requires Isolated(client) && Stamped(client)
    ensures Isolated(FamilyRead(client, epoch, page)) && Stamped(FamilyRead(client, epoch, page))
  {
    var family := FamilyProjection(page, client.family, false);
    var focused := if client.focused.Some? && client.focused.value in family.sessions then client.focused else None;
    var active := if focused.Some? then focused.value else family.rootSessionId;
    var next := client.(family := Some(family), revision := client.revision + 1, cached := ReprojectAll(client.cached),
                        focused := focused);
    assert Isolated(next);
    hide FamilyProjection, ReprojectAll, UpdateProjection, Isolated;
    if active in next.cached {
      assert next.cached[active].origin == client.epoch by { CachedOrigin(next, active); }
      UpdateIsolated(next, next.cached[active]);
    }
  }

  lemma CachedOrigin(client: Client, id: string)
    requires Isolated(client) && id in client.cached
    ensures client.cached[id].origin == client.epoch
  {
  }

  lemma ExtendIsolated(client: Client, epoch: nat, page: Family)
    requires Isolated(client) && Stamped(client)
    ensures Isolated(MoreRead(client, epoch, page)) && Stamped(MoreRead(client, epoch, page))
  {
    hide FamilyProjection, ProjectSnapshot;
  }

  lemma AskChildIsolated(client: Client, id: nat, sessionId: string)
    requires Isolated(client) && Stamped(client)
    ensures Stamped(ChildAsked(client, id, sessionId)) && Isolated(ChildAsked(client, id, sessionId))
  {
  }

  lemma ChildReadIsolated(client: Client, id: nat, snapshot: Snapshot)
    requires Isolated(client) && Stamped(client)
    ensures Stamped(ChildReadStep(client, id, snapshot)) && Isolated(ChildReadStep(client, id, snapshot))
  {
    hide ProjectSnapshot;
  }

  lemma ChildStoppedIsolated(client: Client, id: nat)
    requires Isolated(client) && Stamped(client)
    ensures var next := ChildStoppedStep(client, id);
            Stamped(next) && (Isolated(next) <==> !IsLate(client, ChildStopped(id)))
  {
    var next := ChildStoppedStep(client, id);
    if IsLate(client, ChildStopped(id)) {
      var opening := client.openings[id];
      assert (if client.executing then opening.held.value.state.sessionId else opening.sessionId) in next.cached;
    }
  }

  /** Selection isolation, exactly: a step lets another selection's Session in if and only if it is a late opening. */
  lemma IsolationExactly(client: Client, step: Step)
    requires Isolated(client) && Stamped(client)
    ensures Stamped(Next(client, step)) && (Isolated(Next(client, step)) <==> !IsLate(client, step))
  {
    match step
    case FamilyRefreshed(epoch, family) => hide *; Unfolded(client, step); RefreshIsolated(client, epoch, family);
    case FamilyExtended(epoch, family) => hide *; Unfolded(client, step); ExtendIsolated(client, epoch, family);
    case AskChild(id, sessionId) => hide *; Unfolded(client, step); AskChildIsolated(client, id, sessionId);
    case ChildRead(id, snapshot) => hide *; Unfolded(client, step); ChildReadIsolated(client, id, snapshot);
    case ChildStopped(id) => hide *; Unfolded(client, step); ChildStoppedIsolated(client, id);
    case _ => OtherStepsIsolated(client, step);
  }

  lemma Unfolded(client: Client, step: Step)
    ensures !step.ChildStopped? ==> !IsLate(client, step)
    ensures step.FamilyRefreshed? ==> Next(client, step) == FamilyRead(client, step.epoch, step.family)
    ensures step.FamilyExtended? ==> Next(client, step) == MoreRead(client, step.epoch, step.family)
    ensures step.AskChild? ==> Next(client, step) == ChildAsked(client, step.id, step.sessionId)
    ensures step.ChildRead? ==> Next(client, step) == ChildReadStep(client, step.id, step.snapshot)
    ensures step.ChildStopped? ==> Next(client, step) == ChildStoppedStep(client, step.id)
  {
    hide FamilyRead, MoreRead, ChildAsked, ChildReadStep, ChildStoppedStep;
  }

  lemma ObservedIsolated(client: Client, event: Event, epoch: nat)
    requires Isolated(client) && Stamped(client)
    ensures Stamped(Observed(client, event, epoch)) && Isolated(Observed(client, event, epoch))
  {
    hide Apply;
  }

  lemma SelectionIsolated(client: Client, epoch: nat, sessionId: string, snapshot: Snapshot, page: Family)
    requires Isolated(client) && Stamped(client)
    ensures Stamped(SelectionRead(client, epoch, sessionId, snapshot, page))
    ensures Isolated(SelectionRead(client, epoch, sessionId, snapshot, page))
  {
    hide ProjectSnapshot, FamilyProjection;
  }

  lemma OlderIsolated(client: Client, page: Page)
    requires Isolated(client) && Stamped(client)
    ensures Stamped(OlderRead(client, page)) && Isolated(OlderRead(client, page))
  {
    hide ProjectSnapshot, Convergence.Splice;
  }

  lemma OtherStepsIsolated(client: Client, step: Step)
    requires Isolated(client) && Stamped(client)
    requires !step.FamilyRefreshed? && !step.FamilyExtended? && !step.AskChild? && !step.ChildRead?
             && !step.ChildStopped?
    ensures Stamped(Next(client, step)) && Isolated(Next(client, step))
  {
    hide Observed, SelectionRead, OlderRead;
    match step
    case Observe(event, epoch) => ObservedIsolated(client, event, epoch);
    case Selected(epoch, sessionId, snapshot, page) => SelectionIsolated(client, epoch, sessionId, snapshot, page);
    case Older(page) => OlderIsolated(client, page);
    case _ =>
  }

  /** No opening ends late. */
  predicate OnTime(steps: seq<Step>) {
    steps == []
    || (OnTime(steps[..|steps| - 1]) && !IsLate(Thread.Run(INITIAL, steps[..|steps| - 1]), steps[|steps| - 1]))
  }

  lemma {:induction false} RunIsolated(steps: seq<Step>)
    requires OnTime(steps)
    ensures Isolated(Thread.Run(INITIAL, steps)) && Stamped(Thread.Run(INITIAL, steps))
  {
    if steps == [] {
    } else {
      RunIsolated(steps[..|steps| - 1]);
      IsolationExactly(Thread.Run(INITIAL, steps[..|steps| - 1]), steps[|steps| - 1]);
    }
  }

  /** At every point of the run everything shown or cached was read for the selection in force. */
  predicate IsolatedThroughout(steps: seq<Step>) {
    Isolated(Thread.Run(INITIAL, steps)) && (steps == [] || IsolatedThroughout(steps[..|steps| - 1]))
  }

  /** Selection isolation over a whole run, exactly: it holds at every point if and only if no opening ends late. */
  lemma {:induction false} IsolatedExactly(steps: seq<Step>)
    ensures IsolatedThroughout(steps) <==> OnTime(steps)
  {
    if steps == [] {
    } else {
      var past := steps[..|steps| - 1];
      IsolatedExactly(past);
      if OnTime(past) {
        RunIsolated(past);
        IsolationExactly(Thread.Run(INITIAL, past), steps[|steps| - 1]);
      }
      hide Isolated, Stamped, IsLate, Next;
    }
  }

  // ----- what is shown is what is cached -----

  predicate Named(client: Client) {
    && (forall id :: id in client.cached ==> client.cached[id].state.sessionId == id)
    && (forall id :: id in client.openings && client.openings[id].held.Some? ==>
          client.openings[id].held.value.state.sessionId == client.openings[id].sessionId)
  }

  /** Children being opened for the selection in force are members of its family, and not its root. */
  predicate ChildrenOnly(client: Client) {
    forall id :: id in client.openings && client.openings[id].epoch == client.epoch ==>
      client.family.Some? && client.openings[id].sessionId != client.family.value.rootSessionId
      && client.openings[id].sessionId in client.family.value.sessions
  }

  /** Nothing is selected yet, or the Session shown is the root or the focused child, exactly as it is cached. */
  predicate Mirrored(client: Client) {
    match client.projection
    case None => client.focused.None? && client.family.None? && !client.executing && client.cached == map[]
    case Some(held) =>
      && client.executing && client.family.Some? && client.family.value.rootSessionId in client.cached
      && client.focused != Some(client.family.value.rootSessionId)
      && (client.focused.Some? ==> client.focused.value in client.family.value.sessions)
      && held.state.sessionId
         == (if client.focused.Some? then client.focused.value else client.family.value.rootSessionId)
      && held.state.sessionId in client.cached && client.cached[held.state.sessionId] == held
  }

  predicate Coherent(client: Client) {
    client.disposed || (Named(client) && ChildrenOnly(client) && Mirrored(client))
  }

  lemma ApplyKeepsSession(state: State, event: Event)
    ensures Apply(state, event).state.sessionId == state.sessionId
  {
  }

  lemma ObservedCoherent(client: Client, event: Event, epoch: nat)
    requires Coherent(client)
    ensures Coherent(Observed(client, event, epoch))
  {
    var target := Target(client, EventSession(event));
    if target.Some? { ApplyKeepsSession(target.value.state, event); }
    hide Apply;
  }

  lemma SelectedCoherent(client: Client, epoch: nat, sessionId: string, snapshot: Snapshot, page: Family)
    requires Coherent(client) && Stamped(client) && page.rootSessionId == sessionId
    ensures Coherent(SelectionRead(client, epoch, sessionId, snapshot, page))
  {
  }

  lemma SelectingCoherent(client: Client)
    requires Coherent(client) && Stamped(client)
    ensures Coherent(Selecting(client))
  {
  }

  lemma RefreshCoherent(client: Client, epoch: nat, page: Family)
    requires Coherent(client) && (client.family.Some? ==> page.rootSessionId == client.family.value.rootSessionId)
    ensures Coherent(FamilyRead(client, epoch, page))
    ensures !client.disposed ==> FamilyRead(client, epoch, page).focused == client.focused
  {
    if client.family.Some? { MergedKeeps(client.family.value.sessions, page.sessions); }
    hide Merged;
  }

  lemma ExtendCoherent(client: Client, epoch: nat, page: Family)
    requires Coherent(client) && (client.family.Some? ==> page.rootSessionId == client.family.value.rootSessionId)
    ensures Coherent(MoreRead(client, epoch, page))
  {
    if client.family.Some? { MergedKeeps(client.family.value.sessions, page.sessions); }
    hide Merged;
  }

  lemma AskChildCoherent(client: Client, id: nat, sessionId: string)
    requires Coherent(client)
    ensures Coherent(ChildAsked(client, id, sessionId))
  {
  }

  lemma ChildReadCoherent(client: Client, id: nat, snapshot: Snapshot)
    requires Coherent(client)
    ensures Coherent(ChildReadStep(client, id, snapshot))
  {
  }

  lemma ChildStoppedCoherent(client: Client, id: nat)
    requires Coherent(client) && !IsLate(client, ChildStopped(id))
    ensures Coherent(ChildStoppedStep(client, id))
  {
  }

  lemma OlderCoherent(client: Client, page: Page)
    requires Coherent(client)
    ensures Coherent(OlderRead(client, page))
  {
    hide Convergence.Splice;
  }

  lemma StepCoherent(world: World, client: Client, step: Step)
    requires Coherent(client) && Stamped(client) && Truthful(world, client, step) && !IsLate(client, step)
    ensures Coherent(Next(client, step))
  {
    match step
    case Select => SelectingCoherent(client);
    case Selected(epoch, sessionId, snapshot, family) => SelectedCoherent(client, epoch, sessionId, snapshot, family);
    case Observe(event, epoch) => ObservedCoherent(client, event, epoch);
    case Older(page) => OlderCoherent(client, page);
    case FamilyRefreshed(epoch, family) => RefreshCoherent(client, epoch, family);
    case FamilyExtended(epoch, family) => ExtendCoherent(client, epoch, family);
    case AskChild(id, sessionId) => AskChildCoherent(client, id, sessionId);
    case ChildRead(id, snapshot) => ChildReadCoherent(client, id, snapshot);
    case ChildStopped(id) => ChildStoppedCoherent(client, id);
    case _ =>
  }

  /** What is shown is the root or the focused child of the selected Thread, exactly as it is cached. */
  lemma {:induction false} RunCoherent(world: World, steps: seq<Step>)
    requires TruthfulRun(world, steps) && OnTime(steps)
    ensures Coherent(Thread.Run(INITIAL, steps))
  {
    if steps == [] {
    } else {
      RunCoherent(world, steps[..|steps| - 1]);
      RunIsolated(steps[..|steps| - 1]);
      StepCoherent(world, Thread.Run(INITIAL, steps[..|steps| - 1]), steps[|steps| - 1]);
    }
  }

  /** Families only grow, so the focus on a child is never dropped by a refresh: the check for a focus that has left the
      family cannot fire. */
  lemma FocusSurvivesRefresh(world: World, steps: seq<Step>, epoch: nat, page: Family)
    requires TruthfulRun(world, steps) && OnTime(steps)
    requires Truthful(world, Thread.Run(INITIAL, steps), FamilyRefreshed(epoch, page))
    requires !Thread.Run(INITIAL, steps).disposed
    ensures FamilyRead(Thread.Run(INITIAL, steps), epoch, page).focused == Thread.Run(INITIAL, steps).focused
  {
    RunCoherent(world, steps);
    RefreshCoherent(Thread.Run(INITIAL, steps), epoch, page);
  }

  // ----- families -----

  ghost predicate FamilyOk(client: Client) {
    client.family.Some? ==> client.executing && NoRepeats(client.family.value.sessions)
  }

  /** Within one selection a family is never lost, and keeps the Sessions it lists in their places. */
  ghost predicate Grows(before: Client, after: Client) {
    && before.epoch <= after.epoch
    && (before.epoch == after.epoch && before.executing ==> after.executing)
    && (before.epoch == after.epoch && before.family.Some? ==>
          after.family.Some? && before.family.value.sessions <= after.family.value.sessions)
  }

  ghost predicate SameFamily(client: Client, next: Client) {
    next.family == client.family && next.epoch == client.epoch && next.executing == client.executing
  }

  lemma ChildrenKeepFamily(client: Client, id: nat)
    ensures forall sessionId :: SameFamily(client, ChildAsked(client, id, sessionId))
    ensures forall snapshot :: SameFamily(client, ChildReadStep(client, id, snapshot))
    ensures SameFamily(client, ChildStoppedStep(client, id))
  {
    hide First, MustStop, CanOpen;
  }

  lemma HistoryKeepsFamily(client: Client)
    ensures forall page :: SameFamily(client, OlderRead(client, page))
    ensures forall event, epoch :: SameFamily(client, Observed(client, event, epoch))
    ensures SameFamily(client, OlderAsked(client))
    ensures SameFamily(client, BackAsked(client)) && SameFamily(client, BackStoppedStep(client))
  {
    hide Apply, Spliced, PageFits, Target, EventSession, Shows;
  }

  /** Only the selections and the pages of a family touch it. */
  lemma OtherStepsKeepFamily(client: Client, step: Step)
    requires !step.Select? && !step.Selected? && !step.FamilyRefreshed? && !step.FamilyExtended?
    ensures SameFamily(client, Next(client, step))
  {
    hide ChildAsked, ChildReadStep, ChildStoppedStep, OlderRead, Observed, OlderAsked, BackAsked, BackStoppedStep;
    HistoryKeepsFamily(client);
    match step
    case AskChild(id, _) => ChildrenKeepFamily(client, id);
    case ChildRead(id, _) => ChildrenKeepFamily(client, id);
    case ChildStopped(id) => ChildrenKeepFamily(client, id);
    case _ =>
  }

  lemma FamilyStep(client: Client, step: Step)
    requires FamilyOk(client)
    ensures FamilyOk(Next(client, step)) && Grows(client, Next(client, step))
  {
    hide Merged, NoRepeats, ProjectSnapshot;
    var known := if client.family.Some? then client.family.value.sessions else [];
    match step
    case Selected(_, _, _, page) => MergedIsUnion([], page.sessions);
    case FamilyRefreshed(_, page) => MergedIsUnion(known, page.sessions);
    case FamilyExtended(_, page) => MergedIsUnion(known, page.sessions);
    case Select =>
    case _ => OtherStepsKeepFamily(client, step);
  }

  lemma GrowsOn(a: Client, b: Client, c: Client)
    requires Grows(a, b) && Grows(b, c)
    ensures Grows(a, c)
  {
  }

  /** From any point of a run on, a family lists each Session once and, while the selection lasts, is only added to. */
  lemma {:induction false} FamiliesOnlyGrow(client: Client, steps: seq<Step>)
    requires FamilyOk(client)
    ensures FamilyOk(Thread.Run(client, steps)) && Grows(client, Thread.Run(client, steps))
  {
    if steps == [] {
    } else {
      var past, last := steps[..|steps| - 1], steps[|steps| - 1];
      FamiliesOnlyGrow(client, past);
      FamilyStep(Thread.Run(client, past), last);
      hide FamilyOk, Grows, Next;
      GrowsOn(client, Thread.Run(client, past), Thread.Run(client, steps));
    }
  }

  lemma {:induction false} RunsJoin(client: Client, steps: seq<Step>, more: seq<Step>)
    ensures Thread.Run(client, steps + more) == Thread.Run(Thread.Run(client, steps), more)
  {
    if more == [] {
      assert steps + more == steps;
    } else {
      assert (steps + more)[..|steps + more| - 1] == steps + more[..|more| - 1];
      RunsJoin(client, steps, more[..|more| - 1]);
      hide Next;
    }
  }

  /** In every run the family lists each Session once, and while a selection lasts it keeps what it listed before. */
  lemma FamilyListsOnce(steps: seq<Step>, more: seq<Step>)
    ensures var before, after := Thread.Run(INITIAL, steps), Thread.Run(INITIAL, steps + more);
            && (before.family.Some? ==> NoRepeats(before.family.value.sessions))
            && (before.epoch == after.epoch && before.family.Some? ==>
                  after.family.Some? && before.family.value.sessions <= after.family.value.sessions)
  {
    FamiliesOnlyGrow(INITIAL, steps);
    FamiliesOnlyGrow(Thread.Run(INITIAL, steps), more);
    RunsJoin(INITIAL, steps, more);
    hide Thread.Run;
  }

  // ----- the late opening is reachable -----

  const SNAPSHOT := Snapshot("s", 0, Conversation(None, [], None), "")
  const FAMILY := Family("r", 0, ["r", "a", "b"], None)

  /** A child is focused, a second one is being opened and waits for the first connection to stop, and another Thread is
      selected meanwhile. */
  const LATE := [Select, Selected(1, "r", SNAPSHOT, FAMILY), AskChild(0, "a"), ChildRead(0, SNAPSHOT),
                 AskChild(1, "b"), ChildRead(1, SNAPSHOT), Select]

  lemma OneMore(steps: seq<Step>, step: Step)
    ensures Thread.Run(INITIAL, steps + [step]) == Next(Thread.Run(INITIAL, steps), step)
    ensures OnTime(steps + [step]) <==> OnTime(steps) && !IsLate(Thread.Run(INITIAL, steps), step)
  {
    assert (steps + [step])[..|steps|] == steps;
  }

  const ROOT := First("r", SNAPSHOT, 1)
  const A := First("a", SNAPSHOT, 1)
  const B := First("b", SNAPSHOT, 1)
  const READ := Client(false, 1, true, Some(ROOT), map["r" := ROOT], None, Some(FAMILY), 1, 1, map[], 0, None)
  const FOCUSED := READ.(projection := Some(A), cached := map["r" := ROOT, "a" := A], focused := Some("a"),
                         childSerial := 2)
  const WAITING := FOCUSED.(childSerial := 3, openings := map[1 := Opening("b", 1, 3, 1, Some(B), true)])

  lemma RootIsRead()
    ensures Next(Next(INITIAL, Select), Selected(1, "r", SNAPSHOT, FAMILY)) == READ
  {
    assert Merged([], ["r", "a", "b"]) == ["r", "a", "b"] by {
      assert Merged(["r"], ["a", "b"]) == Merged(["r", "a"], ["b"]) == Merged(["r", "a", "b"], []);
    }
    hide Merged;
  }

  lemma FirstIsFocused()
    ensures Next(Next(READ, AskChild(0, "a")), ChildRead(0, SNAPSHOT)) == FOCUSED
  {
    var asked := ChildAsked(READ, 0, "a");
    assert asked == READ.(childSerial := 2, openings := map[0 := Opening("a", 1, 2, 1, None, false)]);
    assert READ.cached["a" := A] == FOCUSED.cached && asked.openings - {0} == map[];
  }

  lemma SecondIsWaiting()
    ensures Next(Next(FOCUSED, AskChild(1, "b")), ChildRead(1, SNAPSHOT)) == WAITING
  {
    var asked := ChildAsked(FOCUSED, 1, "b");
    assert asked == FOCUSED.(childSerial := 3, openings := map[1 := Opening("b", 1, 3, 1, None, false)]);
  }

  lemma LateOpeningIsReachable()
    ensures OnTime(LATE) && IsLate(Thread.Run(INITIAL, LATE), ChildStopped(1))
    ensures var after := Thread.Run(INITIAL, LATE + [ChildStopped(1)]);
            after.epoch == 2 && Shows(after, "b") && after.projection.value.origin == 1 && after.family.None?
  {
    var s1 := [] + [Select];
    var s2 := s1 + [Selected(1, "r", SNAPSHOT, FAMILY)];
    var s3 := s2 + [AskChild(0, "a")];
    var s4 := s3 + [ChildRead(0, SNAPSHOT)];
    var s5 := s4 + [AskChild(1, "b")];
    var s6 := s5 + [ChildRead(1, SNAPSHOT)];
    assert LATE == s6 + [Select];
    OneMore([], Select);
    OneMore(s1, Selected(1, "r", SNAPSHOT, FAMILY));
    OneMore(s2, AskChild(0, "a"));
    OneMore(s3, ChildRead(0, SNAPSHOT));
    OneMore(s4, AskChild(1, "b"));
    OneMore(s5, ChildRead(1, SNAPSHOT));
    OneMore(s6, Select);
    OneMore(LATE, ChildStopped(1));
    RootIsRead();
    FirstIsFocused();
    SecondIsWaiting();
    assert Thread.Run(INITIAL, []) == INITIAL && OnTime([]);
    hide OnTime, Thread.Run, Next;
    assert Thread.Run(INITIAL, s6) == WAITING;
    var late := Thread.Run(INITIAL, LATE);
    assert late == Selecting(WAITING) by { Unfold(WAITING); }
    Unfold(late);
  }

  lemma Unfold(client: Client)
    ensures Next(client, Select) == (if client.disposed then client else Selecting(client))
    ensures Next(client, ChildStopped(1)) == ChildStoppedStep(client, 1)
  {
  }
}
