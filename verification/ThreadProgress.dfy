/** What the Thread client shows when its commands are let run (packages/client/src/thread.ts): the Thread selected,
    every event observed, the child opened, the root again. */
module ThreadProgress {
  import opened Bindings
  import opened Projection
  import opened Convergence
  import opened Thread
  import opened ThreadAgreement
  import opened ThreadSelection
  import opened Delivery

  /** A Session as its first snapshot shows it. */
  function Opened(sessionId: string, snapshot: Snapshot): State {
    State(sessionId, snapshot, map[], map[], 0, snapshot.cursor, false)
  }

  /** The Session is cached and shown, by a client that follows it. */
  predicate Follows(client: Client, sessionId: string) {
    && client.executing && !client.disposed && sessionId in client.cached
    && client.projection == Some(client.cached[sessionId]) && client.cached[sessionId].state.sessionId == sessionId
  }

  lemma TwoSteps(client: Client, first: Step, second: Step)
    ensures Thread.Run(client, [first, second]) == Next(Next(client, first), second)
  {
    hide Next;
    assert [first, second][..1] == [first] && [first][..0] == [];
    assert Thread.Run(client, [first]) == Next(client, first);
  }

  // ----- selection -----

  /** A selection that is let run shows its Thread: the root as its snapshot has it, alone in the cache, and its
      family with each Session once. */
  lemma SelectionShows(client: Client, sessionId: string, snapshot: Snapshot, family: Family)
    requires !client.disposed
    ensures var after := Thread.Run(client, [Select, Selected(client.epoch + 1, sessionId, snapshot, family)]);
            && Follows(after, sessionId) && after.cached.Keys == {sessionId} && after.focused.None?
            && after.epoch == client.epoch + 1 && after.cached[sessionId].state == Opened(sessionId, snapshot)
            && after.family.Some? && after.family.value.rootSessionId == family.rootSessionId
            && after.family.value.nextBefore == family.nextBefore && after.family.value.at == family.at
            && NoRepeats(after.family.value.sessions)
            && forall id :: id in after.family.value.sessions <==> id in family.sessions
  {
    TwoSteps(client, Select, Selected(client.epoch + 1, sessionId, snapshot, family));
    MergedIsUnion([], family.sessions);
    hide Merged, NoRepeats, Thread.Run;
  }

  /** A selection that has been overtaken by another shows nothing. */
  lemma OvertakenSelectionIsIgnored(client: Client, epoch: nat, sessionId: string, snapshot: Snapshot, family: Family)
    requires epoch != client.epoch
    ensures Next(client, Selected(epoch, sessionId, snapshot, family)) == client
  {
  }

  // ----- events -----

  /** An event of the selection in force is applied to the Session it is for, in the cache and on the screen; one of
      another selection, or for a Session not known, changes nothing. */
  lemma ObservesExactly(client: Client, event: Event, epoch: nat)
    requires client.executing && !client.disposed
    requires EventSession(event) in client.cached
    requires Shows(client, EventSession(event)) ==> client.projection == Some(client.cached[EventSession(event)])
    ensures var id := EventSession(event);
            var held := Held(Apply(client.cached[id].state, event).state, client.cached[id].origin);
            Next(client, Observe(event, epoch))
            == if epoch != client.epoch then client
               else client.(cached := client.cached[id := held],
                            projection := if Shows(client, id) then Some(held) else client.projection)
  {
    var id := EventSession(event);
    var held := Held(Apply(client.cached[id].state, event).state, client.cached[id].origin);
    assert client.cached[id := held][id := held] == client.cached[id := held];
    ApplyKeepsSession(client.cached[id].state, event);
    assert Shows(client, id) ==> client.cached[id].state.sessionId == id;
    hide Apply;
  }

  lemma StrangersAreIgnored(client: Client, event: Event, epoch: nat)
    requires EventSession(event) !in client.cached && !Shows(client, EventSession(event))
    ensures Next(client, Observe(event, epoch)) == client
  {
    hide Apply;
  }

  function Observations(events: seq<Event>, epoch: nat): seq<Step> {
    seq(|events|, i requires 0 <= i < |events| => Observe(events[i], epoch))
  }

  lemma ObservationsSnoc(client: Client, events: seq<Event>, epoch: nat)
    requires events != []
    ensures Thread.Run(client, Observations(events, epoch))
         == Next(Thread.Run(client, Observations(events[..|events| - 1], epoch)), Observe(events[|events| - 1], epoch))
  {
    hide Next;
    assert Observations(events, epoch)[..|events| - 1] == Observations(events[..|events| - 1], epoch);
  }

  /** The client that follows a Session goes through its events just as the reducer does. */
  lemma {:induction false} FollowsEvents(client: Client, sessionId: string, events: seq<Event>)
    requires Follows(client, sessionId)
    requires forall i :: 0 <= i < |events| ==> EventSession(events[i]) == sessionId
    ensures var after := Thread.Run(client, Observations(events, client.epoch));
            && Follows(after, sessionId) && after.epoch == client.epoch
            && after.cached[sessionId].state == Projection.Run(client.cached[sessionId].state, events)
  {
    if events == [] {
      assert Observations(events, client.epoch) == [];
    } else {
      var past, last := events[..|events| - 1], events[|events| - 1];
      assert forall i :: 0 <= i < |past| ==> past[i] == events[i];
      assert EventSession(last) == sessionId;
      hide Next, Apply, EventSession;
      FollowsEvents(client, sessionId, past);
      ObservationsSnoc(client, events, client.epoch);
      var mid := Thread.Run(client, Observations(past, client.epoch));
      FollowsOne(mid, sessionId, last);
      assert Projection.Run(client.cached[sessionId].state, events)
          == Apply(Projection.Run(client.cached[sessionId].state, past), last).state;
      hide Thread.Run, Projection.Run;
    }
  }

  lemma FollowsOne(client: Client, sessionId: string, event: Event)
    requires Follows(client, sessionId) && EventSession(event) == sessionId
    ensures var next := Next(client, Observe(event, client.epoch));
            && Follows(next, sessionId) && next.epoch == client.epoch
            && next.cached[sessionId].state == Apply(client.cached[sessionId].state, event).state
  {
    ObservesExactly(client, event, client.epoch);
    ApplyKeepsSession(client.cached[sessionId].state, event);
    hide Next, Apply, EventSession;
  }

  /** Live, from the selection on: a client that selects a Thread and observes the committed events after its
      snapshot, in order, shows the Session at the last of them, as the newest part of the server's path, and asks
      for no snapshot. */
  lemma LiveThreadCatchesUp(client: Client, log: Log, sessionId: string, snapshot: Snapshot, family: Family,
                            updates: int -> Option<Update>, count: nat)
    requires !client.disposed && WellFormed(log.tree) && SnapshotOf(log, snapshot)
    requires TruthfulFeed(log, updates, snapshot.cursor, count)
    ensures var selected := Thread.Run(client, [Select, Selected(client.epoch + 1, sessionId, snapshot, family)]);
            var events := Feed(sessionId, updates, snapshot.cursor, count);
            var after := Thread.Run(selected, Observations(events, client.epoch + 1));
            && Shows(after, sessionId)
            && var state := after.projection.value.state;
               && StandsAt(log, state, snapshot.cursor + count) && Current(log.tree, state.snapshot.conversation)
               && !state.needsSnapshot
  {
    hide *;
    var selected := Thread.Run(client, [Select, Selected(client.epoch + 1, sessionId, snapshot, family)]);
    var events := Feed(sessionId, updates, snapshot.cursor, count);
    var start := Opened(sessionId, snapshot);
    SelectionShows(client, sessionId, snapshot, family);
    OpenedStands(log, sessionId, snapshot);
    FeedIsFor(sessionId, updates, snapshot.cursor, count);
    FollowsEvents(selected, sessionId, events);
    CatchesUp(log, start, updates, count);
    CatchesUpShown(log, start, updates, count);
    FollowedIsShown(Thread.Run(selected, Observations(events, client.epoch + 1)), sessionId);
  }

  lemma FollowedIsShown(client: Client, sessionId: string)
    requires Follows(client, sessionId)
    ensures Shows(client, sessionId) && client.projection.Some?
    ensures client.projection.value.state == client.cached[sessionId].state
  {
  }

  lemma OpenedStands(log: Log, sessionId: string, snapshot: Snapshot)
    requires SnapshotOf(log, snapshot)
    ensures var start := Opened(sessionId, snapshot);
            && StandsAt(log, start, snapshot.cursor) && start.committedCursor == snapshot.cursor
            && start.sessionId == sessionId && !start.needsSnapshot && start.snapshot == snapshot
            && Current(log.tree, start.snapshot.conversation)
  {
    hide Path;
  }

  lemma FeedIsFor(sessionId: string, updates: int -> Option<Update>, from: int, count: nat)
    ensures var events := Feed(sessionId, updates, from, count);
            forall i :: 0 <= i < |events| ==> EventSession(events[i]) == sessionId
  {
  }

  // ----- children -----

  /** A child of the family that is not shown yet, opened while no child is focused: it is shown as its snapshot has
      it. */
  lemma ChildShows(client: Client, id: nat, sessionId: string, snapshot: Snapshot)
    requires client.executing && CanOpen(client, sessionId) && id !in client.openings
    requires sessionId !in client.cached && client.focused.None?
    ensures var after := Thread.Run(client, [AskChild(id, sessionId), ChildRead(id, snapshot)]);
            && Follows(after, sessionId) && after.focused == Some(sessionId) && after.openings == client.openings
            && after.cached == client.cached[sessionId := after.cached[sessionId]]
            && after.cached[sessionId].state == Opened(sessionId, snapshot) && after.family == client.family
  {
    TwoSteps(client, AskChild(id, sessionId), ChildRead(id, snapshot));
    hide Thread.Run;
  }

  /** A child already cached is shown at once, as it is cached. */
  lemma CachedChildShows(client: Client, id: nat, sessionId: string)
    requires client.executing && CanOpen(client, sessionId) && id !in client.openings
    requires sessionId in client.cached && client.cached[sessionId].state.sessionId == sessionId && client.focused.None?
    ensures var after := Next(client, AskChild(id, sessionId));
            && Follows(after, sessionId) && after.focused == Some(sessionId) && after.cached == client.cached
            && after.openings == client.openings
  {
  }

  /** From one child to another: the second is shown once the connection of the first has stopped. */
  lemma SecondChildShows(client: Client, id: nat, sessionId: string)
    requires client.executing && CanOpen(client, sessionId) && id !in client.openings
    requires sessionId in client.cached && client.cached[sessionId].state.sessionId == sessionId
    requires client.focused.Some? && client.focused.value != sessionId
    ensures var waiting := Next(client, AskChild(id, sessionId));
            var after := Next(waiting, ChildStopped(id));
            && waiting.projection == client.projection && waiting.focused == client.focused
            && Follows(after, sessionId) && after.focused == Some(sessionId) && after.cached == client.cached
            && after.openings == client.openings
  {
  }

  /** Going back shows the root again, as it is cached. */
  lemma BackShowsRoot(client: Client)
    requires client.executing && !client.disposed && client.focused.Some? && client.family.Some?
    requires var root := client.family.value.rootSessionId;
             root in client.cached && client.cached[root].state.sessionId == root
    ensures var after := Thread.Run(client, [AskBack, BackStopped]);
            && Follows(after, client.family.value.rootSessionId) && after.focused.None?
            && after.cached == client.cached && after.family == client.family && after.backs == client.backs
  {
    TwoSteps(client, AskBack, BackStopped);
    hide Thread.Run;
  }

  /** A page of the family is merged in: the root, the time and the cursor are the page's (an extension keeps the
      time), and the Sessions are those known and those of the page. */
  lemma FamilyGrows(client: Client, page: Family)
    requires !client.disposed && client.family.Some? && NoRepeats(client.family.value.sessions)
    ensures var known := client.family.value;
            var refreshed := Next(client, FamilyRefreshed(client.epoch, page)).family;
            var extended := Next(client, FamilyExtended(client.epoch, page)).family;
            && refreshed.Some? && extended.Some? && refreshed.value == extended.value.(at := page.at)
            && extended.value.at == known.at && extended.value.rootSessionId == page.rootSessionId
            && extended.value.nextBefore == page.nextBefore && known.sessions <= extended.value.sessions
            && forall id :: id in extended.value.sessions <==> id in known.sessions || id in page.sessions
  {
    MergedIsUnion(client.family.value.sessions, page.sessions);
    hide Merged, NoRepeats, ReprojectAll, Reprojected;
  }

  // ----- disposal -----

  lemma DisposedStep(client: Client, step: Step)
    requires client.disposed
    ensures Next(client, step).disposed && Next(client, step).projection == client.projection
  {
    hide Apply, Spliced, PageFits, Reprojected, First;
  }

  /** A disposed client shows nothing new, whatever still arrives. */
  lemma {:induction false} DisposedShowsNothingNew(client: Client, steps: seq<Step>)
    requires client.disposed
    ensures Thread.Run(client, steps).disposed && Thread.Run(client, steps).projection == client.projection
  {
    if steps == [] {
    } else {
      DisposedShowsNothingNew(client, steps[..|steps| - 1]);
      DisposedStep(Thread.Run(client, steps[..|steps| - 1]), steps[|steps| - 1]);
      hide Next;
    }
  }

  // ----- openings overtaken -----

  /** A later command takes the place of an opening whose snapshot is still awaited. */
  predicate Overtakes(client: Client, id: nat, step: Step) {
    match step
    case Select => !client.disposed
    case AskBack => client.focused.Some?
    case AskChild(other, sessionId) => other !in client.openings && CanOpen(client, sessionId)
    case Dispose => true
    case FamilyRefreshed(epoch, _) => !client.disposed && epoch == client.epoch && client.family.Some?
    case FamilyExtended(epoch, _) => !client.disposed && epoch == client.epoch && client.family.Some?
    case _ => false
  }

  /** An opening that a selection, a way back, another opening, a change of the family or a disposal has overtaken shows
      nothing and focuses nothing when its snapshot arrives. */
  lemma OvertakenChildIsDropped(client: Client, id: nat, step: Step, snapshot: Snapshot)
    requires id in client.openings && !client.openings[id].checked && client.openings[id].epoch <= client.epoch
    requires client.openings[id].serial <= client.childSerial && client.openings[id].revision <= client.revision
    requires Overtakes(client, id, step)
    ensures var next := Next(client, step);
            id in next.openings && Next(next, ChildRead(id, snapshot)) == next.(openings := next.openings - {id})
  {
    hide Apply, FamilyProjection, ReprojectAll, Reprojected, First;
  }

  /** Disposal is final: from then on the client shows what it showed. */
  lemma DisposalIsFinal(client: Client, steps: seq<Step>)
    ensures var disposed := Next(client, Dispose);
            disposed.disposed && Thread.Run(disposed, steps).projection == client.projection
  {
    DisposedShowsNothingNew(Next(client, Dispose), steps);
    hide Thread.Run;
  }
}
