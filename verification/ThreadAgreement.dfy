/** Agreement of the Thread client with the servers, over whole runs (packages/client/src/thread.ts and
    projection.ts). */
module ThreadAgreement {
  import opened Bindings
  import opened Projection
  import opened Convergence
  import opened Thread

  // ----- what the servers say -----

  ghost predicate SnapshotOf(log: Log, snapshot: Snapshot) {
    snapshot.conversation.leafId == log.leafAt(snapshot.cursor) && Converged(log.tree, snapshot.conversation)
  }

  ghost predicate UpdateOf(log: Log, cursor: int, update: Option<Update>) {
    match update
    case None => log.leafAt(cursor) == log.leafAt(cursor - 1)
    case Some(change) =>
      change.previousLeafId == log.leafAt(cursor - 1) && change.leafId == log.leafAt(cursor)
        && Describes(log.tree, change)
  }

  /** An event tells what was committed; previews may say anything. */
  ghost predicate EventOf(world: World, event: Event) {
    match event
    case ConnectionSnapshot(snapshot, _) => SnapshotOf(world(snapshot.sessionId), snapshot)
    case PreviewDelivery(_, _, _, _) => true
    case Committed(sessionId, cursor, update) => UpdateOf(world(sessionId), cursor, update)
  }

  ghost predicate Truthful(world: World, client: Client, step: Step) {
    match step
    case Selected(_, sessionId, snapshot, family) => SnapshotOf(world(sessionId), snapshot)
      && family.rootSessionId == sessionId
    case Observe(event, _) => EventOf(world, event)
    case Older(page) => client.history.Some? ==> PageOf(world(client.history.value.sessionId).tree, page)
    case FamilyRefreshed(_, family) => client.family.Some? ==> family.rootSessionId == client.family.value.rootSessionId
    case FamilyExtended(_, family) => client.family.Some? ==> family.rootSessionId == client.family.value.rootSessionId
    case ChildRead(id, snapshot) => id in client.openings ==> SnapshotOf(world(client.openings[id].sessionId), snapshot)
    case _ => true
  }

  ghost predicate TruthfulRun(world: World, steps: seq<Step>) {
    steps == []
    || (TruthfulRun(world, steps[..|steps| - 1])
        && Truthful(world, Thread.Run(INITIAL, steps[..|steps| - 1]), steps[|steps| - 1]))
  }

  // ----- agreement -----

  /** How much is claimed of a conversation: that it is the newest part of the server's, or also that what lies
      before it can still be loaded. */
  datatype Claim = Newest | WithHistory

  ghost predicate Meets(claim: Claim, tree: Tree, conversation: Conversation) {
    if claim.Newest? then Current(tree, conversation) else Converged(tree, conversation)
  }

  /** A projection agrees with the server at its committed cursor, and its previews stand at their fences. */
  ghost predicate Agrees(world: World, claim: Claim, state: State) {
    var log := world(state.sessionId);
    && state.committedCursor == state.snapshot.cursor
    && state.snapshot.conversation.leafId == log.leafAt(state.committedCursor)
    && Meets(claim, log.tree, state.snapshot.conversation)
    && Fenced(state)
  }

  ghost predicate HeldAgrees(world: World, claim: Claim, held: Option<Held>) {
    held.Some? ==> Agrees(world, claim, held.value.state)
  }

  ghost predicate CacheAgrees(world: World, claim: Claim, cached: map<string, Held>) {
    forall id :: id in cached ==> cached[id].state.sessionId == id && Agrees(world, claim, cached[id].state)
  }

  ghost predicate OpeningsAgree(world: World, claim: Claim, openings: map<nat, Opening>) {
    forall id :: id in openings ==>
      HeldAgrees(world, claim, openings[id].held)
      && (openings[id].held.Some? ==> openings[id].held.value.state.sessionId == openings[id].sessionId)
  }

  /** Every projection, shown, cached or being opened. */
  ghost predicate AllAgree(world: World, claim: Claim, client: Client) {
    && HeldAgrees(world, claim, client.projection)
    && CacheAgrees(world, claim, client.cached)
    && OpeningsAgree(world, claim, client.openings)
  }

  ghost predicate WellFormedWorld(world: World) {
    forall id :: WellFormed(world(id).tree)
  }

  // ----- when a step keeps the claim -----

  /** The page adds nothing to what is shown, or its cursor leads to a beginning of the path up to the window. */
  ghost predicate SpliceFitsShown(world: World, client: Client, page: Page)
    requires client.projection.Some?
  {
    var state := client.projection.value.state;
    SpliceFits(world(state.sessionId).tree, state.snapshot.conversation, page)
  }

  /** A page that takes effect is spliced in at a cursor that has been lost. */
  ghost predicate LostSplice(world: World, client: Client, step: Step) {
    && step.Older? && PageFits(client, step.page) && (client.executing || !client.disposed)
    && !SpliceFitsShown(world, client, step.page)
  }

  /** The server keeps cursors alive by what it sends. */
  ghost predicate ReliableStep(world: World, step: Step) {
    step.Observe? && step.event.Committed? && step.event.update.Some? ==>
      Reliable(world(step.event.sessionId).tree, step.event.update.value)
  }

  /** What a claim asks of a step: no lost cursor used, or none ever lost. */
  ghost predicate Safe(world: World, claim: Claim, client: Client, step: Step) {
    if claim.Newest? then !LostSplice(world, client, step) else ReliableStep(world, step)
  }

  /** What an event can do to the committed part of a projection. */
  lemma AppliedShape(state: State, event: Event)
    requires EventSession(event) == state.sessionId && state.committedCursor == state.snapshot.cursor
    ensures var after := Apply(state, event).state;
            var before := state.snapshot.conversation;
            && after.sessionId == state.sessionId && after.committedCursor == after.snapshot.cursor
            && if after.snapshot == state.snapshot then true
               else match event
                 case ConnectionSnapshot(snapshot, _) => after.snapshot == snapshot
                 case PreviewDelivery(_, _, _, _) => false
                 case Committed(_, cursor, update) =>
                   && after.committedCursor == cursor == state.committedCursor + 1
                   && (update.None? ==> after.snapshot.conversation == before)
                   && (update.Some? ==> Some(after.snapshot.conversation) == ApplyConversation(before, update.value))
  {
    hide ApplyConversation, FoldChanges;
  }

  lemma ConversationMeets(tree: Tree, claim: Claim, conversation: Conversation, update: Update)
    requires WellFormed(tree) && Meets(claim, tree, conversation) && Describes(tree, update)
    requires update.previousLeafId == conversation.leafId && (claim.WithHistory? ==> Reliable(tree, update))
    ensures var applied := ApplyConversation(conversation, update);
            applied.Some? && applied.value.leafId == update.leafId && Meets(claim, tree, applied.value)
  {
    assert Current(tree, conversation) by { hide Current, Path, WellFormed, Describes, Reliable; }
    UpdateKeepsSuffix(tree, conversation, update);
    if claim.WithHistory? { ReliableKeepsCursor(tree, conversation, update); }
    hide Current, Path, WellFormed, Describes, Reliable, WindowAfter, NextCursor, ApplyConversation, Reaches;
  }

  lemma ApplyAgrees(world: World, claim: Claim, state: State, event: Event)
    requires WellFormedWorld(world) && Agrees(world, claim, state) && EventOf(world, event)
    requires claim.WithHistory? ==> ReliableStep(world, Observe(event, 0))
    requires EventSession(event) == state.sessionId
    ensures Agrees(world, claim, Apply(state, event).state) && Apply(state, event).state.sessionId == state.sessionId
  {
    var tree, conversation := world(state.sessionId).tree, state.snapshot.conversation;
    StepFenced(state, event);
    AppliedShape(state, event);
    assert WellFormed(tree);
    hide Apply, ApplyConversation, Fenced, Path, WellFormed, Describes, Reliable, Current, Reaches;
    if event.Committed? && event.update.Some? && Apply(state, event).state.snapshot != state.snapshot {
      ConversationMeets(tree, claim, conversation, event.update.value);
    }
  }

  lemma UpdateAgrees(world: World, claim: Claim, client: Client, held: Held)
    requires AllAgree(world, claim, client) && Agrees(world, claim, held.state)
    ensures AllAgree(world, claim, UpdateProjection(client, held))
  {
    hide Agrees;
  }

  lemma TargetAgrees(world: World, claim: Claim, client: Client, sessionId: string)
    requires AllAgree(world, claim, client) && Target(client, sessionId).Some?
    ensures Agrees(world, claim, Target(client, sessionId).value.state)
            && Target(client, sessionId).value.state.sessionId == sessionId
  {
    hide Agrees;
  }

  lemma CacheMore(world: World, claim: Claim, client: Client, id: string, held: Held)
    requires AllAgree(world, claim, client) && Agrees(world, claim, held.state) && held.state.sessionId == id
    ensures AllAgree(world, claim, client.(cached := client.cached[id := held]))
  {
    hide Agrees;
  }

  lemma ShowAgrees(world: World, claim: Claim, client: Client, held: Held)
    requires AllAgree(world, claim, client) && Agrees(world, claim, held.state)
    ensures AllAgree(world, claim, client.(projection := Some(held)))
  {
    hide Agrees;
  }

  lemma ObserveAgrees(world: World, claim: Claim, client: Client, event: Event, epoch: nat)
    requires WellFormedWorld(world) && AllAgree(world, claim, client) && Truthful(world, client, Observe(event, epoch))
    requires claim.WithHistory? ==> ReliableStep(world, Observe(event, epoch))
    ensures AllAgree(world, claim, Observed(client, event, epoch))
  {
    var id := EventSession(event);
    var target := Target(client, id);
    if target.Some? {
      TargetAgrees(world, claim, client, id);
      ApplyAgrees(world, claim, target.value.state, event);
      var held := Held(Apply(target.value.state, event).state, target.value.origin);
      var kept := if id in client.cached || client.executing then client.(cached := client.cached[id := held])
        else client;
      hide Agrees, Apply, Target, EventSession, AllAgree, UpdateProjection, Shows, Truthful, WellFormedWorld;
      CacheMore(world, claim, client, id, held);
      ShowAgrees(world, claim, kept, held);
      UpdateAgrees(world, claim, kept, held);
    }
  }

  lemma SplicedAgrees(world: World, claim: Claim, client: Client, page: Page)
    requires WellFormedWorld(world) && AllAgree(world, claim, client) && Truthful(world, client, Older(page))
    requires PageFits(client, page) && (claim.Newest? ==> SpliceFitsShown(world, client, page))
    ensures Agrees(world, claim, Spliced(client.projection.value, page).state)
  {
    var state := client.projection.value.state;
    var tree, conversation := world(state.sessionId).tree, state.snapshot.conversation;
    if Reaches(tree, conversation.nextLeafId, conversation.entries, Path(tree, conversation.leafId)) {
      SpliceConverges(tree, conversation, page);
    } else {
      assert Unknown(page.entries, conversation.entries) + conversation.entries == conversation.entries;
    }
  }

  lemma ReprojectedAgrees(world: World, claim: Claim, held: Held)
    requires Agrees(world, claim, held.state)
    ensures Agrees(world, claim, Reprojected(held).state) && Reprojected(held).state.sessionId == held.state.sessionId
  {
  }

  lemma FirstAgrees(world: World, claim: Claim, sessionId: string, snapshot: Snapshot, origin: nat)
    requires SnapshotOf(world(sessionId), snapshot)
    ensures Agrees(world, claim, First(sessionId, snapshot, origin).state)
  {
  }

  lemma ReprojectAllAgrees(world: World, claim: Claim, cached: map<string, Held>)
    requires CacheAgrees(world, claim, cached)
    ensures CacheAgrees(world, claim, ReprojectAll(cached))
  {
    forall id | id in cached
      ensures Agrees(world, claim, Reprojected(cached[id]).state) && Reprojected(cached[id]).state.sessionId == id
    {
      ReprojectedAgrees(world, claim, cached[id]);
    }
    hide Agrees, Reprojected;
  }

  lemma RefreshAgrees(world: World, claim: Claim, client: Client, epoch: nat, page: Family)
    requires AllAgree(world, claim, client)
    ensures AllAgree(world, claim, FamilyRead(client, epoch, page))
  {
    hide Agrees, Reprojected, ReprojectAll, FamilyProjection, UpdateProjection;
    ReprojectAllAgrees(world, claim, client.cached);
    var family := FamilyProjection(page, client.family, false);
    var focused := if client.focused.Some? && client.focused.value in family.sessions then client.focused else None;
    var active := if focused.Some? then focused.value else family.rootSessionId;
    var next := client.(family := Some(family), revision := client.revision + 1, cached := ReprojectAll(client.cached),
                        focused := focused);
    if active in next.cached { UpdateAgrees(world, claim, next, next.cached[active]); }
  }

  lemma ExtendAgrees(world: World, claim: Claim, client: Client, epoch: nat, page: Family)
    requires AllAgree(world, claim, client)
    ensures AllAgree(world, claim, MoreRead(client, epoch, page))
  {
    hide Agrees, Reprojected, FamilyProjection, UpdateProjection;
    if client.family.Some? {
      var family := FamilyProjection(page, client.family, true);
      if family.rootSessionId in client.cached {
        var held := Reprojected(client.cached[family.rootSessionId]);
        ReprojectedAgrees(world, claim, client.cached[family.rootSessionId]);
        UpdateAgrees(world, claim, client.(family := Some(family), revision := client.revision + 1,
                                    cached := client.cached[held.state.sessionId := held]), held);
      }
    }
  }

  lemma FocusAgrees(world: World, claim: Claim, client: Client, sessionId: string, held: Held)
    requires AllAgree(world, claim, client) && Agrees(world, claim, held.state) && held.state.sessionId == sessionId
    ensures AllAgree(world, claim, Focus(client, sessionId, held))
  {
    hide Agrees;
  }

  lemma WaitingAgrees(world: World, claim: Claim, client: Client, id: nat, opening: Opening)
    requires AllAgree(world, claim, client) && HeldAgrees(world, claim, opening.held)
    requires opening.held.Some? ==> opening.held.value.state.sessionId == opening.sessionId
    ensures AllAgree(world, claim, client.(openings := client.openings[id := opening]))
  {
    hide HeldAgrees, CacheAgrees;
  }

  lemma OpenedAgrees(world: World, claim: Claim, client: Client, id: nat)
    requires AllAgree(world, claim, client)
    ensures AllAgree(world, claim, client.(openings := client.openings - {id}))
  {
    hide HeldAgrees, CacheAgrees;
  }

  lemma FocusOpenings(client: Client, sessionId: string, held: Held)
    ensures Focus(client, sessionId, held).openings == client.openings
  {
  }

  lemma CheckedAgrees(world: World, claim: Claim, client: Client, id: nat, opening: Opening, held: Held)
    requires AllAgree(world, claim, client) && Agrees(world, claim, held.state)
             && held.state.sessionId == opening.sessionId
    ensures AllAgree(world, claim, Checked(client, id, opening, held))
  {
    hide Agrees, Focus, AllAgree;
    if MustStop(client, opening.sessionId) {
      WaitingAgrees(world, claim, client, id, opening.(held := Some(held), checked := true));
    } else {
      FocusAgrees(world, claim, client, opening.sessionId, held);
      OpenedAgrees(world, claim, Focus(client, opening.sessionId, held), id);
      FocusOpenings(client, opening.sessionId, held);
    }
  }

  lemma AskChildAgrees(world: World, claim: Claim, client: Client, id: nat, sessionId: string)
    requires AllAgree(world, claim, client)
    ensures AllAgree(world, claim, ChildAsked(client, id, sessionId))
  {
    hide Agrees, Checked;
    var next := client.(childSerial := client.childSerial + 1);
    if CanOpen(client, sessionId) && sessionId in client.cached {
      CheckedAgrees(world, claim, next, id,
                    Opening(sessionId, client.epoch, next.childSerial, client.revision, None, false),
                    client.cached[sessionId]);
    }
  }

  lemma ChildReadAgrees(world: World, claim: Claim, client: Client, id: nat, snapshot: Snapshot)
    requires AllAgree(world, claim, client) && Truthful(world, client, ChildRead(id, snapshot))
    ensures AllAgree(world, claim, ChildReadStep(client, id, snapshot))
  {
    hide Agrees, Checked, SnapshotOf;
    if id in client.openings {
      var opening := client.openings[id];
      FirstAgrees(world, claim, opening.sessionId, snapshot, opening.epoch);
      CheckedAgrees(world, claim, client, id, opening, First(opening.sessionId, snapshot, opening.epoch));
    }
  }

  lemma ChildStoppedAgrees(world: World, claim: Claim, client: Client, id: nat)
    requires AllAgree(world, claim, client)
    ensures AllAgree(world, claim, ChildStoppedStep(client, id))
  {
    hide Agrees, Focus;
    if id in client.openings && client.openings[id].held.Some? {
      FocusAgrees(world, claim, client, client.openings[id].sessionId, client.openings[id].held.value);
    }
  }

  lemma BackAgrees(world: World, claim: Claim, client: Client)
    requires AllAgree(world, claim, client)
    ensures AllAgree(world, claim, BackStoppedStep(client))
  {
    hide Agrees;
  }

  lemma SelectedAgrees(world: World, claim: Claim, client: Client, epoch: nat, sessionId: string, snapshot: Snapshot,
                       family: Family)
    requires AllAgree(world, claim, client) && SnapshotOf(world(sessionId), snapshot)
    ensures AllAgree(world, claim, SelectionRead(client, epoch, sessionId, snapshot, family))
  {
    FirstAgrees(world, claim, sessionId, snapshot, epoch);
    assert First(sessionId, snapshot, epoch).state.sessionId == sessionId;
    hide Agrees, First, FamilyProjection;
  }

  lemma OlderAgrees(world: World, claim: Claim, client: Client, page: Page)
    requires WellFormedWorld(world) && AllAgree(world, claim, client) && Truthful(world, client, Older(page))
    requires claim.Newest? ==> !LostSplice(world, client, Older(page))
    ensures AllAgree(world, claim, OlderRead(client, page))
  {
    if PageFits(client, page) && (client.executing || !client.disposed) {
      SplicedAgrees(world, claim, client, page);
      UpdateAgrees(world, claim, client, Spliced(client.projection.value, page));
    }
    hide Agrees, Spliced, UpdateProjection;
  }

  lemma QuietAgrees(world: World, claim: Claim, client: Client, step: Step)
    requires AllAgree(world, claim, client)
    requires step.Select? || step.AskOlder? || step.OlderFailed? || step.AskBack? || step.Dispose?
    ensures AllAgree(world, claim, Next(client, step))
  {
    hide Agrees;
  }

  /** Every step keeps the claim, if no lost cursor is used, or if the server never loses one. */
  lemma StepAgrees(world: World, claim: Claim, client: Client, step: Step)
    requires WellFormedWorld(world) && AllAgree(world, claim, client) && Truthful(world, client, step)
    requires Safe(world, claim, client, step)
    ensures AllAgree(world, claim, Next(client, step))
  {
    hide AllAgree, WellFormedWorld, SnapshotOf, SelectionRead, Observed, OlderRead, FamilyRead, MoreRead, ChildAsked,
      ChildReadStep, ChildStoppedStep, BackStoppedStep;
    match step
    case Selected(epoch, sessionId, snapshot, family) =>
      SelectedAgrees(world, claim, client, epoch, sessionId, snapshot, family);
    case Observe(event, epoch) => ObserveAgrees(world, claim, client, event, epoch);
    case Older(page) => OlderAgrees(world, claim, client, page);
    case FamilyRefreshed(epoch, family) => RefreshAgrees(world, claim, client, epoch, family);
    case FamilyExtended(epoch, family) => ExtendAgrees(world, claim, client, epoch, family);
    case AskChild(id, sessionId) => AskChildAgrees(world, claim, client, id, sessionId);
    case ChildRead(id, snapshot) => ChildReadAgrees(world, claim, client, id, snapshot);
    case ChildStopped(id) => ChildStoppedAgrees(world, claim, client, id);
    case BackStopped => BackAgrees(world, claim, client);
    case _ => QuietAgrees(world, claim, client, step);
  }

  // ----- runs -----

  ghost predicate ReliableRun(world: World, steps: seq<Step>) {
    forall i :: 0 <= i < |steps| ==> ReliableStep(world, steps[i])
  }

  /** Conversation convergence under a reliable server: after any interleaving of selections, pages, openings and
      duplicated, reordered or dropped events, every projection is the newest part of the server's conversation at its
      committed cursor, and what lies before it can still be loaded. Nothing is asked of the client. */
  lemma {:induction false} ReliableRunAgrees(world: World, steps: seq<Step>)
    requires WellFormedWorld(world) && TruthfulRun(world, steps) && ReliableRun(world, steps)
    ensures AllAgree(world, WithHistory, Thread.Run(INITIAL, steps))
  {
    if steps == [] {
    } else {
      var past := steps[..|steps| - 1];
      ReliableRunAgrees(world, past);
      StepAgrees(world, WithHistory, Thread.Run(INITIAL, past), steps[|steps| - 1]);
    }
  }

  /** Some page of the run was spliced in at a lost cursor. */
  ghost predicate EverLost(world: World, steps: seq<Step>) {
    steps != []
    && var past := steps[..|steps| - 1];
       EverLost(world, past) || LostSplice(world, Thread.Run(INITIAL, past), steps[|steps| - 1])
  }

  /** At every point of the run every projection is the newest part of the server's conversation. */
  ghost predicate NewestThroughout(world: World, steps: seq<Step>) {
    && AllAgree(world, Newest, Thread.Run(INITIAL, steps))
    && (steps != [] ==> NewestThroughout(world, steps[..|steps| - 1]))
  }

  ghost predicate OneParentWorld(world: World) {
    forall id :: OneParent(world(id).tree)
  }

  lemma OneParentWorldIsWellFormed(world: World)
    requires OneParentWorld(world)
    ensures WellFormedWorld(world)
  {
    forall id ensures WellFormed(world(id).tree) { OneParentIsWellFormed(world(id).tree); }
  }

  /** A lost splice puts entries on the screen, or into the cache, that are not the newest part of the path. */
  lemma LostSpliceBreaks(world: World, client: Client, page: Page)
    requires OneParentWorld(world) && AllAgree(world, Newest, client) && Truthful(world, client, Older(page))
    requires LostSplice(world, client, Older(page))
    ensures !AllAgree(world, Newest, Next(client, Older(page)))
  {
    var held := client.projection.value;
    var state, after := held.state, Spliced(held, page);
    SpliceKeepsSuffixExactly(world(state.sessionId).tree, state.snapshot.conversation, page);
    assert !Agrees(world, Newest, after.state);
    var next := Next(client, Older(page));
    assert client.executing ==> state.sessionId in next.cached && next.cached[state.sessionId] == after;
    assert !client.disposed ==> next.projection == Some(after);
    hide Agrees, Spliced, UpdateProjection, OlderRead;
  }

  /** One step, exactly: a truthful step keeps every projection the newest part of the server's conversation if and
      only if it does not splice at a lost cursor. */
  lemma StepAgreesExactly(world: World, client: Client, step: Step)
    requires OneParentWorld(world) && AllAgree(world, Newest, client) && Truthful(world, client, step)
    ensures AllAgree(world, Newest, Next(client, step)) <==> !LostSplice(world, client, step)
  {
    OneParentWorldIsWellFormed(world);
    if LostSplice(world, client, step) {
      LostSpliceBreaks(world, client, step.page);
    } else {
      StepAgrees(world, Newest, client, step);
    }
  }

  lemma InitialAgrees(world: World, claim: Claim)
    ensures AllAgree(world, claim, INITIAL)
  {
  }

  /** Conversation convergence, exactly: over a run of truthful steps every projection is at every point the newest
      part of the server's conversation if and only if no history page is spliced in at a lost cursor. Losing a
      cursor alone does no harm. */
  lemma {:induction false} ConvergesExactly(world: World, steps: seq<Step>)
    requires OneParentWorld(world) && TruthfulRun(world, steps)
    ensures NewestThroughout(world, steps) <==> !EverLost(world, steps)
  {
    if steps == [] {
      InitialAgrees(world, Newest);
    } else {
      var past := steps[..|steps| - 1];
      ConvergesExactly(world, past);
      if NewestThroughout(world, past) {
        StepAgreesExactly(world, Thread.Run(INITIAL, past), steps[|steps| - 1]);
      }
    }
  }

  /** What is on the screen: the newest part of the server's conversation at the committed cursor, no entry twice. */
  lemma ShownIsTheServersConversation(world: World, steps: seq<Step>)
    requires OneParentWorld(world) && TruthfulRun(world, steps) && !EverLost(world, steps)
    ensures var shown := Thread.Run(INITIAL, steps).projection;
            shown.Some? ==>
              var log, state := world(shown.value.state.sessionId), shown.value.state;
              && state.snapshot.conversation.leafId == log.leafAt(state.committedCursor)
              && IsSuffix(state.snapshot.conversation.entries, Path(log.tree, log.leafAt(state.committedCursor)))
              && DistinctIds(state.snapshot.conversation.entries)
  {
    ConvergesExactly(world, steps);
    OneParentWorldIsWellFormed(world);
    var shown := Thread.Run(INITIAL, steps).projection;
    if shown.Some? {
      var log, state := world(shown.value.state.sessionId), shown.value.state;
      assert WellFormed(log.tree);
      assert DistinctIds(Path(log.tree, state.snapshot.conversation.leafId));
    }
  }

  /** A reliable server never brings a lost splice about. */
  lemma ReliableNeverLoses(world: World, steps: seq<Step>, step: Step)
    requires WellFormedWorld(world) && TruthfulRun(world, steps) && ReliableRun(world, steps)
    ensures !LostSplice(world, Thread.Run(INITIAL, steps), step)
  {
    ReliableRunAgrees(world, steps);
  }
}
