/** The closure variables of `makeThreadClient` (packages/client/src/thread.ts), changed in place by its commands: each
    synchronous stretch of a command is one method, proved against the step of the model. */
module ThreadClients {
  import opened Bindings
  import opened Projection
  import opened Convergence
  import opened Thread

  class ThreadClient {
    var disposed: bool
    var selectionEpoch: nat
    var hasExecution: bool
    var projection: Option<Held>
    var sessionProjections: map<string, Held>
    var focusedSessionId: Option<string>
    var rootFamily: Option<Family>
    var familyRevision: nat
    var childOpenSerial: nat
    var openings: map<nat, Opening>
    var backs: nat
    var historyInFlight: Option<Request>

    ghost function View(): Client
      reads this
    {
      Client(disposed, selectionEpoch, hasExecution, projection, sessionProjections, focusedSessionId, rootFamily,
             familyRevision, childOpenSerial, openings, backs, historyInFlight)
    }

    constructor ()
      ensures View() == INITIAL
    {
      disposed, selectionEpoch, hasExecution, projection := false, 0, false, None;
      sessionProjections, focusedSessionId, rootFamily, familyRevision := map[], None, None, 0;
      childOpenSerial, openings, backs, historyInFlight := 0, map[], 0, None;
    }

    method UpdateProjectionWith(held: Held)
      modifies this
      ensures View() == UpdateProjection(old(View()), held)
    {
      if hasExecution { sessionProjections := sessionProjections[held.state.sessionId := held]; }
      if !disposed { projection := Some(held); }
    }

    /** The first stretch of `selectThread`. */
    method BeginSelection() returns (epoch: Option<nat>)
      modifies this
      ensures View() == Next(old(View()), Select)
      ensures epoch == (if disposed then None else Some(old(selectionEpoch) + 1))
    {
      if disposed { return None; }
      epoch := Some(selectionEpoch + 1);
      childOpenSerial := childOpenSerial + 1;
      rootFamily, focusedSessionId, hasExecution, sessionProjections := None, None, false, map[];
      selectionEpoch, projection := selectionEpoch + 1, None;
    }

    /** The last stretch of `selectThread`. */
    method FinishSelection(epoch: nat, sessionId: string, snapshot: Snapshot, family: Family)
      modifies this
      ensures View() == Next(old(View()), Selected(epoch, sessionId, snapshot, family))
    {
      if disposed || epoch != selectionEpoch || hasExecution { return; }
      hasExecution := true;
      rootFamily := Some(FamilyProjection(family, None, true));
      familyRevision := familyRevision + 1;
      var held := First(sessionId, snapshot, epoch);
      sessionProjections := map[sessionId := held];
      UpdateProjectionWith(held);
    }

    /** `observeEvent` */
    method ObserveEvent(event: Event, epoch: nat)
      modifies this
      ensures View() == Next(old(View()), Observe(event, epoch))
    {
      if disposed || epoch != selectionEpoch { return; }
      var id := EventSession(event);
      var target := if id in sessionProjections then Some(sessionProjections[id])
                    else if projection.Some? && projection.value.state.sessionId == id then projection
                    else None;
      if target.None? { return; }
      var shown := projection.Some? && projection.value.state.sessionId == id;
      var result := Apply(target.value.state, event);
      var held := Held(result.state, target.value.origin);
      if id in sessionProjections || hasExecution { sessionProjections := sessionProjections[id := held]; }
      if result.Rejected? {
        if shown { projection := Some(held); }
      } else if shown {
        UpdateProjectionWith(held);
      }
    }

    /** `loadOlder` up to its request. */
    method BeginOlder() returns (asked: bool)
      modifies this
      ensures View() == Next(old(View()), AskOlder)
      ensures asked ==> historyInFlight.Some?
    {
      if historyInFlight.Some? || projection.None? || !hasExecution { return false; }
      var state := projection.value.state;
      var nextLeafId := state.snapshot.conversation.nextLeafId;
      if nextLeafId.None? { return false; }
      historyInFlight := Some(Request(selectionEpoch, state.sessionId, nextLeafId.value));
      return true;
    }

    /** `loadOlder` from its answer on. */
    method FinishOlder(page: Page) returns (spliced: bool)
      modifies this
      ensures View() == Next(old(View()), Older(page))
      ensures spliced == PageFits(old(View()), page)
    {
      var request := historyInFlight;
      historyInFlight := None;
      if request.None? || projection.None? || selectionEpoch != request.value.epoch { return false; }
      var held := projection.value;
      var conversation := held.state.snapshot.conversation;
      if held.state.sessionId != request.value.sessionId || conversation.nextLeafId != Some(request.value.nextLeafId)
         || page.leafId != request.value.nextLeafId
      { return false; }
      UpdateProjectionWith(Spliced(held, page));
      return true;
    }

    /** The loop of `refreshFamily` over the cached projections. */
    method ReprojectCached()
      modifies this`sessionProjections
      ensures sessionProjections == ReprojectAll(old(sessionProjections))
    {
      var todo := sessionProjections.Keys;
      while todo != {}
        invariant todo <= sessionProjections.Keys == old(sessionProjections).Keys
        invariant forall id :: id in sessionProjections ==>
          sessionProjections[id] ==
            if id in todo then old(sessionProjections)[id] else Reprojected(old(sessionProjections)[id])
        decreases |todo|
      {
        var id :| id in todo;
        todo := todo - {id};
        sessionProjections := sessionProjections[id := Reprojected(sessionProjections[id])];
      }
    }

    method FamilyArrived(epoch: nat, page: Family)
      modifies this
      ensures View() == Next(old(View()), FamilyRefreshed(epoch, page))
    {
      if disposed || epoch != selectionEpoch || rootFamily.None? { return; }
      var family := FamilyProjection(page, rootFamily, false);
      rootFamily, familyRevision := Some(family), familyRevision + 1;
      ReprojectCached();
      if focusedSessionId.Some? && focusedSessionId.value !in family.sessions { focusedSessionId := None; }
      var active := if focusedSessionId.Some? then focusedSessionId.value else family.rootSessionId;
      if active in sessionProjections { UpdateProjectionWith(sessionProjections[active]); }
    }

    /** `openChildSession` after the earlier connection has stopped. */
    method FinishOpening(id: nat)
      modifies this
      ensures View() == Next(old(View()), ChildStopped(id))
    {
      if id !in openings || openings[id].held.None? { return; }
      var sessionId, held := openings[id].sessionId, openings[id].held.value;
      openings := openings - {id};
      sessionProjections := sessionProjections[sessionId := held];
      focusedSessionId := Some(sessionId);
      UpdateProjectionWith(held);
    }
  }
}
