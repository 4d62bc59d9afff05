/** The Thread client: selection, the projections it caches, and the commands that change them while events keep
    arriving (packages/client/src/thread.ts). */
module Thread {
  import opened Bindings
  import opened Projection
  import opened Convergence

  /** The committed history of every Session. */
  type World = string -> Log

  /** A projection, with the selection in which its first snapshot was asked for. */
  datatype Held = Held(state: State, origin: nat)

  datatype Family = Family(rootSessionId: string, at: int, sessions: seq<string>, nextBefore: Option<int>)

  /** One `openChildSession` that has passed its check and waits for an earlier connection to stop, or still waits for
      the child's first snapshot (`held` is none). */
  datatype Opening = Opening(sessionId: string, epoch: nat, serial: nat, revision: nat, held: Option<Held>,
                             checked: bool)

  datatype Request = Request(epoch: nat, sessionId: string, nextLeafId: string)

  /** `selectedSessionId` is the Session of `projection`; `revision` is the identity of the `family` object. */
  datatype Client = Client(
    disposed: bool,
    epoch: nat,
    executing: bool,
    projection: Option<Held>,
    cached: map<string, Held>,
    focused: Option<string>,
    family: Option<Family>,
    revision: nat,
    childSerial: nat,
    openings: map<nat, Opening>,
    backs: nat,
    history: Option<Request>)

  const INITIAL := Client(false, 0, false, None, map[], None, None, 0, 0, map[], 0, None)

  datatype Step =
    | Select
    | Selected(epoch: nat, sessionId: string, snapshot: Snapshot, family: Family)
    | Observe(event: Event, epoch: nat)
    | AskOlder
    | Older(page: Page)
    | OlderFailed
    | FamilyRefreshed(epoch: nat, family: Family)
    | FamilyExtended(epoch: nat, family: Family)
    | AskChild(id: nat, sessionId: string)
    | ChildRead(id: nat, snapshot: Snapshot)
    | ChildStopped(id: nat)
    | AskBack
    | BackStopped
    | Dispose

  // ----- families -----

  function Merged(known: seq<string>, page: seq<string>): seq<string>
    decreases |page|
  {
    if page == [] then known
    else Merged(if page[0] in known then known else known + [page[0]], page[1..])
  }

  /** `familyProjection` */
  function FamilyProjection(page: Family, previous: Option<Family>, preserveAt: bool): Family {
    Family(page.rootSessionId,
           if preserveAt && previous.Some? then previous.value.at else page.at,
           Merged(if previous.Some? then previous.value.sessions else [], page.sessions),
           page.nextBefore)
  }

  ghost predicate NoRepeats(sessions: seq<string>) {
    forall i, j :: 0 <= i < j < |sessions| ==> sessions[i] != sessions[j]
  }

  /** Pages only add Sessions: the known ones keep their places, each Session is listed once. */
  lemma {:induction false} MergedIsUnion(known: seq<string>, page: seq<string>)
    requires NoRepeats(known)
    ensures NoRepeats(Merged(known, page)) && known <= Merged(known, page)
    ensures forall id :: id in Merged(known, page) <==> id in known || id in page
    decreases |page|
  {
    if page == [] {
    } else {
      MergedIsUnion(if page[0] in known then known else known + [page[0]], page[1..]);
    }
  }

  lemma {:induction false} MergedKeeps(known: seq<string>, page: seq<string>)
    ensures forall id :: id in known ==> id in Merged(known, page)
    decreases |page|
  {
    if page == [] {
    } else {
      MergedKeeps(if page[0] in known then known else known + [page[0]], page[1..]);
    }
  }

  // ----- steps -----

  predicate Shows(client: Client, sessionId: string) {
    client.projection.Some? && client.projection.value.state.sessionId == sessionId
  }

  /** `updateProjection`; a disposed client publishes nothing. */
  function UpdateProjection(client: Client, held: Held): Client {
    var kept := if client.executing then client.(cached := client.cached[held.state.sessionId := held]) else client;
    if client.disposed then kept else kept.(projection := Some(held))
  }

  function Selecting(client: Client): Client {
    client.(epoch := client.epoch + 1, executing := false, projection := None, cached := map[], focused := None,
            family := None, childSerial := client.childSerial + 1)
  }

  function First(sessionId: string, snapshot: Snapshot, origin: nat): Held {
    Held(ProjectSnapshot(sessionId, snapshot, map[], None), origin)
  }

  /** The end of `selectThread`; `executing` tells that the selection of this epoch has been read already, which happens
      once. */
  function SelectionRead(client: Client, epoch: nat, sessionId: string, snapshot: Snapshot, page: Family): Client {
    if client.disposed || epoch != client.epoch || client.executing then client
    else
      var held := First(sessionId, snapshot, epoch);
      UpdateProjection(client.(executing := true, family := Some(FamilyProjection(page, None, true)),
                               revision := client.revision + 1, cached := map[sessionId := held]), held)
  }

  function EventSession(event: Event): string {
    if event.ConnectionSnapshot? then event.snapshot.sessionId else event.sessionId
  }

  function Target(client: Client, sessionId: string): Option<Held> {
    if sessionId in client.cached then Some(client.cached[sessionId])
    else if Shows(client, sessionId) then client.projection
    else None
  }

  /** `observeEvent` */
  function Observed(client: Client, event: Event, epoch: nat): Client {
    var id := EventSession(event);
    var target := Target(client, id);
    if client.disposed || epoch != client.epoch || target.None? then client
    else
      var held := Held(Apply(target.value.state, event).state, target.value.origin);
      var kept := if id in client.cached || client.executing then client.(cached := client.cached[id := held])
        else client;
      if !Shows(client, id) then kept
      else if Apply(target.value.state, event).Rejected? then kept.(projection := Some(held))
      else UpdateProjection(kept, held)
  }

  function OlderAsked(client: Client): Client {
    if client.history.Some? || client.projection.None? || !client.executing then client
    else
      var state := client.projection.value.state;
      match state.snapshot.conversation.nextLeafId
      case None => client
      case Some(nextLeafId) => client.(history := Some(Request(client.epoch, state.sessionId, nextLeafId)))
  }

  /** `ensureSelection` and the checks on the cursor: the page still belongs in front of what is shown. */
  predicate PageFits(client: Client, page: Page) {
    && client.history.Some? && client.projection.Some?
    && var request, state := client.history.value, client.projection.value.state;
       && client.epoch == request.epoch && state.sessionId == request.sessionId
       && state.snapshot.conversation.nextLeafId == Some(request.nextLeafId) && page.leafId == request.nextLeafId
  }

  function Spliced(held: Held, page: Page): Held {
    var state := held.state;
    var snapshot := state.snapshot.(conversation := Convergence.Splice(state.snapshot.conversation, page));
    Held(ProjectSnapshot(state.sessionId, snapshot, state.previews, Some(state.fences)), held.origin)
  }

  function OlderRead(client: Client, page: Page): Client {
    if !PageFits(client, page) then client.(history := None)
    else UpdateProjection(client, Spliced(client.projection.value, page)).(history := None)
  }

  function Reprojected(held: Held): Held {
    Held(ProjectSnapshot(held.state.sessionId, held.state.snapshot, held.state.previews, Some(held.state.fences)),
         held.origin)
  }

  function ReprojectAll(cached: map<string, Held>): map<string, Held> {
    map id | id in cached :: Reprojected(cached[id])
  }

  /** `refreshFamily` once the page is there; it is asked for only while a family is known, which one epoch never
      loses. */
  function FamilyRead(client: Client, epoch: nat, page: Family): Client {
    if client.disposed || epoch != client.epoch || client.family.None? then client
    else
      var family := FamilyProjection(page, client.family, false);
      var focused := if client.focused.Some? && client.focused.value in family.sessions then client.focused else None;
      var active := if focused.Some? then focused.value else family.rootSessionId;
      var next := client.(family := Some(family), revision := client.revision + 1,
                          cached := ReprojectAll(client.cached),
                          focused := focused);
      if active in next.cached then UpdateProjection(next, next.cached[active]) else next
  }

  /** `loadMoreCollaborators` once the page is there. */
  function MoreRead(client: Client, epoch: nat, page: Family): Client {
    if client.disposed || epoch != client.epoch || client.family.None? then client
    else
      var family := FamilyProjection(page, client.family, true);
      var next := client.(family := Some(family), revision := client.revision + 1);
      if family.rootSessionId !in client.cached then next
      else
        var held := Reprojected(client.cached[family.rootSessionId]);
        var kept := next.(cached := next.cached[held.state.sessionId := held]);
        if client.focused.None? then UpdateProjection(kept, held) else kept
  }

  /** The last part of `openChildSession`, after the earlier connection has stopped. */
  function Focus(client: Client, sessionId: string, held: Held): Client {
    UpdateProjection(client.(cached := client.cached[sessionId := held], focused := Some(sessionId)), held)
  }

  predicate MustStop(client: Client, sessionId: string) {
    client.focused.Some? && client.focused.value != sessionId
  }

  /** The check has passed: the child is shown at once, or after the connection focused before has stopped. */
  function Checked(client: Client, id: nat, opening: Opening, held: Held): Client {
    if MustStop(client, opening.sessionId)
    then client.(openings := client.openings[id := opening.(held := Some(held), checked := true)])
    else Focus(client, opening.sessionId, held).(openings := client.openings - {id})
  }

  predicate CanOpen(client: Client, sessionId: string) {
    && !client.disposed && client.family.Some? && sessionId in client.family.value.sessions
    && client.family.value.rootSessionId != sessionId && client.family.value.rootSessionId in client.cached
  }

  function ChildAsked(client: Client, id: nat, sessionId: string): Client {
    if id in client.openings || !CanOpen(client, sessionId) then client
    else
      var next := client.(childSerial := client.childSerial + 1);
      var opening := Opening(sessionId, client.epoch, next.childSerial, client.revision, None, false);
      if sessionId in client.cached then Checked(next, id, opening, client.cached[sessionId])
      else next.(openings := next.openings[id := opening])
  }

  function ChildReadStep(client: Client, id: nat, snapshot: Snapshot): Client {
    if id !in client.openings || client.openings[id].checked then client
    else
      var opening := client.openings[id];
      if client.disposed || opening.epoch != client.epoch || opening.serial != client.childSerial
         || client.family.None? || opening.revision != client.revision
      then client.(openings := client.openings - {id})
      else Checked(client, id, opening, First(opening.sessionId, snapshot, opening.epoch))
  }

  function ChildStoppedStep(client: Client, id: nat): Client {
    if id !in client.openings || client.openings[id].held.None? then client
    else Focus(client, client.openings[id].sessionId,
               client.openings[id].held.value).(openings := client.openings - {id})
  }

  function BackAsked(client: Client): Client {
    if client.focused.None? then client else client.(childSerial := client.childSerial + 1, backs := client.backs + 1)
  }

  function BackStoppedStep(client: Client): Client {
    if client.backs == 0 then client
    else
      var next := client.(backs := client.backs - 1);
      if client.family.None? || client.family.value.rootSessionId !in client.cached then next
      else UpdateProjection(next.(focused := None), client.cached[client.family.value.rootSessionId])
  }

  function Next(client: Client, step: Step): Client {
    match step
    case Select => if client.disposed then client else Selecting(client)
    case Selected(epoch, sessionId, snapshot, family) => SelectionRead(client, epoch, sessionId, snapshot, family)
    case Observe(event, epoch) => Observed(client, event, epoch)
    case AskOlder => OlderAsked(client)
    case Older(page) => OlderRead(client, page)
    case OlderFailed => client.(history := None)
    case FamilyRefreshed(epoch, family) => FamilyRead(client, epoch, family)
    case FamilyExtended(epoch, family) => MoreRead(client, epoch, family)
    case AskChild(id, sessionId) => ChildAsked(client, id, sessionId)
    case ChildRead(id, snapshot) => ChildReadStep(client, id, snapshot)
    case ChildStopped(id) => ChildStoppedStep(client, id)
    case AskBack => BackAsked(client)
    case BackStopped => BackStoppedStep(client)
    case Dispose => client.(disposed := true, childSerial := client.childSerial + 1)
  }

  function Run(client: Client, steps: seq<Step>): Client {
    if steps == [] then client else Next(Run(client, steps[..|steps| - 1]), steps[|steps| - 1])
  }
}
