/** The client's reducer over committed events, snapshots and lossy live previews
    (packages/client/src/projection.ts). */
module Projection {
  import opened Bindings

  datatype Role = User | Assistant | ToolRole

  datatype Entry = Entry(id: string, messages: seq<(Role, string)>)

  datatype Conversation = Conversation(leafId: Option<string>, entries: seq<Entry>, nextLeafId: Option<string>)

  /** `rest` stands for the queue, runs and lifecycle of the Session, which the reducer only carries. */
  datatype Snapshot = Snapshot(sessionId: string, cursor: int, conversation: Conversation, rest: string)

  datatype Preview = Preview(
    runId: string,
    attemptFence: int,
    modelCallId: string,
    modelAttemptId: string,
    attempt: int,
    generation: int,
    sequence: int,
    reasoning: string,
    text: string,
    cursor: int)

  datatype Fence = Fence(attemptFence: int, generation: int, modelCallId: string, modelAttemptId: string)

  datatype State = State(
    sessionId: string,
    snapshot: Snapshot,
    previews: map<string, Preview>,
    fences: map<string, Fence>,
    connectionEpoch: int,
    committedCursor: int,
    needsSnapshot: bool)

  datatype Channel = ReasoningChannel | TextChannel

  datatype Change = Change(channel: Channel, offset: nat, delta: string)

  datatype Body =
    | ModelPreview(runId: string, modelCallId: string, modelAttemptId: string, attempt: int, generation: int,
                   sequence: int, changes: seq<Change>)
    | PreviewReset(runId: string, generation: int)

  datatype Update = Update(
    previousLeafId: Option<string>,
    leafId: Option<string>,
    afterEntryId: Option<string>,
    entries: seq<Entry>,
    reset: bool,
    nextLeafId: Option<string>)

  datatype Event =
    | ConnectionSnapshot(snapshot: Snapshot, epoch: int)
    | PreviewDelivery(sessionId: string, runId: string, authorityAttemptFence: int, body: Body)
    | Committed(sessionId: string, cursor: int, update: Option<Update>)

  datatype Result = Applied(state: State) | Ignored(state: State) | Rejected(state: State)

  // ----- snapshots -----

  /** `projectSnapshot`; fences not given are derived from the previews given. */
  function ProjectSnapshot(sessionId: string, snapshot: Snapshot, previews: map<string, Preview>,
                           fences: Option<map<string, Fence>>): State {
    var known := match fences
      case Some(given) => given
      case None => map runId | runId in previews :: FenceOf(previews[runId]);
    State(sessionId, snapshot, previews, known, 0, snapshot.cursor, false)
  }

  function FenceOf(preview: Preview): Fence {
    Fence(preview.attemptFence, preview.generation, preview.modelCallId, preview.modelAttemptId)
  }

  function WithSnapshot(state: State, snapshot: Snapshot, previews: map<string, Preview>): State {
    ProjectSnapshot(state.sessionId, snapshot, previews, Some(state.fences))
      .(fences := state.fences, connectionEpoch := state.connectionEpoch)
  }

  // ----- conversation -----

  /** `findIndex(...) + 1`: zero when the entry is not loaded. */
  function CountThrough(entries: seq<Entry>, id: string): (n: nat)
    ensures n <= |entries|
    ensures n > 0 ==> entries[n - 1].id == id
    ensures n == 0 ==> forall i :: 0 <= i < |entries| ==> entries[i].id != id
  {
    if entries == [] then 0
    else if entries[0].id == id then 1
    else
      var rest := CountThrough(entries[1..], id);
      if rest == 0 then (assert forall i :: 0 < i < |entries| ==> entries[i] == entries[1..][i - 1]; 0) else rest + 1
  }

  function ApplyConversation(conversation: Conversation, update: Update): Option<Conversation> {
    if update.previousLeafId != conversation.leafId then None
    else
      var entries :=
        if update.reset then update.entries
        else conversation.entries[..if update.afterEntryId.None? then 0
                                    else CountThrough(conversation.entries, update.afterEntryId.value)]
                                      + update.entries;
      Some(Conversation(update.leafId, entries,
                        if update.nextLeafId.None? then conversation.nextLeafId else update.nextLeafId))
  }

  predicate HasAssistant(update: Update) {
    exists i :: 0 <= i < |update.entries| &&
      exists j :: 0 <= j < |update.entries[i].messages| && update.entries[i].messages[j].0 == Assistant
  }

  function ApplyCommitted(state: State, cursor: int, update: Option<Update>): Result {
    if cursor <= state.committedCursor then Ignored(state)
    else if cursor != state.committedCursor + 1 then Rejected(state.(needsSnapshot := true))
    else
      var conversation := if update.None? then Some(state.snapshot.conversation)
                          else ApplyConversation(state.snapshot.conversation, update.value);
      if conversation.None? then Rejected(state.(needsSnapshot := true))
      else
        var snapshot := state.snapshot.(conversation := conversation.value, cursor := cursor);
        var previews := if update.Some? && HasAssistant(update.value) then map[] else state.previews;
        Applied(WithSnapshot(state.(committedCursor := cursor), snapshot, previews))
  }

  // ----- previews -----

  function Splice(value: string, change: Change): Option<string> {
    if change.offset > |value| then None else Some(value[..change.offset] + change.delta)
  }

  /** The two channels after the changes of one delivery, or none when an offset lies beyond its channel. */
  function FoldChanges(reasoning: string, text: string, changes: seq<Change>): Option<(string, string)>
    decreases |changes|
  {
    if changes == [] then Some((reasoning, text))
    else
      var change := changes[0];
      match Splice(if change.channel == ReasoningChannel then reasoning else text, change)
      case None => None
      case Some(next) =>
        if change.channel == ReasoningChannel then FoldChanges(next, text, changes[1..])
        else FoldChanges(reasoning, next, changes[1..])
  }

  /** The loop of `applyPreview`. */
  method ApplyChanges(reasoning: string, text: string, changes: seq<Change>) returns (r: Option<(string, string)>)
    ensures r == FoldChanges(reasoning, text, changes)
  {
    var shownReasoning, shownText := reasoning, text;
    for i := 0 to |changes|
      invariant FoldChanges(reasoning, text, changes) == FoldChanges(shownReasoning, shownText, changes[i..])
    {
      var change := changes[i];
      assert changes[i..][0] == change && changes[i..][1..] == changes[i + 1..];
      var value := if change.channel == ReasoningChannel then shownReasoning else shownText;
      if change.offset > |value| { return None; }
      var next := value[..change.offset] + change.delta;
      if change.channel == ReasoningChannel { shownReasoning := next; } else { shownText := next; }
    }
    return Some((shownReasoning, shownText));
  }

  predicate Older(attemptFence: int, generation: int, thanFence: int, thanGeneration: int) {
    attemptFence < thanFence || (attemptFence == thanFence && generation < thanGeneration)
  }

  /** The fence refuses an older attempt or generation, and another model attempt of the same generation. */
  predicate FenceRefuses(fence: Fence, attemptFence: int, body: Body)
    requires body.ModelPreview?
  {
    || Older(attemptFence, body.generation, fence.attemptFence, fence.generation)
    || (attemptFence == fence.attemptFence && body.generation == fence.generation
        && (body.modelCallId != fence.modelCallId || body.modelAttemptId != fence.modelAttemptId))
  }

  predicate CurrentIsNewer(current: Preview, attemptFence: int, generation: int) {
    Older(attemptFence, generation, current.attemptFence, current.generation)
  }

  /** The rest of the checks against the preview shown: repeated or earlier sequence, another model attempt. */
  predicate CurrentRefuses(current: Preview, attemptFence: int, body: Body)
    requires body.ModelPreview?
  {
    || (attemptFence == current.attemptFence && body.generation == current.generation
        && body.sequence <= current.sequence)
    || body.modelCallId != current.modelCallId || body.modelAttemptId != current.modelAttemptId
  }

  function Show(state: State, runId: string, attemptFence: int, body: Body): Result
    requires body.ModelPreview?
  {
    var reasoning := if runId in state.previews then state.previews[runId].reasoning else "";
    var text := if runId in state.previews then state.previews[runId].text else "";
    match FoldChanges(reasoning, text, body.changes)
    case None => Rejected(state)
    case Some((nextReasoning, nextText)) =>
      var next := Preview(runId, attemptFence, body.modelCallId, body.modelAttemptId, body.attempt, body.generation,
                          body.sequence, nextReasoning, nextText, state.committedCursor);
      Applied(state.(previews := state.previews[runId := next], fences := state.fences[runId := FenceOf(next)]))
  }

  function ApplyPreview(state: State, sessionId: string, runId: string, attemptFence: int, body: Body): Result {
    if sessionId != state.sessionId || runId != body.runId then Rejected(state)
    else if body.ModelPreview? then
      if runId in state.fences && FenceRefuses(state.fences[runId], attemptFence, body) then Ignored(state)
      else if runId in state.previews && CurrentIsNewer(state.previews[runId], attemptFence, body.generation)
      then Ignored(state)
      else if runId in state.previews && CurrentRefuses(state.previews[runId], attemptFence, body) then Ignored(state)
      else Show(state, runId, attemptFence, body)
    else if (runId in state.fences
             && Older(attemptFence, body.generation, state.fences[runId].attemptFence, state.fences[runId].generation))
            || (runId in state.previews && CurrentIsNewer(state.previews[runId], attemptFence, body.generation))
    then Ignored(state)
    else Applied(state.(previews := state.previews - {runId}))
  }

  function Apply(state: State, event: Event): Result {
    match event
    case ConnectionSnapshot(snapshot, epoch) =>
      if snapshot.sessionId != state.sessionId then Rejected(state)
      else if epoch < state.connectionEpoch then Ignored(state)
      else
        var projected := ProjectSnapshot(state.sessionId, snapshot, map[], None);
        Applied(projected.(fences := state.fences, connectionEpoch := epoch))
    case PreviewDelivery(sessionId, runId, attemptFence, body) =>
      ApplyPreview(state, sessionId, runId, attemptFence, body)
    case Committed(sessionId, cursor, update) =>
      if sessionId != state.sessionId then Rejected(state) else ApplyCommitted(state, cursor, update)
  }

  function Run(state: State, events: seq<Event>): State {
    if events == [] then state else Apply(Run(state, events[..|events| - 1]), events[|events| - 1]).state
  }

  // ----- fencing -----

  /** Every preview shown stands exactly at its Run's fence. */
  predicate Fenced(state: State) {
    forall runId :: runId in state.previews ==>
      runId in state.fences && state.fences[runId] == FenceOf(state.previews[runId])
  }

  /** No fence is lost or moves back in (attemptFence, generation); epochs never fall. */
  ghost predicate Advances(state: State, next: State) {
    && (forall runId :: runId in state.fences ==>
          runId in next.fences && !Older(next.fences[runId].attemptFence, next.fences[runId].generation,
                                         state.fences[runId].attemptFence, state.fences[runId].generation))
    && state.connectionEpoch <= next.connectionEpoch
  }

  lemma StepFenced(state: State, event: Event)
    requires Fenced(state)
    ensures Fenced(Apply(state, event).state) && Advances(state, Apply(state, event).state)
  {
  }

  /** Preview fencing: along every run, through snapshots, resets and assistant entries, fences and epochs only advance
      and every preview shown stands at its fence. */
  lemma {:induction false} PreviewFencing(state: State, events: seq<Event>)
    requires Fenced(state)
    ensures Fenced(Run(state, events)) && Advances(state, Run(state, events))
  {
    if events == [] {
    } else {
      PreviewFencing(state, events[..|events| - 1]);
      StepFenced(Run(state, events[..|events| - 1]), events[|events| - 1]);
    }
  }

  /** The reducer without the age checks against the preview shown. */
  function ApplyPreviewByFence(state: State, sessionId: string, runId: string, attemptFence: int, body: Body): Result {
    if sessionId != state.sessionId || runId != body.runId then Rejected(state)
    else if body.ModelPreview? then
      if runId in state.fences && FenceRefuses(state.fences[runId], attemptFence, body) then Ignored(state)
      else if runId in state.previews && CurrentRefuses(state.previews[runId], attemptFence, body) then Ignored(state)
      else Show(state, runId, attemptFence, body)
    else if runId in state.fences
            && Older(attemptFence, body.generation, state.fences[runId].attemptFence, state.fences[runId].generation)
    then Ignored(state)
    else Applied(state.(previews := state.previews - {runId}))
  }

  /** On every reachable state the age checks against the preview shown never decide anything: the reducer is the one
      that looks at the fence alone. */
  lemma {:induction false} AgeChecksAreRedundant(sessionId: string, snapshot: Snapshot, events: seq<Event>,
                              session: string, runId: string, attemptFence: int, body: Body)
    ensures var state := Run(ProjectSnapshot(sessionId, snapshot, map[], None), events);
            ApplyPreview(state, session, runId, attemptFence, body)
              == ApplyPreviewByFence(state, session, runId, attemptFence, body)
  {
    PreviewFencing(ProjectSnapshot(sessionId, snapshot, map[], None), events);
  }

  // ----- preview text -----

  /** One attempt of one model call; its server text is what it will have streamed in all. */
  datatype Attempt = Attempt(runId: string, modelCallId: string, modelAttemptId: string)

  datatype Stream = Stream(reasoning: string, text: string)

  /** A change quotes the attempt's server text. */
  predicate Quotes(stream: Stream, change: Change) {
    var source := if change.channel == ReasoningChannel then stream.reasoning else stream.text;
    change.offset + |change.delta| <= |source|
    && source[change.offset..change.offset + |change.delta|] == change.delta
  }

  /** The delivery comes from a server whose text for one attempt only grows. */
  ghost predicate FromServer(server: Attempt -> Stream, event: Event) {
    event.PreviewDelivery? && event.body.ModelPreview? ==>
      forall i :: 0 <= i < |event.body.changes| ==>
        Quotes(server(Attempt(event.body.runId, event.body.modelCallId, event.body.modelAttemptId)),
               event.body.changes[i])
  }

  ghost predicate ShowsPrefixes(server: Attempt -> Stream, state: State) {
    forall runId :: runId in state.previews ==>
      var preview := state.previews[runId];
      var stream := server(Attempt(runId, preview.modelCallId, preview.modelAttemptId));
      preview.reasoning <= stream.reasoning && preview.text <= stream.text
  }

  lemma {:induction false} FoldPrefix(stream: Stream, reasoning: string, text: string, changes: seq<Change>)
    requires reasoning <= stream.reasoning && text <= stream.text
    requires forall i :: 0 <= i < |changes| ==> Quotes(stream, changes[i])
    ensures var r := FoldChanges(reasoning, text, changes);
            r.Some? ==> r.value.0 <= stream.reasoning && r.value.1 <= stream.text
    decreases |changes|
  {
    if changes == [] {
    } else {
      var change := changes[0];
      assert Quotes(stream, change);
      assert forall i :: 0 <= i < |changes[1..]| ==> changes[1..][i] == changes[i + 1];
      var value := if change.channel == ReasoningChannel then reasoning else text;
      if change.offset <= |value| {
        var next := value[..change.offset] + change.delta;
        if change.channel == ReasoningChannel { FoldPrefix(stream, next, text, changes[1..]); }
        else { FoldPrefix(stream, reasoning, next, changes[1..]); }
      }
    }
  }

  lemma StepPrefix(server: Attempt -> Stream, state: State, event: Event)
    requires ShowsPrefixes(server, state) && FromServer(server, event)
    ensures ShowsPrefixes(server, Apply(state, event).state)
  {
    if event.PreviewDelivery? && event.body.ModelPreview? {
      var runId, body := event.runId, event.body;
      var result := Apply(state, event);
      if result.Applied? {
        var stream := server(Attempt(runId, body.modelCallId, body.modelAttemptId));
        var reasoning := if runId in state.previews then state.previews[runId].reasoning else "";
        var text := if runId in state.previews then state.previews[runId].text else "";
        FoldPrefix(stream, reasoning, text, body.changes);
      }
    }
  }

  /** Preview prefix: under any loss, duplication and reordering of deliveries, mixed with snapshots, resets and
      committed events, the text and reasoning shown for a Run are a prefix of what the server streams for the model
      attempt shown. */
  lemma {:induction false} PreviewPrefix(server: Attempt -> Stream, state: State, events: seq<Event>)
    requires ShowsPrefixes(server, state)
    requires forall i :: 0 <= i < |events| ==> FromServer(server, events[i])
    ensures ShowsPrefixes(server, Run(state, events))
  {
    if events == [] {
    } else {
      PreviewPrefix(server, state, events[..|events| - 1]);
      StepPrefix(server, Run(state, events[..|events| - 1]), events[|events| - 1]);
    }
  }

  /** A preview delivery that is not applied changes nothing; a committed event that is refused only asks for a
      snapshot, and a snapshot of another Session or an older epoch changes nothing. */
  lemma RefusedEventsChangeNothing(state: State, event: Event)
    requires !Apply(state, event).Applied?
    ensures Apply(state, event).state == state
            || (event.Committed? && Apply(state, event) == Rejected(state.(needsSnapshot := true)))
  {
  }
}
