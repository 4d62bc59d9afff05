/** What delivered events do when nothing is lost (packages/client/src/projection.ts): committed events are applied one
    after another up to the last, and previews show all the text streamed so far. */
module Delivery {
  import opened Bindings
  import opened Projection
  import opened Convergence
  import opened ThreadAgreement

  // ----- committed events -----

  /** `kept` are the entries up to the first one with this id, none if no entry has it. */
  ghost predicate KeptThrough(kept: seq<Entry>, entries: seq<Entry>, id: string) {
    if forall i :: 0 <= i < |entries| ==> entries[i].id != id then kept == []
    else
      && 0 < |kept| <= |entries| && kept == entries[..|kept|] && kept[|kept| - 1].id == id
      && forall i :: 0 <= i < |kept| - 1 ==> entries[i].id != id
  }

  /** What an update makes of a conversation, clause by clause. */
  ghost predicate Updated(before: Conversation, update: Update, after: Conversation) {
    && after.leafId == update.leafId
    && after.nextLeafId == (if update.nextLeafId.Some? then update.nextLeafId else before.nextLeafId)
    && |update.entries| <= |after.entries|
    && after.entries[|after.entries| - |update.entries|..] == update.entries
    && var kept := after.entries[..|after.entries| - |update.entries|];
       if update.reset || update.afterEntryId.None? then kept == []
       else KeptThrough(kept, before.entries, update.afterEntryId.value)
  }

  lemma {:induction false} CountsFirst(entries: seq<Entry>, id: string)
    ensures KeptThrough(entries[..CountThrough(entries, id)], entries, id)
  {
    if entries == [] {
    } else {
      CountsFirst(entries[1..], id);
      var n := CountThrough(entries, id);
      assert forall i :: 0 < i < |entries| ==> entries[i] == entries[1..][i - 1];
      if n > 1 {
        assert forall i :: 0 < i < n - 1 ==> entries[i] == entries[1..][i - 1];
      }
    }
  }

  lemma UpdatesExactly(before: Conversation, update: Update)
    ensures var after := ApplyConversation(before, update);
            && (after.Some? <==> update.previousLeafId == before.leafId)
            && (after.Some? ==> Updated(before, update, after.value))
  {
    if !update.reset && update.afterEntryId.Some? { CountsFirst(before.entries, update.afterEntryId.value); }
    var after := ApplyConversation(before, update);
    if after.Some? {
      var kept := after.value.entries[..|after.value.entries| - |update.entries|];
      assert kept == if update.reset || update.afterEntryId.None? then []
                     else before.entries[..CountThrough(before.entries, update.afterEntryId.value)];
      hide KeptThrough;
    }
  }

  /** Some entry of the update comes from the assistant. */
  ghost predicate FromAssistant(update: Update) {
    exists entry, message :: entry in update.entries && message in entry.messages && message.0 == Assistant
  }

  lemma AssistantExactly(update: Update)
    ensures HasAssistant(update) <==> FromAssistant(update)
  {
    if HasAssistant(update) {
      var i :| 0 <= i < |update.entries| &&
               exists j :: 0 <= j < |update.entries[i].messages| && update.entries[i].messages[j].0 == Assistant;
      var j :| 0 <= j < |update.entries[i].messages| && update.entries[i].messages[j].0 == Assistant;
      assert update.entries[i] in update.entries && update.entries[i].messages[j] in update.entries[i].messages;
    }
  }

  /** The event is the next one, and its update continues from the leaf held. */
  predicate Continues(state: State, cursor: int, update: Option<Update>) {
    && cursor == state.committedCursor + 1
    && (update.Some? ==> update.value.previousLeafId == state.snapshot.conversation.leafId)
  }

  /** The state after a committed event that was applied. */
  ghost predicate Committing(state: State, cursor: int, update: Option<Update>, next: State) {
    var before, after := state.snapshot.conversation, next.snapshot.conversation;
    && next == state.(committedCursor := cursor, needsSnapshot := false, previews := next.previews,
                      snapshot := state.snapshot.(cursor := cursor, conversation := after))
    && next.previews == (if update.Some? && FromAssistant(update.value) then map[] else state.previews)
    && (update.None? ==> after == before)
    && (update.Some? ==> Updated(before, update.value, after))
  }

  /** Committed events, exactly: one is applied if and only if it is the next and its update, if any, names the leaf
      held; an old one is ignored, and any other asks for a snapshot and changes nothing else. */
  lemma CommittedExactly(state: State, cursor: int, update: Option<Update>)
    ensures var result := Apply(state, Committed(state.sessionId, cursor, update));
            && (result.Applied? <==> Continues(state, cursor, update))
            && (result.Applied? ==> Committing(state, cursor, update, result.state))
            && (result == Ignored(state) <==> cursor <= state.committedCursor)
            && (!result.Applied? && cursor > state.committedCursor ==>
                  result == Rejected(state.(needsSnapshot := true)))
  {
    if update.Some? {
      UpdatesExactly(state.snapshot.conversation, update.value);
      AssistantExactly(update.value);
    }
    hide ApplyConversation, Updated, HasAssistant, FromAssistant;
  }

  /** Replacement snapshots, exactly: one is taken if and only if it is of this Session and of no earlier connection; it
      then replaces everything but the fences. */
  lemma SnapshotExactly(state: State, snapshot: Snapshot, epoch: int)
    ensures var result := Apply(state, ConnectionSnapshot(snapshot, epoch));
            && (result.Applied? <==> snapshot.sessionId == state.sessionId && epoch >= state.connectionEpoch)
            && (result.Applied? ==>
                  result.state
                  == State(state.sessionId, snapshot, map[], state.fences, epoch, snapshot.cursor, false))
  {
  }

  // ----- a run of committed events -----

  /** The committed events after cursor `from`, as many as `count`. */
  function Feed(sessionId: string, updates: int -> Option<Update>, from: int, count: nat): seq<Event> {
    seq(count, i requires 0 <= i < count => Committed(sessionId, from + 1 + i, updates(from + 1 + i)))
  }

  ghost predicate TruthfulFeed(log: Log, updates: int -> Option<Update>, from: int, count: nat) {
    forall cursor :: from < cursor <= from + count ==> UpdateOf(log, cursor, updates(cursor))
  }

  /** The projection stands at a cursor of the log. */
  predicate StandsAt(log: Log, state: State, cursor: int) {
    && state.committedCursor == state.snapshot.cursor == cursor
    && state.snapshot.conversation.leafId == log.leafAt(cursor)
  }

  lemma FeedSnoc(sessionId: string, updates: int -> Option<Update>, from: int, count: nat)
    requires count > 0
    ensures var feed := Feed(sessionId, updates, from, count);
            && feed[..count - 1] == Feed(sessionId, updates, from, count - 1)
            && feed[count - 1] == Committed(sessionId, from + count, updates(from + count))
  {
  }

  /** The next event of a truthful log is applied, wherever it leads. */
  lemma NextIsApplied(log: Log, state: State, cursor: int, update: Option<Update>)
    requires StandsAt(log, state, cursor - 1) && UpdateOf(log, cursor, update)
    ensures var result := Apply(state, Committed(state.sessionId, cursor, update));
            result.Applied? && StandsAt(log, result.state, cursor) && result.state.sessionId == state.sessionId
            && !result.state.needsSnapshot
  {
    hide Apply, Describes, KeptThrough, FromAssistant;
    CommittedExactly(state, cursor, update);
  }

  lemma FeedRun(state: State, updates: int -> Option<Update>, from: int, count: nat)
    requires count > 0
    ensures Run(state, Feed(state.sessionId, updates, from, count))
         == Apply(Run(state, Feed(state.sessionId, updates, from, count - 1)),
                  Committed(state.sessionId, from + count, updates(from + count))).state
  {
    FeedSnoc(state.sessionId, updates, from, count);
    hide Apply, Feed;
  }

  /** Catching up: a client at a cursor of the log that is given the events after it, in order, stands at the last
      of them and has asked for no snapshot. */
  lemma {:induction false} CatchesUp(log: Log, state: State, updates: int -> Option<Update>, count: nat)
    requires StandsAt(log, state, state.committedCursor)
    requires TruthfulFeed(log, updates, state.committedCursor, count)
    ensures var next := Run(state, Feed(state.sessionId, updates, state.committedCursor, count));
            && StandsAt(log, next, state.committedCursor + count) && next.sessionId == state.sessionId
            && next.needsSnapshot == (count == 0 && state.needsSnapshot)
  {
    hide *;
    var from := state.committedCursor;
    if count == 0 {
      NoFeed(state, updates, from);
    } else {
      FewerTruthful(log, updates, from, count);
      CatchesUp(log, state, updates, count - 1);
      FeedRun(state, updates, from, count);
      NextIsApplied(log, Run(state, Feed(state.sessionId, updates, from, count - 1)), from + count,
                    updates(from + count));
    }
  }

  lemma NoFeed(state: State, updates: int -> Option<Update>, from: int)
    ensures Run(state, Feed(state.sessionId, updates, from, 0)) == state
  {
    assert Feed(state.sessionId, updates, from, 0) == [];
  }

  lemma FewerTruthful(log: Log, updates: int -> Option<Update>, from: int, count: nat)
    requires count > 0 && TruthfulFeed(log, updates, from, count)
    ensures TruthfulFeed(log, updates, from, count - 1) && UpdateOf(log, from + count, updates(from + count))
  {
    hide UpdateOf;
  }

  // ----- what is shown then -----

  /** An append continues the path held, without a reset. */
  predicate Appends(tree: Tree, update: Update) {
    !update.reset && Path(tree, update.leafId) == Path(tree, update.previousLeafId) + update.entries
  }

  /** An append adds its entries after everything loaded. */
  lemma AppendAddsAll(tree: Tree, conversation: Conversation, update: Update)
    requires WellFormed(tree) && Current(tree, conversation) && Describes(tree, update) && Appends(tree, update)
    requires update.previousLeafId == conversation.leafId
    ensures ApplyConversation(conversation, update).Some?
    ensures ApplyConversation(conversation, update).value.entries == conversation.entries + update.entries
  {
    UpdateKeepsSuffix(tree, conversation, update);
    var before := Path(tree, update.previousLeafId);
    if conversation.entries != [] {
      assert conversation.entries[|conversation.entries| - 1] == before[|before| - 1];
      BranchPoint(tree, conversation, update);
      assert KeptLoaded(conversation, update) == |conversation.entries|;
    }
    assert conversation.entries[..|conversation.entries|] == conversation.entries;
  }

  /** The entries of the updates after a cursor, in order. */
  function News(updates: int -> Option<Update>, from: int, count: nat): seq<Entry> {
    if count == 0 then []
    else News(updates, from, count - 1)
         + (if updates(from + count).Some? then updates(from + count).value.entries else [])
  }

  ghost predicate AppendingFeed(log: Log, updates: int -> Option<Update>, from: int, count: nat) {
    forall cursor :: from < cursor <= from + count && updates(cursor).Some? ==> Appends(log.tree, updates(cursor).value)
  }

  /** One more event of a log: what is shown stays the newest part of the path, and ends with the event's entries. */
  lemma NextIsShown(log: Log, state: State, cursor: int, update: Option<Update>)
    requires WellFormed(log.tree) && StandsAt(log, state, cursor - 1) && UpdateOf(log, cursor, update)
    requires Current(log.tree, state.snapshot.conversation)
    ensures var next := Apply(state, Committed(state.sessionId, cursor, update)).state.snapshot.conversation;
            && Current(log.tree, next)
            && (update.None? ==> next.entries == state.snapshot.conversation.entries)
            && (update.Some? && Appends(log.tree, update.value) ==>
                  next.entries == state.snapshot.conversation.entries + update.value.entries)
  {
    hide Describes, Path, WellFormed, HasAssistant, Current;
    var conversation := state.snapshot.conversation;
    CommittedTalk(state, cursor, update);
    hide Apply, ApplyConversation;
    if update.Some? {
      UpdateKeepsSuffix(log.tree, conversation, update.value);
      if Appends(log.tree, update.value) { AppendAddsAll(log.tree, conversation, update.value); }
    }
  }

  lemma CommittedTalk(state: State, cursor: int, update: Option<Update>)
    requires Continues(state, cursor, update)
    ensures var next := Apply(state, Committed(state.sessionId, cursor, update)).state.snapshot.conversation;
            && (update.None? ==> next == state.snapshot.conversation)
            && (update.Some? ==> ApplyConversation(state.snapshot.conversation, update.value) == Some(next))
  {
    hide HasAssistant, CountThrough;
  }

  /** Catching up, shown: from the newest part of the path the client comes to the newest part of the new path, and
      if the server only appended, every entry committed meanwhile has been added, in order. */
  lemma {:induction false} CatchesUpShown(log: Log, state: State, updates: int -> Option<Update>, count: nat)
    requires WellFormed(log.tree) && Current(log.tree, state.snapshot.conversation)
    requires StandsAt(log, state, state.committedCursor)
    requires TruthfulFeed(log, updates, state.committedCursor, count)
    ensures var next := Run(state, Feed(state.sessionId, updates, state.committedCursor, count));
            && Current(log.tree, next.snapshot.conversation)
            && (AppendingFeed(log, updates, state.committedCursor, count) ==>
                  next.snapshot.conversation.entries
                  == state.snapshot.conversation.entries + News(updates, state.committedCursor, count))
  {
    hide *;
    var from := state.committedCursor;
    var appending := AppendingFeed(log, updates, from, count);
    if count == 0 {
      NoFeed(state, updates, from);
      NoNews(state.snapshot.conversation.entries, updates, from);
    } else {
      FewerTruthful(log, updates, from, count);
      CatchesUp(log, state, updates, count - 1);
      CatchesUpShown(log, state, updates, count - 1);
      FeedRun(state, updates, from, count);
      var mid := Run(state, Feed(state.sessionId, updates, from, count - 1));
      NextIsShown(log, mid, from + count, updates(from + count));
      if appending {
        FewerAppend(log, updates, from, count);
        MoreNews(state.snapshot.conversation.entries, updates, from, count);
      }
    }
  }

  lemma NoNews(entries: seq<Entry>, updates: int -> Option<Update>, from: int)
    ensures entries + News(updates, from, 0) == entries
  {
  }

  lemma MoreNews(entries: seq<Entry>, updates: int -> Option<Update>, from: int, count: nat)
    requires count > 0
    ensures var last := updates(from + count);
            entries + News(updates, from, count)
            == if last.Some? then entries + News(updates, from, count - 1) + last.value.entries
               else entries + News(updates, from, count - 1)
  {
  }

  lemma FewerAppend(log: Log, updates: int -> Option<Update>, from: int, count: nat)
    requires count > 0 && AppendingFeed(log, updates, from, count)
    ensures AppendingFeed(log, updates, from, count - 1)
    ensures updates(from + count).Some? ==> Appends(log.tree, updates(from + count).value)
  {
    hide Appends;
  }
}
