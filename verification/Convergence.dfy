/** Agreement of the client's conversation with the server's: committed updates applied by the reducer
    (packages/client/src/projection.ts) while `loadOlder` of packages/client/src/thread.ts splices history
    pages in. */
module Convergence {
  import opened Bindings
  import opened Projection

  /** The server's conversation tree: every node with its root-to-node entries. */
  type Tree = map<string, seq<Entry>>

  function Path(tree: Tree, leaf: Option<string>): seq<Entry> {
    if leaf.Some? && leaf.value in tree then tree[leaf.value] else []
  }

  ghost predicate DistinctIds(entries: seq<Entry>) {
    forall i, j :: 0 <= i < j < |entries| ==> entries[i].id != entries[j].id
  }

  ghost predicate WellFormed(tree: Tree) {
    forall node :: node in tree ==> DistinctIds(tree[node])
  }

  /** The committed history of one Session: its tree, and the leaf at every cursor. */
  datatype Log = Log(tree: Tree, leafAt: int -> Option<string>)

  /** `window` holds the last entries of `path`. */
  predicate IsSuffix(window: seq<Entry>, path: seq<Entry>) {
    |window| <= |path| && window == path[|path| - |window|..]
  }

  /** A page cursor from which older entries can be spliced before `window`: the entries it leads to are the
      beginning of `path`, up to the window at least. */
  predicate Reaches(tree: Tree, next: Option<string>, window: seq<Entry>, path: seq<Entry>) {
    Path(tree, next) <= path && |Path(tree, next)| + |window| >= |path|
  }

  /** The client's conversation agrees with the server's path. */
  predicate Converged(tree: Tree, conversation: Conversation) {
    var path := Path(tree, conversation.leafId);
    IsSuffix(conversation.entries, path) && Reaches(tree, conversation.nextLeafId, conversation.entries, path)
  }

  /** What a server update says: the new path keeps the old one up to the named entry and goes on with the new entries,
      or, for a reset, ends with them. */
  predicate Describes(tree: Tree, update: Update) {
    var before, after := Path(tree, update.previousLeafId), Path(tree, update.leafId);
    if update.reset then IsSuffix(update.entries, after)
    else
      && IsSuffix(update.entries, after)
      && var kept := |after| - |update.entries|;
         && kept <= |before| && after[..kept] == before[..kept]
         && match update.afterEntryId
            case None => kept == 0
            case Some(id) => kept > 0 && before[kept - 1].id == id
  }

  function NextCursor(conversation: Conversation, update: Update): Option<string> {
    if update.nextLeafId.None? then conversation.nextLeafId else update.nextLeafId
  }

  /** The loaded entries the update keeps. */
  function KeptLoaded(conversation: Conversation, update: Update): nat {
    if update.reset || update.afterEntryId.None? then 0
    else CountThrough(conversation.entries, update.afterEntryId.value)
  }

  /** After the update older history is reachable: the cursor in force (the one it carries, else the one held) leads
      to a beginning of the new path that meets the window kept. */
  predicate KeepsCursor(tree: Tree, conversation: Conversation, update: Update) {
    Reaches(tree, NextCursor(conversation, update), WindowAfter(conversation, update), Path(tree, update.leafId))
  }

  function WindowAfter(conversation: Conversation, update: Update): seq<Entry> {
    conversation.entries[..KeptLoaded(conversation, update)] + update.entries
  }

  lemma Rebase(before: seq<Entry>, after: seq<Entry>, start: nat, branch: nat)
    requires start <= branch <= |before| && branch <= |after| && after[..branch] == before[..branch]
    ensures before[start..][..branch - start] + after[branch..] == after[start..]
  {
    assert before[start..][..branch - start] == before[..branch][start..];
    assert after[start..branch] == after[..branch][start..];
  }

  lemma SamePlace(path: seq<Entry>, i: nat, j: nat)
    requires DistinctIds(path) && i < |path| && j < |path| && path[i].id == path[j].id
    ensures i == j
  {
  }

  /** The newest part of the server's path, whatever the cursor to older history is worth. */
  predicate Current(tree: Tree, conversation: Conversation) {
    IsSuffix(conversation.entries, Path(tree, conversation.leafId))
  }

  /** Distinct entries make the loaded branch point the server's branch point. */
  lemma BranchPoint(tree: Tree, conversation: Conversation, update: Update)
    requires WellFormed(tree) && Current(tree, conversation) && Describes(tree, update)
    requires update.previousLeafId == conversation.leafId && KeptLoaded(conversation, update) > 0
    ensures var before, after := Path(tree, update.previousLeafId), Path(tree, update.leafId);
            && |before| - |conversation.entries| + KeptLoaded(conversation, update) == |after| - |update.entries|
            && WindowAfter(conversation, update) == after[|before| - |conversation.entries|..]
  {
    var before, after := Path(tree, update.previousLeafId), Path(tree, update.leafId);
    var window, kept := conversation.entries, KeptLoaded(conversation, update);
    var start, branch := |before| - |window|, |after| - |update.entries|;
    assert before[start + kept - 1] == window[kept - 1];
    assert DistinctIds(before);
    assert start + kept == branch by { SamePlace(before, start + kept - 1, branch - 1); }
    assert after[..branch] == before[..branch] && update.entries == after[branch..] && window == before[start..];
    assert WindowAfter(conversation, update) == window[..kept] + update.entries;
    hide *;
    Rebase(before, after, start, branch);
  }

  /** A well-formed update always leaves the newest part of the new path, wherever the branch point lies and
      whatever the cursor is worth. */
  lemma UpdateKeepsSuffix(tree: Tree, conversation: Conversation, update: Update)
    requires WellFormed(tree) && Current(tree, conversation) && Describes(tree, update)
    requires update.previousLeafId == conversation.leafId
    ensures var applied := ApplyConversation(conversation, update);
            && applied == Some(Conversation(update.leafId, WindowAfter(conversation, update),
                                            NextCursor(conversation, update)))
            && Current(tree, applied.value)
  {
    if KeptLoaded(conversation, update) > 0 {
      BranchPoint(tree, conversation, update);
    } else {
      assert conversation.entries[..0] + update.entries == update.entries;
    }
    hide IsSuffix, Describes, Path;
  }

  /** When a cursor held still leads into the new path: an update that carries none keeps it exactly when it leads to a
      beginning of the new path, and, if none of the loaded entries is kept, up to the branch point. */
  lemma UncarriedCursor(tree: Tree, conversation: Conversation, update: Update)
    requires WellFormed(tree) && Converged(tree, conversation) && Describes(tree, update)
    requires update.previousLeafId == conversation.leafId && update.nextLeafId.None?
    ensures var older, after := Path(tree, conversation.nextLeafId), Path(tree, update.leafId);
            KeepsCursor(tree, conversation, update) <==>
              older <= after && (KeptLoaded(conversation, update) == 0 ==> |older| + |update.entries| >= |after|)
  {
    if KeptLoaded(conversation, update) > 0 {
      BranchPoint(tree, conversation, update);
    } else {
      assert conversation.entries[..0] + update.entries == update.entries;
    }
  }

  /** What a server can promise by itself: every update appends, or carries a cursor that leads up to its own
      entries. */
  predicate Reliable(tree: Tree, update: Update) {
    if update.nextLeafId.None? then
      !update.reset && Path(tree, update.leafId) == Path(tree, update.previousLeafId) + update.entries
    else Reaches(tree, update.nextLeafId, update.entries, Path(tree, update.leafId))
  }

  lemma AppendsKeepCursor(tree: Tree, conversation: Conversation, update: Update)
    requires WellFormed(tree) && Converged(tree, conversation) && Describes(tree, update)
    requires update.previousLeafId == conversation.leafId && update.nextLeafId.None? && !update.reset
    requires Path(tree, update.leafId) == Path(tree, update.previousLeafId) + update.entries
    ensures KeepsCursor(tree, conversation, update)
  {
    var before := Path(tree, update.previousLeafId);
    UncarriedCursor(tree, conversation, update);
    if conversation.entries != [] {
      assert conversation.entries[|conversation.entries| - 1] == before[|before| - 1];
      assert KeptLoaded(conversation, update) > 0;
    }
  }

  /** A reliable update never loses the cursor, whatever the client has loaded. */
  lemma ReliableKeepsCursor(tree: Tree, conversation: Conversation, update: Update)
    requires WellFormed(tree) && Converged(tree, conversation) && Describes(tree, update) && Reliable(tree, update)
    requires update.previousLeafId == conversation.leafId
    ensures KeepsCursor(tree, conversation, update)
  {
    if update.nextLeafId.None? {
      AppendsKeepCursor(tree, conversation, update);
    }
  }

  // ----- older pages -----

  /** A history page: the entries that end at `leafId`, and the cursor before them. */
  datatype Page = Page(leafId: string, entries: seq<Entry>, nextLeafId: Option<string>)

  predicate PageOf(tree: Tree, page: Page) {
    Path(tree, page.nextLeafId) + page.entries == Path(tree, Some(page.leafId))
  }

  predicate Known(entries: seq<Entry>, id: string) {
    exists i :: 0 <= i < |entries| && entries[i].id == id
  }

  function Unknown(page: seq<Entry>, loaded: seq<Entry>): seq<Entry> {
    if page == [] then []
    else (if Known(loaded, page[0].id) then [] else [page[0]]) + Unknown(page[1..], loaded)
  }

  /** `loadOlder` once the page is there: entries not loaded yet go in front. */
  function Splice(conversation: Conversation, page: Page): Conversation {
    Conversation(conversation.leafId, Unknown(page.entries, conversation.entries) + conversation.entries,
                 page.nextLeafId)
  }

  /** On a path of distinct entries the filter drops exactly what the window already holds. */
  lemma {:induction false} UnknownIsOlder(path: seq<Entry>, from: nat, count: nat, start: nat)
    requires DistinctIds(path) && from + count <= |path| && start <= from + count
    ensures Unknown(path[from..from + count], path[start..]) == (if from < start then path[from..start] else [])
    decreases count
  {
    if count == 0 {
    } else {
      UnknownOrNot(path, from, start);
      UnknownIsOlder(path, from + 1, count - 1, start);
      hide Known, DistinctIds;
      Uncons(path, from, from + count);
      var loaded := path[start..];
      assert Unknown(path[from..from + count], loaded)
          == (if Known(loaded, path[from].id) then [] else [path[from]])
            + Unknown(path[from + 1..from + count], loaded);
      hide Unknown;
      if from < start { Uncons(path, from, start); }
    }
  }

  lemma Uncons(path: seq<Entry>, from: nat, to: nat)
    requires from < to <= |path|
    ensures path[from..to] != [] && path[from..to][0] == path[from] && path[from..to][1..] == path[from + 1..to]
    ensures [path[from]] + path[from + 1..to] == path[from..to]
  {
  }

  lemma UnknownOrNot(path: seq<Entry>, i: nat, start: nat)
    requires DistinctIds(path) && i < |path| && start <= |path|
    ensures Known(path[start..], path[i].id) <==> start <= i
  {
    if start <= i { assert path[start..][i - start] == path[i]; }
  }

  lemma PagePlace(path: seq<Entry>, reach: seq<Entry>, older: seq<Entry>, page: seq<Entry>)
    requires reach <= path && older + page == reach
    ensures older <= path && page == path[|older|..|older| + |page|] && |older| + |page| == |reach| <= |path|
  {
    assert page == reach[|older|..] && older == reach[..|older|];
  }

  lemma Join(path: seq<Entry>, from: nat, start: nat)
    requires from <= start <= |path|
    ensures path[from..start] + path[start..] == path[from..]
  {
  }

  /** A page that leads up to the window, spliced in front of it. */
  lemma SplicedWindow(path: seq<Entry>, from: nat, count: nat, start: nat)
    requires DistinctIds(path) && start <= from + count <= |path|
    ensures Unknown(path[from..from + count], path[start..]) + path[start..]
            == path[if from < start then from else start..]
  {
    hide *;
    UnknownIsOlder(path, from, count, start);
    if from < start {
      Join(path, from, start);
    } else {
      assert [] + path[start..] == path[start..];
    }
  }

  /** Splicing a history page taken at the cursor in force keeps the conversation converged. */
  lemma SpliceConverges(tree: Tree, conversation: Conversation, page: Page)
    requires WellFormed(tree) && Converged(tree, conversation) && PageOf(tree, page)
    requires conversation.nextLeafId == Some(page.leafId)
    ensures Converged(tree, Splice(conversation, page))
    ensures |conversation.entries| <= |Splice(conversation, page).entries|
  {
    var path, reach := Path(tree, conversation.leafId), Path(tree, conversation.nextLeafId);
    var older, window := Path(tree, page.nextLeafId), conversation.entries;
    assert DistinctIds(path) && older + page.entries == reach && reach <= path && |reach| + |window| >= |path|;
    var start := |path| - |window|;
    assert window == path[start..];
    var next := Splice(conversation, page);
    assert next.entries == Unknown(page.entries, window) + window && next.leafId == conversation.leafId
        && next.nextLeafId == page.nextLeafId;
    assert older <= path && next.entries == path[if |older| < start then |older| else start..] by {
      hide *;
      PagePlace(path, reach, older, page.entries);
      SplicedWindow(path, |older|, |page.entries|, start);
    }
    hide Splice, Unknown, PageOf, WellFormed, DistinctIds, Path;
  }

  /** Two paths of one tree share what leads to an entry they share: entries have one parent. */
  ghost predicate ShareParents(p: seq<Entry>, q: seq<Entry>) {
    forall i, j :: 0 <= i < |p| && 0 <= j < |q| && p[i].id == q[j].id ==> i == j && p[..i + 1] == q[..j + 1]
  }

  ghost predicate OneParent(tree: Tree) {
    forall a, b :: a in tree && b in tree ==> ShareParents(tree[a], tree[b])
  }

  lemma OneParentIsWellFormed(tree: Tree)
    requires OneParent(tree)
    ensures WellFormed(tree)
  {
    forall node | node in tree ensures DistinctIds(tree[node]) {
      assert ShareParents(tree[node], tree[node]);
    }
  }

  /** The page adds nothing, or it was asked for at a cursor that leads to a beginning of the path up to the window. */
  predicate SpliceFits(tree: Tree, conversation: Conversation, page: Page) {
    || Unknown(page.entries, conversation.entries) == []
    || Reaches(tree, conversation.nextLeafId, conversation.entries, Path(tree, conversation.leafId))
  }

  /** The last entry that the filter lets through: all later ones of the page are loaded. */
  lemma {:induction false} LastUnknown(page: seq<Entry>, loaded: seq<Entry>) returns (k: nat)
    requires Unknown(page, loaded) != []
    ensures var added := Unknown(page, loaded);
            k < |page| && page[k] == added[|added| - 1] && forall j :: k < j < |page| ==> Known(loaded, page[j].id)
    decreases |page|
  {
    hide Known;
    var rest := Unknown(page[1..], loaded);
    if rest == [] {
      k := 0;
      AllKnown(page[1..], loaded);
      assert forall j :: 0 < j < |page| ==> page[j] == page[1..][j - 1];
    } else {
      var m := LastUnknown(page[1..], loaded);
      k := m + 1;
      assert forall j :: 0 < j < |page| ==> page[j] == page[1..][j - 1];
    }
  }

  lemma {:induction false} AllKnown(page: seq<Entry>, loaded: seq<Entry>)
    requires Unknown(page, loaded) == []
    ensures forall j :: 0 <= j < |page| ==> Known(loaded, page[j].id)
    decreases |page|
  {
    hide Known;
    if page == [] {
    } else {
      AllKnown(page[1..], loaded);
      assert forall j :: 0 < j < |page| ==> page[j] == page[1..][j - 1];
    }
  }

  /** What was asked for at `reach` and still fits in front of the window can only be the beginning of the path. */
  lemma OnlyTheBeginningFits(path: seq<Entry>, reach: seq<Entry>, older: nat, start: nat)
    requires ShareParents(path, reach) && older <= |reach| && start <= |path|
    requires var added := Unknown(reach[older..], path[start..]);
             added != [] && |added| <= start && added == path[start - |added|..start]
    ensures reach <= path && |reach| >= start
  {
    var page, added := reach[older..], Unknown(reach[older..], path[start..]);
    var k := LastUnknown(page, path[start..]);
    assert path[start - 1] == added[|added| - 1] == page[k] == reach[older + k];
    assert older + k == start - 1 && path[..start] == reach[..start];
    if k + 1 < |page| {
      assert Known(path[start..], page[|page| - 1].id);
      var i :| 0 <= i < |path[start..]| && path[start..][i].id == page[|page| - 1].id;
      assert path[start + i].id == reach[|reach| - 1].id;
      assert path[..|reach|] == reach[..|reach|] == reach;
    } else {
      assert reach[..start] == reach;
    }
  }

  /** Splicing, exactly: the window stays the newest part of the path if and only if the page adds nothing or its cursor
      leads to a beginning of the path that meets the window. */
  lemma SpliceKeepsSuffixExactly(tree: Tree, conversation: Conversation, page: Page)
    requires OneParent(tree) && Current(tree, conversation) && PageOf(tree, page)
    requires conversation.nextLeafId == Some(page.leafId)
    ensures Current(tree, Splice(conversation, page)) <==> SpliceFits(tree, conversation, page)
  {
    var path, window := Path(tree, conversation.leafId), conversation.entries;
    var added := Unknown(page.entries, window);
    if added == [] {
      assert added + window == window;
    } else if Reaches(tree, conversation.nextLeafId, window, path) {
      OneParentIsWellFormed(tree);
      SpliceConverges(tree, conversation, page);
    } else if Current(tree, Splice(conversation, page)) {
      ForeignPageBreaks(tree, conversation, page);
    }
  }

  lemma ForeignPageBreaks(tree: Tree, conversation: Conversation, page: Page)
    requires OneParent(tree) && Current(tree, conversation) && PageOf(tree, page)
    requires conversation.nextLeafId == Some(page.leafId) && Unknown(page.entries, conversation.entries) != []
    requires Current(tree, Splice(conversation, page))
    ensures Reaches(tree, conversation.nextLeafId, conversation.entries, Path(tree, conversation.leafId))
  {
    var path, reach := Path(tree, conversation.leafId), Path(tree, conversation.nextLeafId);
    var window, older := conversation.entries, |Path(tree, page.nextLeafId)|;
    var start := |path| - |window|;
    var added := Unknown(page.entries, window);
    assert page.entries == reach[older..] && window == path[start..];
    Somewhere(page.entries, window);
    assert ShareParents(path, reach) by { PathsShare(tree, conversation.leafId, conversation.nextLeafId); }
    assert added + window == path[start - |added|..] && |added| <= start;
    hide *;
    assert added == path[start - |added|..start] by { Front(path, added, window, start); }
    OnlyTheBeginningFits(path, reach, older, start);
  }

  lemma Front(path: seq<Entry>, added: seq<Entry>, window: seq<Entry>, start: nat)
    requires |added| <= start <= |path| && window == path[start..] && added + window == path[start - |added|..]
    ensures added == path[start - |added|..start]
  {
    assert added == (added + window)[..|added|];
  }

  lemma Somewhere(page: seq<Entry>, loaded: seq<Entry>)
    requires Unknown(page, loaded) != []
    ensures page != []
  {
  }

  lemma PathsShare(tree: Tree, a: Option<string>, b: Option<string>)
    requires OneParent(tree)
    ensures ShareParents(Path(tree, a), Path(tree, b))
  {
  }

  /** Older history can be loaded completely: after a page with no further cursor the client holds the whole path. */
  lemma LastPageCompletes(tree: Tree, conversation: Conversation, page: Page)
    requires WellFormed(tree) && Converged(tree, conversation) && PageOf(tree, page)
    requires conversation.nextLeafId == Some(page.leafId) && page.nextLeafId.None?
    ensures Splice(conversation, page).entries == Path(tree, conversation.leafId)
  {
    SpliceConverges(tree, conversation, page);
  }
}
