/** Loading the whole history (`loadOlder` of packages/client/src/thread.ts, asked for until there is nothing more). */
module HistoryPaging {
  import opened Bindings
  import opened Projection
  import opened Convergence
  import opened Thread
  import opened ThreadAgreement
  import opened ThreadSelection

  /** A server that answers every cursor with a page of the tree, empty only at the end of the history. */
  ghost predicate Serves(tree: Tree, serve: string -> Page) {
    forall leafId :: PageOf(tree, serve(leafId)) && serve(leafId).leafId == leafId
                     && (serve(leafId).entries == [] ==> serve(leafId).nextLeafId.None?)
  }

  /** At most `rounds` pages, each asked for and read. */
  function Paging(serve: string -> Page, cursor: Option<string>, rounds: nat): seq<Step>
    decreases rounds
  {
    if rounds == 0 || cursor.None? then []
    else
      var page := serve(cursor.value);
      [AskOlder, Older(page)] + Paging(serve, page.nextLeafId, rounds - 1)
  }

  /** The client shows a Session and is not busy loading its history. */
  predicate Idle(client: Client) {
    client.projection.Some? && client.executing && !client.disposed && client.history.None?
  }

  function Talk(client: Client): Conversation
    requires client.projection.Some?
  {
    client.projection.value.state.snapshot.conversation
  }

  lemma RoundLoads(client: Client, page: Page)
    requires Idle(client) && Talk(client).nextLeafId == Some(page.leafId)
    ensures var after := Thread.Run(client, [AskOlder, Older(page)]);
            && Idle(after) && Talk(after) == Convergence.Splice(Talk(client), page)
            && after.projection.value.state.sessionId == client.projection.value.state.sessionId
  {
    var asked := Next(client, AskOlder);
    assert [AskOlder, Older(page)][..1] == [AskOlder] && [AskOlder][..0] == [];
    assert Thread.Run(client, [AskOlder]) == asked;
    assert Thread.Run(client, [AskOlder, Older(page)]) == Next(asked, Older(page));
    hide Convergence.Splice, Thread.Run;
  }

  /** A round from a converged conversation leaves a converged one of the same leaf, and a cursor nearer to the
      beginning, if any. */
  lemma RoundConverges(tree: Tree, client: Client, serve: string -> Page)
    requires WellFormed(tree) && Serves(tree, serve) && Idle(client) && Converged(tree, Talk(client))
    requires Talk(client).nextLeafId.Some?
    ensures var cursor := Talk(client).nextLeafId;
            var after := Thread.Run(client, [AskOlder, Older(serve(cursor.value))]);
            && Idle(after) && Converged(tree, Talk(after)) && Talk(after).leafId == Talk(client).leafId
            && Talk(after).nextLeafId == serve(cursor.value).nextLeafId
            && after.projection.value.state.sessionId == client.projection.value.state.sessionId
            && (Talk(after).nextLeafId.Some? ==> |Path(tree, Talk(after).nextLeafId)| < |Path(tree, cursor)|)
  {
    hide Thread.Run, Converged, WellFormed, Path, Unknown;
    var page := serve(Talk(client).nextLeafId.value);
    RoundLoads(client, page);
    Shrinks(tree, page);
    SpliceConverges(tree, Talk(client), page);
    hide PageOf;
  }

  lemma Shrinks(tree: Tree, page: Page)
    requires PageOf(tree, page)
    ensures page.entries != [] ==> |Path(tree, page.nextLeafId)| < |Path(tree, Some(page.leafId))|
  {
  }

  /** Without a cursor, what is held is the whole path. */
  lemma NothingOlder(tree: Tree, conversation: Conversation)
    requires Converged(tree, conversation) && conversation.nextLeafId.None?
    ensures conversation.entries == Path(tree, conversation.leafId)
  {
  }

  /** The whole of one Session's path, and nothing left to ask for. */
  predicate Complete(tree: Tree, client: Client, leafId: Option<string>) {
    Idle(client) && Talk(client) == Conversation(leafId, Path(tree, leafId), None)
  }

  /** Each page brings the cursor closer to the beginning, and the last one completes the path. */
  lemma {:induction false} PagesComplete(tree: Tree, client: Client, serve: string -> Page, rounds: nat)
    requires WellFormed(tree) && Serves(tree, serve) && Idle(client) && Converged(tree, Talk(client))
    requires var cursor := Talk(client).nextLeafId; cursor.Some? ==> rounds > |Path(tree, cursor)|
    ensures var after := Thread.Run(client, Paging(serve, Talk(client).nextLeafId, rounds));
            && Complete(tree, after, Talk(client).leafId)
            && after.projection.value.state.sessionId == client.projection.value.state.sessionId
    decreases rounds
  {
    hide Converged, WellFormed, Serves, Path, Next;
    var cursor := Talk(client).nextLeafId;
    if cursor.None? {
      assert Paging(serve, cursor, rounds) == [] && Thread.Run(client, []) == client;
      NothingOlder(tree, Talk(client));
    } else {
      var page := serve(cursor.value);
      var round := [AskOlder, Older(page)];
      var rest := Paging(serve, page.nextLeafId, rounds - 1);
      assert Paging(serve, cursor, rounds) == round + rest;
      hide Thread.Run, Paging, Complete;
      RoundConverges(tree, client, serve);
      RunsJoin(client, round, rest);
      PagesComplete(tree, Thread.Run(client, round), serve, rounds - 1);
    }
  }

  /** Loading everything: in every run against a reliable server, a client that is not busy gets to the whole path
      of the Session it shows, at the leaf it is at, by asking for no more pages than that path has entries, and
      one. */
  lemma HistoryCanBeLoaded(world: World, steps: seq<Step>, serve: string -> Page, rounds: nat)
    requires WellFormedWorld(world) && TruthfulRun(world, steps) && ReliableRun(world, steps)
    requires Idle(Thread.Run(INITIAL, steps))
    requires var client := Thread.Run(INITIAL, steps);
             var tree := world(client.projection.value.state.sessionId).tree;
             Serves(tree, serve) && rounds > |Path(tree, Talk(client).nextLeafId)|
    ensures var client := Thread.Run(INITIAL, steps);
            var sessionId := client.projection.value.state.sessionId;
            var after := Thread.Run(INITIAL, steps + Paging(serve, Talk(client).nextLeafId, rounds));
            && Complete(world(sessionId).tree, after, Talk(client).leafId)
            && after.projection.value.state.sessionId == sessionId
  {
    var client := Thread.Run(INITIAL, steps);
    var tree := world(client.projection.value.state.sessionId).tree;
    ReliableRunAgrees(world, steps);
    assert Agrees(world, WithHistory, client.projection.value.state) && WellFormed(tree)
           && Converged(tree, Talk(client))
      by { hide CacheAgrees, OpeningsAgree, Thread.Run, TruthfulRun, Fenced, Converged, WellFormed; }
    hide *;
    RunsJoin(INITIAL, steps, Paging(serve, Talk(client).nextLeafId, rounds));
    PagesComplete(tree, client, serve, rounds);
  }
}
