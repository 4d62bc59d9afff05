/** The lost cursor of a conversation, reached from the start of the client (packages/client/src/projection.ts and
    thread.ts). */
module StaleCursor {
  import opened Bindings
  import opened Projection
  import opened Convergence
  import opened Thread
  import opened ThreadAgreement

  const E1 := Entry("e1", [])
  const E2 := Entry("e2", [])
  const F1 := Entry("f1", [])
  const G := Entry("g", [])

  /** Two branches: `e1`, `e2` up to the node "b", and `f1`, `g` up to the node "d". */
  const TREE: Tree := map["a" := [E1], "b" := [E1, E2], "c" := [F1], "d" := [F1, G]]

  function LeafAt(cursor: int): Option<string> { if cursor <= 1 then Some("b") else Some("d") }

  function History(sessionId: string): Log { Log(TREE, LeafAt) }

  const HELD := Conversation(Some("b"), [E2], Some("a"))
  const SNAPSHOT := Snapshot("s", 1, HELD, "")
  const FAMILY := Family("s", 0, ["s"], None)

  /** A complete reset to the other branch; it carries no cursor, as there is nothing before its entries. */
  const RESET := Update(Some("b"), Some("d"), None, [F1, G], true, None)
  const MOVED := Conversation(Some("d"), [F1, G], Some("a"))
  const PAGE := Page("a", [E1], None)

  const BEFORE := [Select, Selected(1, "s", SNAPSHOT, FAMILY), Observe(Committed("s", 2, Some(RESET)), 1), AskOlder]

  function Shown(conversation: Conversation, cursor: int): Held {
    Held(Projection.State("s", Snapshot("s", cursor, conversation, ""), map[], map[], 0, cursor, false), 1)
  }

  const READ := Client(false, 1, true, Some(Shown(HELD, 1)), map["s" := Shown(HELD, 1)], None, Some(FAMILY), 1, 1,
                       map[], 0, None)
  const RESET_SHOWN := READ.(projection := Some(Shown(MOVED, 2)), cached := map["s" := Shown(MOVED, 2)])
  const ASKED := RESET_SHOWN.(history := Some(Request(1, "s", "a")))

  lemma TreeHasOneParent()
    ensures OneParent(TREE)
  {
    forall a, b | a in TREE && b in TREE ensures ShareParents(TREE[a], TREE[b]) {
      var p, q := TREE[a], TREE[b];
      forall i, j | 0 <= i < |p| && 0 <= j < |q| && p[i].id == q[j].id ensures i == j && p[..i + 1] == q[..j + 1] {
        assert p[0] == E1 || p[0] == F1;
      }
    }
  }

  lemma RootIsRead()
    ensures Next(Next(INITIAL, Select), BEFORE[1]) == READ
    ensures SnapshotOf(History("s"), SNAPSHOT)
  {
    assert Merged([], ["s"]) == ["s"] by { assert Merged(["s"], []) == ["s"]; }
    assert [E1, E2][1..] == [E2];
    hide Merged;
  }

  lemma ResetIsApplied()
    ensures Next(READ, BEFORE[2]) == RESET_SHOWN
    ensures EventOf(History, Committed("s", 2, Some(RESET)))
  {
    var state := Shown(HELD, 1).state;
    assert [F1, G][0..] == [F1, G];
    assert ApplyConversation(HELD, RESET) == Some(MOVED);
    assert !HasAssistant(RESET);
    hide ApplyConversation, HasAssistant;
    assert Apply(state, Committed("s", 2, Some(RESET))) == Applied(Shown(MOVED, 2).state);
    assert map["s" := Shown(HELD, 1)]["s" := Shown(MOVED, 2)] == map["s" := Shown(MOVED, 2)];
  }

  lemma PageIsLost()
    ensures Next(RESET_SHOWN, AskOlder) == ASKED && PageOf(TREE, PAGE) && PageFits(ASKED, PAGE)
    ensures Convergence.Splice(MOVED, PAGE).entries == [E1, F1, G]
    ensures LostSplice(History, ASKED, Older(PAGE))
  {
    assert !Known([F1, G], "e1");
    assert [E1][1..] == [];
    assert Unknown([E1], [F1, G]) == [E1];
    assert Path(TREE, Some("a")) == [E1] && [E1][0] != [F1, G][0];
    hide Unknown;
  }

  lemma OneMore(world: World, steps: seq<Step>, step: Step)
    ensures Thread.Run(INITIAL, steps + [step]) == Next(Thread.Run(INITIAL, steps), step)
    ensures TruthfulRun(world, steps) && Truthful(world, Thread.Run(INITIAL, steps), step) ==>
              TruthfulRun(world, steps + [step])
  {
    assert (steps + [step])[..|steps|] == steps;
    hide Next, Truthful;
  }

  lemma StepsAreTruthful()
    ensures Truthful(History, INITIAL, Select) && Truthful(History, Next(INITIAL, Select), BEFORE[1])
    ensures Truthful(History, READ, BEFORE[2]) && Truthful(History, RESET_SHOWN, AskOlder)
    ensures Truthful(History, ASKED, Older(PAGE))
  {
    RootIsRead();
    ResetIsApplied();
    PageIsLost();
    hide EventOf, SnapshotOf, PageOf, Next, PageFits, LostSplice;
  }

  lemma BeforeThePage()
    ensures Thread.Run(INITIAL, BEFORE) == ASKED && TruthfulRun(History, BEFORE)
  {
    var s1 := [] + [Select];
    var s2 := s1 + [BEFORE[1]];
    var s3 := s2 + [BEFORE[2]];
    assert BEFORE == s3 + [AskOlder];
    assert Thread.Run(INITIAL, []) == INITIAL && TruthfulRun(History, []);
    hide *;
    StepsAreTruthful();
    RootIsRead();
    ResetIsApplied();
    PageIsLost();
    OneMore(History, [], Select);
    OneMore(History, s1, BEFORE[1]);
    OneMore(History, s2, BEFORE[2]);
    OneMore(History, s3, AskOlder);
  }

  /** The lost cursor is reachable: the client has loaded `e2` and holds the cursor to `e1`; a complete reset moves
      the Session to another branch; the cursor is then still good enough for `loadOlder`, which puts an entry of
      the abandoned branch in front of the conversation. */
  lemma LostCursorIsReachable()
    ensures OneParentWorld(History) && TruthfulRun(History, BEFORE + [Older(PAGE)])
    ensures LostSplice(History, Thread.Run(INITIAL, BEFORE), Older(PAGE))
    ensures EverLost(History, BEFORE + [Older(PAGE)]) && !NewestThroughout(History, BEFORE + [Older(PAGE)])
    ensures var shown := Thread.Run(INITIAL, BEFORE + [Older(PAGE)]).projection;
            shown.Some? && shown.value.state.snapshot.conversation.entries == [E1, F1, G]
  {
    var steps := BEFORE + [Older(PAGE)];
    assert OneParentWorld(History) by { TreeHasOneParent(); }
    BeforeThePage();
    PageIsLost();
    assert steps[..|steps| - 1] == BEFORE && steps[|steps| - 1] == Older(PAGE);
    assert EverLost(History, steps) by { hide Thread.Run, LostSplice; }
    hide *;
    StepsAreTruthful();
    OneMore(History, BEFORE, Older(PAGE));
    Unfolded();
    ConvergesExactly(History, steps);
  }

  lemma Unfolded()
    requires PageFits(ASKED, PAGE)
    ensures var shown := Next(ASKED, Older(PAGE)).projection;
            shown.Some? && shown.value.state.snapshot.conversation.entries == Convergence.Splice(MOVED, PAGE).entries
  {
    hide Convergence.Splice;
  }
}
