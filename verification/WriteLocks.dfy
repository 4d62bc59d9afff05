/** The locks around bash and edit (`makeLocalWorkspaceExecutor` of packages/runner/src/workspace.ts): one semaphore
    with a permit for every admitted operation, and one gate for every file edited. */
module WriteLocks {
  import opened Bindings
  import Admission

  const PERMITS: nat := Admission.MAX_ADMITTED_OPERATIONS

  datatype Request = Bash | Edit(path: string) | Other

  /** Where the `withExecution` of one request stands. */
  datatype Stage =
    | Start
    | Running                 // bash, with all permits; or a request that takes none
    | Permitted               // an edit with its one permit, wanting the mutation gate
    | Looking                 // holding the mutation gate, about to read `writeGates`
    | Making                  // holding the mutation gate, having found no gate
    | Found(gate: nat)        // wanting the file's gate
    | Editing(gate: nat)
    | Leaving                 // an edit with nothing but its permit
    | Done

  datatype Fiber = Fiber(request: Request, stage: Stage)

  /** `free`, `mutationFree` and `gateFree` are the permits left in each semaphore; gates are named in the order
      made. */
  datatype State = State(
    fibers: map<nat, Fiber>,
    free: int,
    mutationFree: int,
    writeGates: map<string, nat>,
    gateFree: map<nat, int>,
    nextGate: nat)

  const INIT := State(map[], PERMITS, 1, map[], map[], 0)

  datatype Event = Begin(fiber: nat, request: Request) | Advance(fiber: nat) | Kill(fiber: nat)

  function Move(s: State, f: nat, stage: Stage): State
    requires f in s.fibers
  {
    s.(fibers := s.fibers[f := s.fibers[f].(stage := stage)])
  }

  /** The next step of one request; a semaphore without enough permits keeps it where it is. */
  function AdvanceStep(s: State, f: nat): State
    requires f in s.fibers
  {
    var fiber := s.fibers[f];
    match fiber.stage
    case Start =>
      match fiber.request {
        case Bash => if s.free >= PERMITS then Move(s, f, Running).(free := s.free - PERMITS) else s
        case Edit(_) => if s.free >= 1 then Move(s, f, Permitted).(free := s.free - 1) else s
        case Other => Move(s, f, Running)
      }
    case Running => Move(s, f, Done).(free := if fiber.request.Bash? then s.free + PERMITS else s.free)
    case Permitted => if s.mutationFree >= 1 then Move(s, f, Looking).(mutationFree := s.mutationFree - 1) else s
    case Looking =>
      if fiber.request.Edit? && fiber.request.path in s.writeGates
      then Move(s, f, Found(s.writeGates[fiber.request.path])).(mutationFree := s.mutationFree + 1)
      else Move(s, f, Making)
    case Making =>
      if !fiber.request.Edit? then s
      else Move(s, f, Found(s.nextGate)).(
             mutationFree := s.mutationFree + 1, writeGates := s.writeGates[fiber.request.path := s.nextGate],
             gateFree := s.gateFree[s.nextGate := 1], nextGate := s.nextGate + 1)
    case Found(gate) =>
      if gate in s.gateFree && s.gateFree[gate] >= 1
      then Move(s, f, Editing(gate)).(gateFree := s.gateFree[gate := s.gateFree[gate] - 1]) else s
    case Editing(gate) =>
      Move(s, f, Leaving).(gateFree := if gate in s.gateFree then s.gateFree[gate := s.gateFree[gate] + 1]
                           else s.gateFree)
    case Leaving => Move(s, f, Done).(free := s.free + 1)
    case Done => s
  }

  /** Interruption gives back what is held, innermost first. */
  function KillStep(s: State, f: nat): State
    requires f in s.fibers
  {
    match s.fibers[f].stage
    case Start => Move(s, f, Done)
    case Permitted => Move(s, f, Leaving)
    case Looking => Move(s, f, Leaving).(mutationFree := s.mutationFree + 1)
    case Making => Move(s, f, Leaving).(mutationFree := s.mutationFree + 1)
    case Found(_) => Move(s, f, Leaving)
    case Running => AdvanceStep(s, f)
    case Editing(_) => AdvanceStep(s, f)
    case Leaving => AdvanceStep(s, f)
    case Done => s
  }

  function Step(s: State, e: Event): State {
    match e
    case Begin(f, request) => if f in s.fibers then s else s.(fibers := s.fibers[f := Fiber(request, Start)])
    case Advance(f) => if f in s.fibers then AdvanceStep(s, f) else s
    case Kill(f) => if f in s.fibers then KillStep(s, f) else s
  }

  function Run(s: State, events: seq<Event>): State {
    if events == [] then s else Step(Run(s, events[..|events| - 1]), events[|events| - 1])
  }

  // ----- who holds what -----

  /** What a fiber can hold: all write permits, one of them, the mutation gate, the gate of a file. */
  datatype Lock = AllWrites | OneWrite | Mutation | Gate(gate: nat)

  predicate Holds(fiber: Fiber, lock: Lock) {
    match lock
    case AllWrites => fiber.request.Bash? && fiber.stage.Running?
    case OneWrite => fiber.request.Edit? && !fiber.stage.Start? && !fiber.stage.Done?
    case Mutation => fiber.stage.Looking? || fiber.stage.Making?
    case Gate(gate) => fiber.stage == Editing(gate)
  }

  function Holders(fibers: map<nat, Fiber>, lock: Lock): set<nat> {
    set f | f in fibers && Holds(fibers[f], lock)
  }

  function Count(fibers: map<nat, Fiber>, lock: Lock): nat { |Holders(fibers, lock)| }

  /** Every permit is free or held. */
  predicate WritesOk(s: State) {
    && s.free >= 0 && Count(s.fibers, AllWrites) <= 1
    && s.free + (if Count(s.fibers, AllWrites) == 1 then PERMITS else 0) + Count(s.fibers, OneWrite) == PERMITS
  }

  predicate MutationOk(s: State) {
    s.mutationFree >= 0 && s.mutationFree + Count(s.fibers, Mutation) == 1
  }

  ghost predicate GatesFree(s: State) {
    forall gate: nat :: gate in s.gateFree ==>
      s.gateFree[gate] >= 0 && s.gateFree[gate] + Count(s.fibers, Gate(gate)) == 1
  }

  /** Each file has one gate, for good. */
  ghost predicate GatesOk(s: State) {
    && (forall gate: nat :: gate in s.gateFree <==> gate < s.nextGate)
    && (forall path :: path in s.writeGates ==> s.writeGates[path] < s.nextGate)
    && (forall p, q :: p in s.writeGates && q in s.writeGates && p != q ==> s.writeGates[p] != s.writeGates[q])
  }

  /** The stage suits the request: an edit is at the one gate of its own file. */
  predicate StageOk(writeGates: map<string, nat>, fiber: Fiber) {
    match fiber.stage
    case Start => true
    case Running => !fiber.request.Edit?
    case Making => fiber.request.Edit? && fiber.request.path !in writeGates
    case Found(gate) => OwnGate(writeGates, fiber, gate)
    case Editing(gate) => OwnGate(writeGates, fiber, gate)
    case Done => true
    case _ => fiber.request.Edit?
  }

  predicate OwnGate(writeGates: map<string, nat>, fiber: Fiber, gate: nat) {
    fiber.request.Edit? && fiber.request.path in writeGates && writeGates[fiber.request.path] == gate
  }

  ghost predicate StagesOk(s: State) {
    forall f :: f in s.fibers ==> StageOk(s.writeGates, s.fibers[f])
  }

  ghost predicate Valid(s: State) {
    WritesOk(s) && MutationOk(s) && GatesFree(s) && GatesOk(s) && StagesOk(s)
  }

  function Bit(b: bool): nat { if b then 1 else 0 }

  lemma OneElement(before: set<nat>, after: set<nat>, f: nat)
    requires forall g :: g != f ==> (g in after <==> g in before)
    ensures |after| == |before| - Bit(f in before) + Bit(f in after)
  {
    assert after == before - {f} + (if f in after then {f} else {});
  }

  /** Moving one fiber changes each count by that fiber alone. */
  lemma Counts(fibers: map<nat, Fiber>, f: nat, fiber: Fiber, lock: Lock)
    ensures Count(fibers[f := fiber], lock)
         == Count(fibers, lock) - Bit(f in fibers && Holds(fibers[f], lock)) + Bit(Holds(fiber, lock))
  {
    OneElement(Holders(fibers, lock), Holders(fibers[f := fiber], lock), f);
    hide Holds;
  }

  predicate Had(s: State, f: nat, lock: Lock) { f in s.fibers && Holds(s.fibers[f], lock) }

  /** All that a step does to the fibers is to move its own. */
  lemma CountsStep(s: State, e: Event, lock: Lock)
    ensures Count(Step(s, e).fibers, lock)
         == Count(s.fibers, lock) - Bit(Had(s, e.fiber, lock)) + Bit(Had(Step(s, e), e.fiber, lock))
  {
    var f, next := e.fiber, Step(s, e);
    MovesOwn(s, e);
    hide Step, Count, Holds;
    if f in next.fibers { Counts(s.fibers, f, next.fibers[f], lock); }
  }

  lemma AdvanceMoves(s: State, f: nat)
    requires f in s.fibers
    ensures var next := AdvanceStep(s, f);
            f in next.fibers && next.fibers == s.fibers[f := next.fibers[f]]
  {
    assert s.fibers == s.fibers[f := s.fibers[f]];
  }

  lemma MovesOwn(s: State, e: Event)
    ensures var next := Step(s, e);
            && next.fibers == (if e.fiber in next.fibers then s.fibers[e.fiber := next.fibers[e.fiber]] else s.fibers)
            && (e.fiber in s.fibers ==> e.fiber in next.fibers)
  {
    hide AdvanceStep;
    if e.fiber in s.fibers {
      AdvanceMoves(s, e.fiber);
      assert s.fibers == s.fibers[e.fiber := s.fibers[e.fiber]];
    }
  }

  function Weight(s: State, f: nat): nat {
    if Had(s, f, AllWrites) then PERMITS else Bit(Had(s, f, OneWrite))
  }

  /** What a step takes from a semaphore, or gives back, is what its fiber then holds more, or less. */
  lemma TakesWrites(s: State, e: Event)
    requires e.fiber in s.fibers ==> StageOk(s.writeGates, s.fibers[e.fiber])
    requires s.free >= 0
    ensures var next := Step(s, e);
            && next.free >= 0 && next.free + Weight(next, e.fiber) == s.free + Weight(s, e.fiber)
            && (Had(next, e.fiber, AllWrites) && !Had(s, e.fiber, AllWrites) ==> s.free >= PERMITS)
  {
    if e.fiber in s.fibers {
      AdvanceTakes(s, e.fiber);
      hide AdvanceStep;
    }
  }

  lemma AdvanceTakes(s: State, f: nat)
    requires f in s.fibers && StageOk(s.writeGates, s.fibers[f]) && s.free >= 0
    ensures var next := AdvanceStep(s, f);
            && next.free >= 0 && next.free + Weight(next, f) == s.free + Weight(s, f)
            && (Had(next, f, AllWrites) && !Had(s, f, AllWrites) ==> s.free >= PERMITS)
  {
  }

  lemma TakesMutation(s: State, e: Event)
    requires e.fiber in s.fibers ==> StageOk(s.writeGates, s.fibers[e.fiber])
    requires s.mutationFree >= 0
    ensures var next := Step(s, e);
            && next.mutationFree >= 0
            && next.mutationFree + Bit(Had(next, e.fiber, Mutation)) == s.mutationFree + Bit(Had(s, e.fiber, Mutation))
  {
  }

  lemma WritesKeep(s: State, e: Event)
    requires Valid(s)
    ensures WritesOk(Step(s, e)) && MutationOk(Step(s, e))
  {
    CountsStep(s, e, AllWrites);
    CountsStep(s, e, OneWrite);
    CountsStep(s, e, Mutation);
    TakesWrites(s, e);
    TakesMutation(s, e);
    assert !(Had(s, e.fiber, AllWrites) && Had(s, e.fiber, OneWrite));
    assert !(Had(Step(s, e), e.fiber, AllWrites) && Had(Step(s, e), e.fiber, OneWrite));
    hide Step, Had, Count, GatesOk, GatesFree, StagesOk;
  }

  /** A step touches a gate only to take it for its fiber or to give it back, or makes it. */
  lemma TakesGate(s: State, e: Event, gate: nat)
    requires e.fiber in s.fibers ==> StageOk(s.writeGates, s.fibers[e.fiber])
    requires GatesOk(s) && (gate in s.gateFree ==> s.gateFree[gate] >= 0) && gate in Step(s, e).gateFree
    ensures var next := Step(s, e);
            var held := next.gateFree[gate] + Bit(Had(next, e.fiber, Gate(gate)));
            && next.gateFree[gate] >= 0
            && (if gate in s.gateFree then held == s.gateFree[gate] + Bit(Had(s, e.fiber, Gate(gate)))
                else gate == s.nextGate && held == 1 + Bit(Had(s, e.fiber, Gate(gate))))
  {
  }

  lemma GatesFreeKeep(s: State, e: Event)
    requires Valid(s)
    ensures GatesFree(Step(s, e))
  {
    var next := Step(s, e);
    forall gate: nat | gate in next.gateFree
      ensures next.gateFree[gate] >= 0 && next.gateFree[gate] + Count(next.fibers, Gate(gate)) == 1
    {
      CountsStep(s, e, Gate(gate));
      TakesGate(s, e, gate);
      if gate == s.nextGate { FreshGate(s); }
      hide Step, Had, Count, WritesOk, MutationOk, StagesOk;
    }
  }

  lemma FreshGate(s: State)
    requires GatesOk(s) && StagesOk(s)
    ensures Count(s.fibers, Gate(s.nextGate)) == 0
  {
    forall f | f in s.fibers ensures !Holds(s.fibers[f], Gate(s.nextGate)) {
      assert StageOk(s.writeGates, s.fibers[f]);
    }
    assert Holders(s.fibers, Gate(s.nextGate)) == {};
  }

  /** Only one request at a time is between reading `writeGates` and adding to it. */
  lemma OneMutator(s: State, f: nat, g: nat)
    requires MutationOk(s) && f in s.fibers && g in s.fibers && Holds(s.fibers[f], Mutation)
             && Holds(s.fibers[g], Mutation)
    ensures f == g
  {
    assert {f, g} <= Holders(s.fibers, Mutation);
    if f != g { Smaller({f, g}, Holders(s.fibers, Mutation)); }
  }

  lemma Smaller(a: set<nat>, b: set<nat>)
    requires a <= b
    ensures |a| <= |b|
  {
    assert b == a + (b - a);
  }

  lemma OwnStage(s: State, e: Event)
    requires GatesOk(s) && StagesOk(s) && e.fiber in Step(s, e).fibers
    ensures StageOk(Step(s, e).writeGates, Step(s, e).fibers[e.fiber])
  {
    if e.fiber in s.fibers { assert StageOk(s.writeGates, s.fibers[e.fiber]); }
    hide StagesOk, GatesOk;
  }

  /** The file for which a step makes a gate. */
  function MadeFor(s: State, e: Event): Option<string> {
    if e.Advance? && e.fiber in s.fibers && s.fibers[e.fiber].stage.Making? && s.fibers[e.fiber].request.Edit?
    then Some(s.fibers[e.fiber].request.path) else None
  }

  lemma GatesGrow(s: State, e: Event)
    ensures var next := Step(s, e);
            && next.writeGates == (if MadeFor(s, e).Some? then s.writeGates[MadeFor(s, e).value := s.nextGate]
                                   else s.writeGates)
            && next.nextGate == (if MadeFor(s, e).Some? then s.nextGate + 1 else s.nextGate)
            && (forall gate: nat :: gate in next.gateFree <==>
                gate in s.gateFree || (MadeFor(s, e).Some? && gate == s.nextGate))
  {
  }

  lemma OthersStay(s: State, e: Event)
    ensures forall g :: g in Step(s, e).fibers && g != e.fiber ==> g in s.fibers && Step(s, e).fibers[g] == s.fibers[g]
  {
  }

  lemma OtherStage(s: State, e: Event, g: nat)
    requires MutationOk(s) && StagesOk(s) && g in s.fibers && g != e.fiber
    ensures StageOk(Step(s, e).writeGates, s.fibers[g])
  {
    GatesGrow(s, e);
    assert StageOk(s.writeGates, s.fibers[g]);
    if MadeFor(s, e).Some? {
      assert StageOk(s.writeGates, s.fibers[e.fiber]);
      if s.fibers[g].stage.Making? { OneMutator(s, e.fiber, g); }
    }
    hide Step, StagesOk, MutationOk;
  }

  lemma GatesKeep(s: State, e: Event)
    requires Valid(s)
    ensures GatesOk(Step(s, e)) && StagesOk(Step(s, e))
  {
    var next := Step(s, e);
    GatesGrow(s, e);
    OthersStay(s, e);
    if e.fiber in next.fibers { OwnStage(s, e); }
    forall g | g in next.fibers && g != e.fiber
      ensures StageOk(next.writeGates, next.fibers[g]) { OtherStage(s, e, g); }
    hide Step, WritesOk, GatesFree, MutationOk, StageOk, MadeFor;
    if MadeFor(s, e).Some? { MadeOnce(s, e); }
  }

  lemma MadeOnce(s: State, e: Event)
    requires StagesOk(s) && MadeFor(s, e).Some?
    ensures MadeFor(s, e).value !in s.writeGates
  {
    assert StageOk(s.writeGates, s.fibers[e.fiber]);
  }

  lemma StepKeeps(s: State, e: Event)
    requires Valid(s)
    ensures Valid(Step(s, e))
  {
    WritesKeep(s, e);
    GatesFreeKeep(s, e);
    GatesKeep(s, e);
    hide *;
    Together(Step(s, e));
  }

  lemma Together(s: State)
    requires WritesOk(s) && MutationOk(s) && GatesFree(s) && GatesOk(s) && StagesOk(s)
    ensures Valid(s)
  {
  }

  lemma InitValid()
    ensures Valid(INIT)
  {
    assert Holders(map[], AllWrites) == {} && Holders(map[], OneWrite) == {} && Holders(map[], Mutation) == {};
  }

  lemma {:induction false} RunKeeps(events: seq<Event>)
    ensures Valid(Run(INIT, events))
  {
    if events == [] {
      InitValid();
    } else {
      RunKeeps(events[..|events| - 1]);
      StepKeeps(Run(INIT, events[..|events| - 1]), events[|events| - 1]);
    }
  }

  // ----- exclusion -----

  predicate BashRuns(s: State, f: nat) { Had(s, f, AllWrites) }

  predicate EditRuns(s: State, f: nat, path: string) {
    f in s.fibers && s.fibers[f].stage.Editing? && s.fibers[f].request == Edit(path)
  }

  lemma Alone(fibers: map<nat, Fiber>, lock: Lock, f: nat, g: nat)
    requires f in fibers && g in fibers && Holds(fibers[f], lock) && Holds(fibers[g], lock) && Count(fibers, lock) <= 1
    ensures f == g
  {
    assert {f, g} <= Holders(fibers, lock);
    if f != g { Smaller({f, g}, Holders(fibers, lock)); }
  }

  /** Write exclusion: in every reachable state a running bash is the only bash and no edit runs beside it, and no two
      edits of one file run at the same time. */
  lemma WriteExclusion(events: seq<Event>, f: nat, g: nat, p: string, q: string)
    requires f != g
    ensures var s := Run(INIT, events);
            && !(BashRuns(s, f) && BashRuns(s, g))
            && !(BashRuns(s, f) && EditRuns(s, g, q))
            && (EditRuns(s, f, p) && EditRuns(s, g, q) ==> p != q)
  {
    RunKeeps(events);
    var s := Run(INIT, events);
    assert BashRuns(s, f) ==> f in Holders(s.fibers, AllWrites);
    assert EditRuns(s, g, q) ==> g in Holders(s.fibers, OneWrite);
    if BashRuns(s, f) && BashRuns(s, g) { Alone(s.fibers, AllWrites, f, g); }
    if EditRuns(s, f, p) && EditRuns(s, g, q) && p == q {
      assert StageOk(s.writeGates, s.fibers[f]) && StageOk(s.writeGates, s.fibers[g]);
      Alone(s.fibers, Gate(s.writeGates[p]), f, g);
    }
  }

  // ----- progress -----

  /** How many steps a request has still to take. */
  function Rank(fiber: Fiber): nat {
    match fiber.stage
    case Start => 7
    case Permitted => 6
    case Looking => 5
    case Making => 4
    case Found(_) => 3
    case Editing(_) => 2
    case Running => 1
    case Leaving => 1
    case Done => 0
  }

  ghost function Pick(fibers: map<nat, Fiber>): nat
    requires fibers != map[]
    ensures Pick(fibers) in fibers && |fibers - {Pick(fibers)}| < |fibers|
  {
    var f :| f in fibers;
    assert (fibers - {f}).Keys == fibers.Keys - {f} && |fibers - {f}| == |(fibers - {f}).Keys|
           && |fibers| == |fibers.Keys|;
    f
  }

  /** The steps still to be taken by all requests. */
  ghost function Work(fibers: map<nat, Fiber>): nat
    decreases |fibers|
  {
    if fibers == map[] then 0 else Rank(fibers[Pick(fibers)]) + Work(fibers - {Pick(fibers)})
  }

  lemma {:induction false} WorkSplits(fibers: map<nat, Fiber>, f: nat)
    requires f in fibers
    ensures Work(fibers) == Rank(fibers[f]) + Work(fibers - {f})
    decreases |fibers|
  {
    hide Rank;
    var g := Pick(fibers);
    if g != f {
      WorkSplits(fibers - {g}, f);
      var rest := fibers - {f};
      assert rest - {g} == fibers - {g} - {f};
      assert |rest| < |fibers| by {
        assert rest.Keys == fibers.Keys - {f} && |rest| == |rest.Keys| && |fibers| == |fibers.Keys|;
      }
      WorkSplits(rest, g);
    }
  }

  /** The request can go on now: it is not done, and the semaphore it wants has the permits. */
  predicate Able(s: State, f: nat) {
    f in s.fibers
    && match s.fibers[f].stage
       case Start => s.fibers[f].request.Other? || s.free >= (if s.fibers[f].request.Bash? then PERMITS else 1)
       case Permitted => s.mutationFree >= 1
       case Found(gate) => gate in s.gateFree && s.gateFree[gate] >= 1
       case Making => s.fibers[f].request.Edit?
       case Done => false
       case _ => true
  }

  lemma AbleAdvances(s: State, f: nat)
    requires Able(s, f)
    ensures var next := AdvanceStep(s, f);
            f in next.fibers && next.fibers == s.fibers[f := next.fibers[f]] && Rank(next.fibers[f]) < Rank(s.fibers[f])
  {
  }

  lemma LessWork(s: State, f: nat)
    requires Able(s, f)
    ensures Work(AdvanceStep(s, f).fibers) < Work(s.fibers)
  {
    AbleAdvances(s, f);
    var next := AdvanceStep(s, f);
    hide AdvanceStep, Able, Rank, Work;
    assert next.fibers - {f} == s.fibers - {f};
    WorkSplits(s.fibers, f);
    WorkSplits(next.fibers, f);
  }

  predicate Unfinished(s: State, f: nat) { f in s.fibers && !s.fibers[f].stage.Done? }

  lemma SomebodyHolds(fibers: map<nat, Fiber>, lock: Lock) returns (f: nat)
    requires Count(fibers, lock) > 0
    ensures f in fibers && Holds(fibers[f], lock)
  {
    f :| f in Holders(fibers, lock);
  }

  /** Who an unfinished request waits for can go on, or waits in turn for one who can. */
  lemma NextAble(s: State, f: nat) returns (g: nat)
    requires Valid(s) && Unfinished(s, f)
    ensures Able(s, g)
  {
    assert StageOk(s.writeGates, s.fibers[f]);
    if Able(s, f) { return f; }
    match s.fibers[f].stage
    case Start =>
      if Count(s.fibers, AllWrites) > 0 {
        g := SomebodyHolds(s.fibers, AllWrites);
      } else {
        assert Count(s.fibers, OneWrite) > 0;
        var e := SomebodyHolds(s.fibers, OneWrite);
        g := EditorAble(s, e);
      }
    case Permitted => g := EditorAble(s, f);
    case Found(_) => g := EditorAble(s, f);
  }

  lemma EditorAble(s: State, f: nat) returns (g: nat)
    requires Valid(s) && f in s.fibers && Holds(s.fibers[f], OneWrite)
    ensures Able(s, g)
  {
    assert StageOk(s.writeGates, s.fibers[f]);
    if Able(s, f) { return f; }
    if s.fibers[f].stage.Permitted? {
      g := SomebodyHolds(s.fibers, Mutation);
      assert StageOk(s.writeGates, s.fibers[g]);
    } else {
      g := SomebodyHolds(s.fibers, Gate(s.fibers[f].stage.gate));
    }
  }

  predicate AllDone(s: State) { forall f :: f in s.fibers ==> s.fibers[f].stage.Done? }

  predicate OnlyAdvances(events: seq<Event>) { forall i :: 0 <= i < |events| ==> events[i].Advance? }

  /** No deadlock: in every reachable state some unfinished request can go on; and however it goes on, the work
      shrinks, so the requests under way can all be completed. */
  lemma NoDeadlock(events: seq<Event>, f: nat) returns (g: nat)
    requires Unfinished(Run(INIT, events), f)
    ensures var s := Run(INIT, events); Able(s, g) && Work(Step(s, Advance(g)).fibers) < Work(s.fibers)
  {
    RunKeeps(events);
    g := NextAble(Run(INIT, events), f);
    LessWork(Run(INIT, events), g);
  }

  lemma {:induction false} Drains(past: seq<Event>) returns (future: seq<Event>)
    ensures OnlyAdvances(future) && AllDone(Run(INIT, past + future))
    decreases Work(Run(INIT, past).fibers)
  {
    var s := Run(INIT, past);
    if AllDone(s) {
      future := [];
      assert past + [] == past;
    } else {
      var f :| f in s.fibers && !s.fibers[f].stage.Done?;
      var g := NoDeadlock(past, f);
      var next := Advance(g);
      assert Work(Run(INIT, past + [next]).fibers) < Work(s.fibers) by { OneMore(past, next); }
      hide *;
      var rest := Drains(past + [next]);
      future := [next] + rest;
      InFront(past, next, rest);
    }
  }

  lemma InFront(past: seq<Event>, e: Event, rest: seq<Event>)
    requires e.Advance? && OnlyAdvances(rest)
    ensures past + ([e] + rest) == past + [e] + rest && OnlyAdvances([e] + rest)
  {
  }

  lemma OneMore(past: seq<Event>, e: Event)
    ensures Run(INIT, past + [e]) == Step(Run(INIT, past), e)
  {
    assert (past + [e])[..|past|] == past;
    hide Step;
  }

  /** The `writeGates` map of `makeLocalWorkspaceExecutor`, filled under the mutation gate. */
  class WriteGateTable {
    var writeGates: map<string, nat>
    var nextGate: nat

    ghost predicate Valid()
      reads this
    {
      && (forall path :: path in writeGates ==> writeGates[path] < nextGate)
      && (forall p, q :: p in writeGates && q in writeGates && p != q ==> writeGates[p] != writeGates[q])
    }

    constructor ()
      ensures Valid() && writeGates == map[] && nextGate == 0
    {
      writeGates, nextGate := map[], 0;
    }

    /** `writeGate` */
    method WriteGate(target: string) returns (gate: nat)
      requires Valid()
      modifies this
      ensures Valid() && target in writeGates && writeGates[target] == gate
      ensures writeGates == (if target in old(writeGates) then old(writeGates)
                             else old(writeGates)[target := old(nextGate)])
      ensures nextGate == (if target in old(writeGates) then old(nextGate) else old(nextGate) + 1)
    {
      if target !in writeGates {
        writeGates := writeGates[target := nextGate];
        nextGate := nextGate + 1;
      }
      gate := writeGates[target];
    }
  }

  // ----- nothing is skipped -----

  /** The request is doing what it was let in for. */
  predicate AtWork(fiber: Fiber) {
    if fiber.request.Edit? then fiber.stage.Editing? else fiber.stage.Running?
  }

  /** The request has been at work at some point of the run. */
  ghost predicate EverWorked(events: seq<Event>, f: nat) {
    exists n :: 0 <= n <= |events| && WorkedAt(events, f, n)
  }

  predicate WorkedAt(events: seq<Event>, f: nat, n: nat)
    requires n <= |events|
  {
    f in Run(INIT, events[..n]).fibers && AtWork(Run(INIT, events[..n]).fibers[f])
  }

  /** Edits never stand where the others run, and the others nowhere between. */
  predicate InPlace(fiber: Fiber) {
    if fiber.request.Edit? then !fiber.stage.Running?
    else fiber.stage.Start? || fiber.stage.Running? || fiber.stage.Done?
  }

  /** Past the work. */
  predicate Past(fiber: Fiber) { fiber.stage.Leaving? || fiber.stage.Done? }

  lemma PlaceStep(s: State, e: Event, f: nat)
    requires e != Kill(f)
    requires f in s.fibers ==> InPlace(s.fibers[f])
    ensures f in Step(s, e).fibers ==>
              InPlace(Step(s, e).fibers[f])
              && (Past(Step(s, e).fibers[f]) ==> f in s.fibers && (Past(s.fibers[f]) || AtWork(s.fibers[f])))
  {
    MovesOwn(s, e);
    if e.fiber != f { hide Step; }
  }

  /** No request is done without having been at work: unless it is interrupted, it ends only after it ran, or edited its
      file. */
  lemma {:induction false} DoneHasWorked(events: seq<Event>, f: nat)
    requires Kill(f) !in events
    ensures var s := Run(INIT, events);
            f in s.fibers ==> InPlace(s.fibers[f]) && (Past(s.fibers[f]) ==> EverWorked(events, f))
  {
    if events == [] {
    } else {
      var n := |events| - 1;
      var s := Run(INIT, events[..n]);
      DoneHasWorked(events[..n], f);
      PlaceStep(s, events[n], f);
      hide Step, Past, AtWork, InPlace;
      if f in s.fibers && Past(s.fibers[f]) {
        WorkedBefore(events, f);
      } else if f in s.fibers && AtWork(s.fibers[f]) {
        assert WorkedAt(events, f, n);
      }
    }
  }

  lemma WorkedBefore(events: seq<Event>, f: nat)
    requires events != [] && EverWorked(events[..|events| - 1], f)
    ensures EverWorked(events, f)
  {
    var past := events[..|events| - 1];
    var n :| 0 <= n <= |past| && WorkedAt(past, f, n);
    assert past[..n] == events[..n];
    assert WorkedAt(events, f, n);
  }
}
