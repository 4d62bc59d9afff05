/** The workspace gateway (apps/api/src/executor/runner-gateway.ts): reservations become connections, and every
    scope made for one is closed exactly when nothing serves through it any more. */
module Gateway {
  import opened Bindings

  const MAX_CONNECTIONS := 512

  /** Registrations are named by their token; the scope of a registration carries the same name. */
  datatype Tables = Tables(closed: bool, reservations: map<string, nat>, connections: map<string, nat>)

  datatype Refusal = Unavailable | Conflicting

  // ----- the critical sections -----

  function ReserveSection(tables: Tables, assignmentId: string, token: nat): (r: (Option<Refusal>, Tables)) {
    if tables.closed then (Some(Unavailable), tables)
    else if assignmentId in tables.reservations || assignmentId in tables.connections then (Some(Conflicting), tables)
    else if |tables.reservations| + |tables.connections| >= MAX_CONNECTIONS then (Some(Unavailable), tables)
    else (None, tables.(reservations := tables.reservations[assignmentId := token]))
  }

  predicate Entry(table: map<string, nat>, assignmentId: string, token: nat) {
    assignmentId in table && table[assignmentId] == token
  }

  function InstallSection(tables: Tables, assignmentId: string, token: nat): (r: (bool, Tables)) {
    if tables.closed || !Entry(tables.reservations, assignmentId, token) || assignmentId in tables.connections
    then (false, tables)
    else (true, tables.(reservations := tables.reservations - {assignmentId},
                        connections := tables.connections[assignmentId := token]))
  }

  function UnregisterSection(tables: Tables, assignmentId: string, token: nat): (r: (bool, Tables)) {
    var reservation := Entry(tables.reservations, assignmentId, token);
    var connection := Entry(tables.connections, assignmentId, token);
    if !reservation && !connection then (false, tables)
    else (true, tables.(reservations :=
                          if reservation then tables.reservations - {assignmentId} else tables.reservations,
                        connections := if connection then tables.connections - {assignmentId} else tables.connections))
  }

  function FinalizeSection(tables: Tables): (r: (set<nat>, Tables)) {
    if tables.closed then ({}, tables)
    else (tables.reservations.Values + tables.connections.Values, Tables(true, map[], map[]))
  }

  // ----- fibers -----

  /** Where the `connect` that made a token stands. */
  datatype Phase = Made | Reserved | Acquired | Unregistering | Closing | Connected | Failed

  /** The scopes still to be closed by the fiber that took their tokens out of the tables: `releasing` by a
      `disconnected`, which can be interrupted, and `finalizing` by a finalizer, which cannot. `shut` are the scopes
      closed, `abandoned` those whose `disconnected` was interrupted before it had closed them. */
  datatype State = State(
    tables: Tables,
    bindings: map<nat, Binding>,
    phases: map<nat, Phase>,
    releasing: set<nat>,
    finalizing: set<nat>,
    shut: set<nat>,
    abandoned: set<nat>)

  const INIT := State(Tables(false, map[], map[]), map[], map[], {}, {}, {}, {})

  datatype Event =
    | Authorized(token: nat, binding: Binding)
    | Advance(token: nat, ok: bool)
    | Release(token: nat, finally: bool)
    | KillRelease(token: nat)
    | CloseReleased(token: nat)
    | Finalize
    | CloseFinalized(token: nat)

  function Assignment(s: State, token: nat): string
    requires token in s.bindings
  {
    s.bindings[token].assignmentId
  }

  /** The next part of a `connect` up to its next suspension; `ok` is how `makeAuthorizedRunnerConnection` ends. */
  function AdvanceStep(s: State, token: nat, ok: bool): State
    requires token in s.phases && token in s.bindings
  {
    var assignmentId := Assignment(s, token);
    match s.phases[token]
    case Made =>
      var (refusal, tables) := ReserveSection(s.tables, assignmentId, token);
      s.(tables := tables, phases := s.phases[token := if refusal.Some? then Closing else Reserved])
    case Reserved => s.(phases := s.phases[token := if ok then Acquired else Unregistering])
    case Acquired =>
      var (installed, tables) := InstallSection(s.tables, assignmentId, token);
      s.(tables := tables, phases := s.phases[token := if installed then Connected else Closing])
    case Unregistering =>
      s.(tables := UnregisterSection(s.tables, assignmentId, token).1, phases := s.phases[token := Closing])
    case Closing => s.(shut := s.shut + {token}, phases := s.phases[token := Failed])
    case Connected => s
    case Failed => s
  }

  /** `release`, called by the finalizer of the connection or as `disconnected`, any number of times. */
  function ReleaseStep(s: State, token: nat, finally: bool): State
    requires token in s.bindings
  {
    var (removed, tables) := UnregisterSection(s.tables, Assignment(s, token), token);
    s.(tables := tables,
       releasing := if removed && !finally then s.releasing + {token} else s.releasing,
       finalizing := if removed && finally then s.finalizing + {token} else s.finalizing)
  }

  function FinalizeStep(s: State): State {
    var (registrations, tables) := FinalizeSection(s.tables);
    s.(tables := tables, finalizing := s.finalizing + registrations)
  }

  function Step(s: State, e: Event): State {
    match e
    case Authorized(token, binding) =>
      if token in s.bindings || token in s.phases then s
      else s.(bindings := s.bindings[token := binding], phases := s.phases[token := Made])
    case Advance(token, ok) => if token in s.phases && token in s.bindings then AdvanceStep(s, token, ok) else s
    case Release(token, finally) =>
      if token in s.phases && token in s.bindings && s.phases[token] == Connected then ReleaseStep(s, token, finally)
      else s
    case KillRelease(token) =>
      if token in s.releasing then s.(releasing := s.releasing - {token}, abandoned := s.abandoned + {token}) else s
    case CloseReleased(token) =>
      if token in s.releasing then s.(releasing := s.releasing - {token}, shut := s.shut + {token}) else s
    case Finalize => FinalizeStep(s)
    case CloseFinalized(token) =>
      if token in s.finalizing then s.(finalizing := s.finalizing - {token}, shut := s.shut + {token}) else s
  }

  function Run(s: State, events: seq<Event>): State {
    if events == [] then s else Step(Run(s, events[..|events| - 1]), events[|events| - 1])
  }

  /** `connectionFor` */
  function ConnectionFor(s: State, binding: Binding): Option<nat> {
    if s.tables.closed || binding.assignmentId !in s.tables.connections then None
    else
      var token := s.tables.connections[binding.assignmentId];
      if token in s.bindings && SameBinding(binding, s.bindings[token]) then Some(token) else None
  }

  // ----- invariant -----

  predicate HasReservation(s: State, token: nat)
    requires token in s.bindings
  {
    Entry(s.tables.reservations, Assignment(s, token), token)
  }

  predicate HasConnection(s: State, token: nat)
    requires token in s.bindings
  {
    Entry(s.tables.connections, Assignment(s, token), token)
  }

  /** At most one entry for each assignment, at most 512 in all, none once closed. */
  predicate TablesOk(tables: Tables) {
    && tables.reservations.Keys !! tables.connections.Keys
    && |tables.reservations| + |tables.connections| <= MAX_CONNECTIONS
    && (tables.closed ==> tables.reservations == map[] && tables.connections == map[])
  }

  predicate TokensOk(s: State) {
    && s.phases.Keys == s.bindings.Keys
    && s.releasing <= s.bindings.Keys && s.finalizing <= s.bindings.Keys && s.shut <= s.bindings.Keys
    && s.abandoned <= s.bindings.Keys
  }

  /** Entries are filed under the assignment of their token's binding. */
  ghost predicate FiledOk(s: State) {
    forall a, token :: Entry(s.tables.reservations, a, token) || Entry(s.tables.connections, a, token) ==>
      token in s.bindings && s.bindings[token].assignmentId == a
  }

  /** Which fibers have the scope of a token to close, or have been done with it. */
  datatype Closers = Closers(releasing: bool, finalizing: bool, shut: bool, abandoned: bool)

  function ClosersOf(s: State, token: nat): Closers {
    Closers(token in s.releasing, token in s.finalizing, token in s.shut, token in s.abandoned)
  }

  predicate Free(c: Closers) { !c.releasing && !c.finalizing && !c.shut && !c.abandoned }

  /** No `disconnected` has had to do with the scope. */
  predicate NotReleased(c: Closers) { !c.releasing && !c.abandoned }

  /** A `disconnected` that has taken the scope over is alone with it, and so is one that was interrupted. */
  predicate Alone(c: Closers) {
    && (c.releasing ==> !c.finalizing && !c.shut && !c.abandoned)
    && (c.abandoned ==> !c.finalizing && !c.shut)
  }

  /** Who owns the scope of a token: the running `connect`, the table entry, or the fiber that took it out to close
      it. */
  predicate Owns(phase: Phase, reserved: bool, connected: bool, c: Closers) {
    match phase
    case Made => !reserved && !connected && Free(c)
    case Reserved => reserved == Free(c) && !connected && NotReleased(c)
    case Acquired => reserved == Free(c) && !connected && NotReleased(c)
    case Unregistering => reserved == Free(c) && !connected && NotReleased(c)
    case Closing => !reserved && !connected && NotReleased(c)
    case Connected => !reserved && connected == Free(c) && Alone(c)
    case Failed => c.shut && !reserved && !connected && NotReleased(c)
  }

  predicate Owned(s: State, token: nat)
    requires token in s.bindings && token in s.phases
  {
    Owns(s.phases[token], HasReservation(s, token), HasConnection(s, token), ClosersOf(s, token))
  }

  ghost predicate ScopesOk(s: State) {
    forall token :: token in s.bindings && token in s.phases ==> Owned(s, token)
  }

  ghost predicate Valid(s: State) {
    TablesOk(s.tables) && TokensOk(s) && FiledOk(s) && ScopesOk(s)
  }

  lemma Removed(table: map<string, nat>, key: string)
    ensures |table - {key}| == (if key in table then |table| - 1 else |table|)
    ensures (table - {key}).Keys == table.Keys - {key}
  {
    assert (table - {key}).Keys == table.Keys - {key};
    assert |table - {key}| == |(table - {key}).Keys| && |table| == |table.Keys|;
  }

  lemma Added(table: map<string, nat>, key: string, token: nat)
    ensures |table[key := token]| == (if key in table then |table| else |table| + 1)
    ensures table[key := token].Keys == table.Keys + {key}
  {
    assert table[key := token].Keys == table.Keys + {key};
    assert |table[key := token]| == |table[key := token].Keys| && |table| == |table.Keys|;
  }

  /** The entries of all other tokens stay. */
  ghost predicate Undisturbed(tables: Tables, after: Tables, token: nat) {
    forall a, other :: other != token ==>
      (Entry(after.reservations, a, other) <==> Entry(tables.reservations, a, other))
      && (Entry(after.connections, a, other) <==> Entry(tables.connections, a, other))
  }

  /** The entries of the token itself move only under its own assignment. */
  ghost predicate OwnPlace(tables: Tables, after: Tables, assignmentId: string, token: nat) {
    forall a :: (Entry(after.reservations, a, token) || Entry(after.connections, a, token)) && a != assignmentId ==>
      Entry(tables.reservations, a, token) || Entry(tables.connections, a, token)
  }

  lemma ReserveKeeps(tables: Tables, a: string, token: nat)
    requires TablesOk(tables)
    ensures TablesOk(ReserveSection(tables, a, token).1)
            && Undisturbed(tables, ReserveSection(tables, a, token).1, token)
    ensures OwnPlace(tables, ReserveSection(tables, a, token).1, a, token)
  {
    Added(tables.reservations, a, token);
  }

  lemma InstallKeeps(tables: Tables, a: string, token: nat)
    requires TablesOk(tables)
    ensures TablesOk(InstallSection(tables, a, token).1)
            && Undisturbed(tables, InstallSection(tables, a, token).1, token)
    ensures OwnPlace(tables, InstallSection(tables, a, token).1, a, token)
  {
    Removed(tables.reservations, a);
    Added(tables.connections, a, token);
  }

  lemma UnregisterTables(tables: Tables, a: string, token: nat)
    requires TablesOk(tables)
    ensures TablesOk(UnregisterSection(tables, a, token).1)
  {
    var after := UnregisterSection(tables, a, token).1;
    Removed(tables.reservations, a);
    Removed(tables.connections, a);
    assert after.reservations.Keys <= tables.reservations.Keys && after.connections.Keys <= tables.connections.Keys;
    assert |after.reservations| + |after.connections| <= MAX_CONNECTIONS;
  }

  lemma UnregisterMoves(tables: Tables, a: string, token: nat)
    ensures Undisturbed(tables, UnregisterSection(tables, a, token).1, token)
    ensures OwnPlace(tables, UnregisterSection(tables, a, token).1, a, token)
  {
  }

  lemma UnregisterKeeps(tables: Tables, a: string, token: nat)
    requires TablesOk(tables)
    ensures TablesOk(UnregisterSection(tables, a, token).1)
            && Undisturbed(tables, UnregisterSection(tables, a, token).1, token)
    ensures OwnPlace(tables, UnregisterSection(tables, a, token).1, a, token)
  {
    hide TablesOk, Undisturbed, OwnPlace, UnregisterSection;
    UnregisterTables(tables, a, token);
    UnregisterMoves(tables, a, token);
  }

  /** A step of one token keeps the scopes of all others. */
  lemma OthersKeep(s: State, after: State, token: nat)
    requires FiledOk(s) && TokensOk(s) && token in s.bindings && after.bindings == s.bindings
    requires Undisturbed(s.tables, after.tables, token)
    requires OwnPlace(s.tables, after.tables, s.bindings[token].assignmentId, token)
    requires forall other :: other != token ==>
      (other in after.phases <==> other in s.phases) && (other in s.phases ==> after.phases[other] == s.phases[other])
    requires forall other :: other != token ==> ClosersOf(after, other) == ClosersOf(s, other)
    ensures ScopesOk(s) ==>
      forall other :: other != token && other in after.bindings && other in after.phases ==> Owned(after, other)
    ensures FiledOk(after)
  {
    hide TokensOk, Entry, ClosersOf, Owns;
    assert forall other :: other != token && other in s.bindings && other in s.phases ==>
        HasReservation(after, other) == HasReservation(s, other)
          && HasConnection(after, other) == HasConnection(s, other);
  }

  ghost predicate OthersStay(s: State, after: State, token: nat) {
    && (forall other :: other != token ==>
          (other in after.phases <==> other in s.phases)
            && (other in s.phases ==> after.phases[other] == s.phases[other]))
    && (forall other :: other != token ==> ClosersOf(after, other) == ClosersOf(s, other))
  }

  /** A step that changes the entries, phase and closers of one token only. */
  lemma OneTokenKeeps(s: State, after: State, token: nat)
    requires Valid(s) && token in s.bindings && after.bindings == s.bindings
    requires TablesOk(after.tables) && TokensOk(after) && Undisturbed(s.tables, after.tables, token)
    requires OthersStay(s, after, token)
    requires token in after.phases && Owned(after, token)
    requires OwnPlace(s.tables, after.tables, s.bindings[token].assignmentId, token)
    ensures Valid(after)
  {
    assert FiledOk(s) && ScopesOk(s) && TokensOk(s);
    hide TablesOk, FiledOk, TokensOk, Undisturbed, Owned, Entry, ClosersOf;
    OthersKeep(s, after, token);
  }

  lemma MadeKeeps(s: State, token: nat)
    requires Valid(s) && token in s.phases && token in s.bindings && s.phases[token] == Made
    ensures Valid(AdvanceStep(s, token, true))
  {
    var a, after := Assignment(s, token), AdvanceStep(s, token, true);
    assert Owned(s, token);
    ReserveKeeps(s.tables, a, token);
    assert TokensOk(after) && OthersStay(s, after, token);
    assert Owned(after, token);
    assert after.tables == ReserveSection(s.tables, a, token).1;
    hide *;
    OneTokenKeeps(s, after, token);
  }

  lemma AcquiredKeeps(s: State, token: nat)
    requires Valid(s) && token in s.phases && token in s.bindings && s.phases[token] == Acquired
    ensures Valid(AdvanceStep(s, token, true))
  {
    var a, after := Assignment(s, token), AdvanceStep(s, token, true);
    assert Owned(s, token);
    InstallKeeps(s.tables, a, token);
    assert TokensOk(after) && OthersStay(s, after, token);
    assert Owned(after, token);
    assert after.tables == InstallSection(s.tables, a, token).1;
    hide *;
    OneTokenKeeps(s, after, token);
  }

  lemma UnregisteringKeeps(s: State, token: nat)
    requires Valid(s) && token in s.phases && token in s.bindings && s.phases[token] == Unregistering
    ensures Valid(AdvanceStep(s, token, true))
  {
    var a, after := Assignment(s, token), AdvanceStep(s, token, true);
    assert Owned(s, token);
    UnregisterKeeps(s.tables, a, token);
    assert TokensOk(after) && OthersStay(s, after, token);
    assert Owned(after, token);
    assert after.tables == UnregisterSection(s.tables, a, token).1;
    hide *;
    OneTokenKeeps(s, after, token);
  }

  /** Steps that only move a phase or close a scope. */
  lemma QuietKeeps(s: State, after: State, token: nat)
    requires Valid(s) && token in s.bindings && token in s.phases && after.bindings == s.bindings
             && after.tables == s.tables
    requires TokensOk(after) && OthersStay(s, after, token)
    requires Owned(s, token) ==> Owned(after, token)
    ensures Valid(after)
  {
    assert Owned(s, token) && token in after.phases;
    assert Undisturbed(s.tables, after.tables, token)
           && OwnPlace(s.tables, after.tables, s.bindings[token].assignmentId, token);
    assert TablesOk(after.tables);
    hide *;
    OneTokenKeeps(s, after, token);
  }

  lemma AdvanceKeeps(s: State, token: nat, ok: bool)
    requires Valid(s) && token in s.phases && token in s.bindings
    ensures Valid(AdvanceStep(s, token, ok))
  {
    hide TablesOk, FiledOk, ScopesOk, ReserveSection, InstallSection, UnregisterSection, Entry;
    match s.phases[token]
    case Made => MadeKeeps(s, token);
    case Acquired => AcquiredKeeps(s, token);
    case Unregistering => UnregisteringKeeps(s, token);
    case _ => QuietKeeps(s, AdvanceStep(s, token, ok), token);
  }

  lemma ReleaseKeeps(s: State, token: nat, finally: bool)
    requires Valid(s) && token in s.phases && token in s.bindings && s.phases[token] == Connected
    ensures Valid(ReleaseStep(s, token, finally))
  {
    var a, after := Assignment(s, token), ReleaseStep(s, token, finally);
    assert Owned(s, token);
    UnregisterKeeps(s.tables, a, token);
    assert TokensOk(after) && OthersStay(s, after, token);
    assert Owned(after, token);
    assert after.tables == UnregisterSection(s.tables, a, token).1;
    hide *;
    OneTokenKeeps(s, after, token);
  }

  /** What the finalizer takes out of a table is what its tokens own there. */
  lemma FiledValues(s: State, token: nat)
    requires FiledOk(s)
    ensures token in s.tables.reservations.Values <==> token in s.bindings && HasReservation(s, token)
    ensures token in s.tables.connections.Values <==> token in s.bindings && HasConnection(s, token)
  {
    InValues(s.tables.reservations, token);
    InValues(s.tables.connections, token);
  }

  lemma FinalizeOwned(s: State, token: nat)
    requires Valid(s) && !s.tables.closed && token in s.bindings && token in s.phases
    ensures Owned(FinalizeStep(s), token)
  {
    assert Owned(s, token);
    FiledValues(s, token);
    hide TablesOk, FiledOk, ScopesOk, TokensOk;
  }

  lemma FinalizeKeeps(s: State)
    requires Valid(s)
    ensures Valid(FinalizeStep(s))
  {
    var after := FinalizeStep(s);
    if !s.tables.closed {
      assert TablesOk(after.tables) && FiledOk(after);
      assert ScopesOk(after) by {
        forall token | token in s.bindings && token in s.phases ensures Owned(after, token) { FinalizeOwned(s, token); }
        hide Owned, FiledOk, TablesOk;
      }
      assert TokensOk(after) by {
        forall token
          ensures token in s.tables.reservations.Values + s.tables.connections.Values ==> token in s.bindings
        {
          FiledValues(s, token);
        }
        hide FiledOk, ScopesOk, TablesOk;
      }
      hide *;
      assert Valid(after) by { Together(after); }
    }
  }

  lemma Together(s: State)
    requires TablesOk(s.tables) && TokensOk(s) && FiledOk(s) && ScopesOk(s)
    ensures Valid(s)
  {
  }

  lemma InValues(table: map<string, nat>, token: nat)
    ensures token in table.Values <==> exists a :: Entry(table, a, token)
  {
    if token in table.Values {
      var a :| a in table && table[a] == token;
      assert Entry(table, a, token);
    }
  }

  lemma AuthorizedKeeps(s: State, token: nat, binding: Binding)
    requires Valid(s)
    ensures Valid(Step(s, Authorized(token, binding)))
  {
    var after := Step(s, Authorized(token, binding));
    if token !in s.bindings && token !in s.phases {
      assert forall a :: !Entry(s.tables.reservations, a, token) && !Entry(s.tables.connections, a, token);
      forall other | other in after.bindings && other in after.phases ensures Owned(after, other) {
        if other != token { assert Owned(s, other); }
      }
      hide ScopesOk, Owned, Entry;
      assert FiledOk(after);
    }
  }

  lemma StepKeeps(s: State, e: Event)
    requires Valid(s)
    ensures Valid(Step(s, e))
  {
    hide TablesOk, FiledOk, ScopesOk, AdvanceStep, ReleaseStep, FinalizeStep, Entry;
    match e
    case Authorized(token, binding) => AuthorizedKeeps(s, token, binding);
    case Advance(token, ok) => if token in s.phases && token in s.bindings { AdvanceKeeps(s, token, ok); }
    case Release(token, finally) =>
      if token in s.phases && token in s.bindings && s.phases[token] == Connected { ReleaseKeeps(s, token, finally); }
    case KillRelease(token) => if token in s.releasing { QuietKeeps(s, Step(s, e), token); }
    case Finalize => FinalizeKeeps(s);
    case CloseReleased(token) => if token in s.releasing { QuietKeeps(s, Step(s, e), token); }
    case CloseFinalized(token) => if token in s.finalizing { QuietKeeps(s, Step(s, e), token); }
  }

  lemma {:induction false} RunKeeps(s: State, events: seq<Event>)
    requires Valid(s)
    ensures Valid(Run(s, events))
  {
    if events == [] {
    } else {
      RunKeeps(s, events[..|events| - 1]);
      StepKeeps(Run(s, events[..|events| - 1]), events[|events| - 1]);
    }
  }

  lemma InitValid()
    ensures Valid(INIT)
  {
  }

  predicate Serving(s: State, token: nat) {
    token in s.tables.connections.Values
  }

  /** Ownership of the tables: an assignment has at most one entry, which is filed for its own binding; there are at
      most 512; a closed gateway has none; and the scope of an entry is open. */
  lemma GatewayOwnership(events: seq<Event>)
    ensures var s := Run(INIT, events);
            && s.tables.reservations.Keys !! s.tables.connections.Keys
            && |s.tables.reservations| + |s.tables.connections| <= 512
            && (s.tables.closed ==> s.tables.reservations == map[] == s.tables.connections)
            && (forall a, token :: Entry(s.tables.reservations, a, token) || Entry(s.tables.connections, a, token) ==>
                  token in s.bindings && s.bindings[token].assignmentId == a && token !in s.shut)
  {
    InitValid();
    RunKeeps(INIT, events);
    var s := Run(INIT, events);
    forall a, token | Entry(s.tables.reservations, a, token) || Entry(s.tables.connections, a, token)
      ensures token in s.bindings && s.bindings[token].assignmentId == a && token !in s.shut
    {
      assert Owned(s, token);
    }
  }

  /** No `connect`, `release` or finalizer is between taking a scope over and closing it. */
  predicate Quiescent(s: State) {
    s.releasing == {} && s.finalizing == {}
    && forall token :: token in s.phases ==> s.phases[token] == Connected || s.phases[token] == Failed
  }

  /** Some `disconnected` of the run was interrupted after it had taken the token out of the tables and before it
      had closed the scope. */
  predicate EverInterrupted(events: seq<Event>, token: nat) {
    events != [] &&
    var n := |events| - 1;
    EverInterrupted(events[..n], token)
      || (events[n] == KillRelease(token) && token in Run(INIT, events[..n]).releasing)
  }

  lemma {:induction false} AbandonedExactly(events: seq<Event>, token: nat)
    ensures token in Run(INIT, events).abandoned <==> EverInterrupted(events, token)
  {
    if events == [] {
    } else {
      var n := |events| - 1;
      AbandonedExactly(events[..n], token);
      AbandonedStep(Run(INIT, events[..n]), events[n], token);
      hide Step;
    }
  }

  lemma AbandonedStep(s: State, e: Event, token: nat)
    ensures token in Step(s, e).abandoned <==> token in s.abandoned || (e == KillRelease(token) && token in s.releasing)
  {
    hide ReserveSection, InstallSection, UnregisterSection, FinalizeSection;
  }

  /** Every scope ever made is closed or owned: by the `connect` that runs, by one connection, or by the fiber about
      to close it; or else it was abandoned by an interrupted `disconnected`, and then it stays open in every later
      state. */
  lemma NoScopeLeaks(events: seq<Event>, token: nat)
    ensures var s := Run(INIT, events);
            token in s.phases && token !in s.shut ==>
              s.phases[token] != Failed
              && (s.phases[token] == Connected ==>
                    Serving(s, token) || token in s.releasing || token in s.finalizing
                      || EverInterrupted(events, token))
    ensures var s := Run(INIT, events);
            EverInterrupted(events, token) ==>
              token in s.phases && s.phases[token] == Connected && !Serving(s, token) && token !in s.shut
              && token !in s.releasing && token !in s.finalizing
  {
    InitValid();
    RunKeeps(INIT, events);
    AbandonedExactly(events, token);
    var s := Run(INIT, events);
    assert TokensOk(s);
    if token in s.phases {
      assert Owned(s, token);
      FiledValues(s, token);
    }
    hide Run, EverInterrupted, Valid;
  }

  /** Leaks, exactly: once nothing runs, a scope is open if and only if its connection serves or its `disconnected` was
      interrupted before it had closed it; so nothing leaks if and only if that never happened. */
  lemma ScopesLeakExactly(events: seq<Event>)
    requires Quiescent(Run(INIT, events))
    ensures var s := Run(INIT, events);
            && (forall token :: token in s.phases ==>
                  (token !in s.shut <==> Serving(s, token) || EverInterrupted(events, token)))
            && ((forall token :: token in s.phases && token !in s.shut ==> Serving(s, token)) <==>
                  forall token: nat :: !EverInterrupted(events, token))
  {
    var s := Run(INIT, events);
    InitValid();
    RunKeeps(INIT, events);
    forall token: nat
      ensures token in s.phases ==> (token !in s.shut <==> Serving(s, token) || EverInterrupted(events, token))
      ensures EverInterrupted(events, token) ==> token in s.phases && token !in s.shut && !Serving(s, token)
    {
      NoScopeLeaks(events, token);
      if token in s.phases && Serving(s, token) { ServingIsOpen(s, token); }
      hide Run, EverInterrupted, Serving, Valid;
    }
    hide Run, EverInterrupted, Serving, Valid;
  }

  lemma ServingIsOpen(s: State, token: nat)
    requires Valid(s) && token in s.phases && Serving(s, token)
    ensures token !in s.shut
  {
    assert TokensOk(s) && FiledOk(s) && Owned(s, token);
    FiledValues(s, token);
    hide Valid;
  }

  const B := Binding("w", "a", 1, Runner("c", "w"), "build", 1)

  const MADE := State(Tables(false, map[], map[]), map[0 := B], map[0 := Made], {}, {}, {}, {})
  const RESERVED := MADE.(tables := Tables(false, map["a" := 0], map[]), phases := map[0 := Reserved])
  const CONNECTED := MADE.(tables := Tables(false, map[], map["a" := 0]), phases := map[0 := Connected])
  const LEAKED := MADE.(tables := Tables(true, map[], map[]), phases := map[0 := Connected], abandoned := {0})

  const OK := Advance(0, true)
  const CONNECTING := [Authorized(0, B), OK, OK, OK]

  /** A connection is installed; the `disconnected` of a fiber that waits for it to be ready takes it out of the
      tables, and is interrupted when the caller closes its own scope; the finalizers find nothing left to close. */
  const LEAKING := CONNECTING + [Release(0, false), KillRelease(0), Release(0, true), Finalize]

  lemma RunSnoc(events: seq<Event>, e: Event)
    ensures Run(INIT, events + [e]) == Step(Run(INIT, events), e)
  {
    assert (events + [e])[..|events|] == events;
  }

  lemma ConnectSteps()
    ensures Step(Step(Step(Step(INIT, Authorized(0, B)), OK), OK), OK) == CONNECTED
  {
    assert Step(INIT, Authorized(0, B)) == MADE;
    assert Step(MADE, OK) == RESERVED;
    assert Step(RESERVED, OK) == RESERVED.(phases := map[0 := Acquired]);
  }

  lemma Connecting()
    ensures Run(INIT, CONNECTING) == CONNECTED
  {
    ConnectSteps();
    assert [] + [Authorized(0, B)] == [Authorized(0, B)] && [Authorized(0, B)] + [OK] + [OK] + [OK] == CONNECTING;
    hide Step;
    RunSnoc([], Authorized(0, B));
    RunSnoc([Authorized(0, B)], OK);
    RunSnoc([Authorized(0, B)] + [OK], OK);
    RunSnoc([Authorized(0, B)] + [OK] + [OK], OK);
  }

  lemma LeakSteps()
    ensures Step(Step(Step(Step(CONNECTED, Release(0, false)), KillRelease(0)), Release(0, true)), Finalize) == LEAKED
  {
    var releasing := CONNECTED.(tables := MADE.tables, releasing := {0});
    assert Step(CONNECTED, Release(0, false)) == releasing;
    var abandoned := releasing.(releasing := {}, abandoned := {0});
    assert Step(releasing, KillRelease(0)) == abandoned;
    assert Step(abandoned, Release(0, true)) == abandoned;
  }

  /** The leak is reachable: everything has been released and finalized, and the scope is still open. */
  lemma InterruptedReleaseLeaks()
    ensures var s := Run(INIT, LEAKING);
            && s == LEAKED && Quiescent(s) && EverInterrupted(LEAKING, 0)
            && 0 in s.phases && 0 !in s.shut && !Serving(s, 0)
  {
    Connecting();
    LeakSteps();
    assert LEAKING == CONNECTING + [Release(0, false)] + [KillRelease(0)] + [Release(0, true)] + [Finalize];
    hide Step, Run;
    RunSnoc(CONNECTING, Release(0, false));
    RunSnoc(CONNECTING + [Release(0, false)], KillRelease(0));
    RunSnoc(CONNECTING + [Release(0, false)] + [KillRelease(0)], Release(0, true));
    RunSnoc(CONNECTING + [Release(0, false)] + [KillRelease(0)] + [Release(0, true)], Finalize);
    hide EverInterrupted;
    AbandonedExactly(LEAKING, 0);
  }

  // ----- what a connection achieves -----

  /** Reservations, exactly: an assignment gets one if and only if the gateway is open, nothing is filed for the
      assignment, and fewer than 512 entries are; a second one conflicts, and otherwise the gateway is unavailable.
      */
  lemma ReservesExactly(tables: Tables, assignmentId: string, token: nat)
    ensures var (refusal, next) := ReserveSection(tables, assignmentId, token);
            var filed := assignmentId in tables.reservations || assignmentId in tables.connections;
            && (refusal.None? <==> !tables.closed && !filed && |tables.reservations| + |tables.connections| < 512)
            && (refusal == Some(Conflicting) <==> !tables.closed && filed)
            && (if refusal.None? then next == tables.(reservations := tables.reservations[assignmentId := token])
                else next == tables)
  {
  }

  /** The sections over one's own reservation. */
  lemma OwnSections(tables: Tables, a: string, token: nat)
    requires ReserveSection(tables, a, token).0.None?
    ensures var reserved := tables.(reservations := tables.reservations[a := token]);
            && ReserveSection(tables, a, token) == (None, reserved)
            && InstallSection(reserved, a, token) == (true, tables.(connections := tables.connections[a := token]))
            && UnregisterSection(reserved, a, token) == (true, tables)
  {
    assert tables.reservations[a := token] - {a} == tables.reservations;
  }

  lemma ConnectStep(s: State, token: nat, ok: bool)
    requires token in s.phases && token in s.bindings
    ensures var a := s.bindings[token].assignmentId;
            Step(s, Advance(token, ok))
            == match s.phases[token]
               case Made =>
                 s.(tables := ReserveSection(s.tables, a, token).1,
                    phases := s.phases[token := if ReserveSection(s.tables, a, token).0.None? then Reserved
                                       else Closing])
               case Reserved => s.(phases := s.phases[token := if ok then Acquired else Unregistering])
               case Acquired =>
                 s.(tables := InstallSection(s.tables, a, token).1,
                    phases := s.phases[token := if InstallSection(s.tables, a, token).0 then Connected else Closing])
               case Unregistering =>
                 s.(tables := UnregisterSection(s.tables, a, token).1, phases := s.phases[token := Closing])
               case Closing => s.(shut := s.shut + {token}, phases := s.phases[token := Failed])
               case _ => s
  {
    hide ReserveSection, InstallSection, UnregisterSection;
  }

  /** The state while `connect` runs for a token. */
  function At(s: State, token: nat, binding: Binding, phase: Phase, tables: Tables): State {
    s.(bindings := s.bindings[token := binding], phases := s.phases[token := phase], tables := tables)
  }

  lemma AtMoves(s: State, token: nat, binding: Binding, phase: Phase, tables: Tables, next: Phase)
    ensures var at := At(s, token, binding, phase, tables);
            && token in at.phases && token in at.bindings && at.phases[token] == phase && at.bindings[token] == binding
            && at.tables == tables && at.shut == s.shut
            && forall other :: at.(phases := at.phases[token := next], tables := other)
                               == At(s, token, binding, next, other)
  {
    assert s.phases[token := phase][token := next] == s.phases[token := next];
  }

  lemma Begins(s: State, token: nat, binding: Binding)
    requires token !in s.bindings && token !in s.phases
    ensures Step(s, Authorized(token, binding)) == At(s, token, binding, Made, s.tables)
  {
  }

  /** A connection that is authorized in an open gateway with room for its assignment, and can be made, is installed: it
      serves requests for its binding, and the other connections serve on. */
  lemma AuthorizedServes(s: State, token: nat, binding: Binding)
    requires token !in s.bindings && token !in s.phases && PlacementMatchesWorkspace(binding)
    requires ReserveSection(s.tables, binding.assignmentId, token).0.None?
    ensures var go := Advance(token, true);
            var after := Step(Step(Step(Step(s, Authorized(token, binding)), go), go), go);
            && after.tables == s.tables.(connections := s.tables.connections[binding.assignmentId := token])
            && after.phases == s.phases[token := Connected] && after.shut == s.shut
            && ConnectionFor(after, binding) == Some(token)
  {
    var a, go := binding.assignmentId, Advance(token, true);
    var reserved := s.tables.(reservations := s.tables.reservations[a := token]);
    var installed := s.tables.(connections := s.tables.connections[a := token]);
    FencesAreIdentity(binding, binding, ToEvidence(binding));
    assert !s.tables.closed;
    var after := At(s, token, binding, Connected, installed);
    assert ConnectionFor(after, binding) == Some(token) by { hide SameBinding; }
    hide ConnectionFor, Step, At, ReserveSection, InstallSection, UnregisterSection;
    OwnSections(s.tables, a, token);
    Begins(s, token, binding);
    AtMoves(s, token, binding, Made, s.tables, Reserved);
    ConnectStep(At(s, token, binding, Made, s.tables), token, true);
    AtMoves(s, token, binding, Reserved, reserved, Acquired);
    ConnectStep(At(s, token, binding, Reserved, reserved), token, true);
    AtMoves(s, token, binding, Acquired, reserved, Connected);
    ConnectStep(At(s, token, binding, Acquired, reserved), token, true);
    AtPhases(s, token, binding, Connected, installed);
  }

  lemma AtPhases(s: State, token: nat, binding: Binding, phase: Phase, tables: Tables)
    ensures var at := At(s, token, binding, phase, tables);
            at.tables == tables && at.phases == s.phases[token := phase] && at.shut == s.shut
  {
  }

  /** A connection that cannot be made gives its reservation back and closes its scope. */
  lemma FailedConnectionLeavesNothing(s: State, token: nat, binding: Binding)
    requires token !in s.bindings && token !in s.phases
    requires ReserveSection(s.tables, binding.assignmentId, token).0.None?
    ensures var go := Advance(token, true);
            var failed := Step(Step(Step(s, Authorized(token, binding)), go), Advance(token, false));
            var after := Step(Step(failed, go), go);
            after.tables == s.tables && after.phases == s.phases[token := Failed] && after.shut == s.shut + {token}
  {
    var a := binding.assignmentId;
    var reserved := s.tables.(reservations := s.tables.reservations[a := token]);
    hide Step, At, ReserveSection, InstallSection, UnregisterSection;
    OwnSections(s.tables, a, token);
    Begins(s, token, binding);
    AtMoves(s, token, binding, Made, s.tables, Reserved);
    ConnectStep(At(s, token, binding, Made, s.tables), token, true);
    AtMoves(s, token, binding, Reserved, reserved, Unregistering);
    ConnectStep(At(s, token, binding, Reserved, reserved), token, false);
    AtMoves(s, token, binding, Unregistering, reserved, Closing);
    ConnectStep(At(s, token, binding, Unregistering, reserved), token, true);
    AtMoves(s, token, binding, Closing, s.tables, Failed);
    var closing := At(s, token, binding, Closing, s.tables);
    ConnectStep(closing, token, true);
    AtPhases(s, token, binding, Closing, s.tables);
    assert closing.phases[token := Failed] == s.phases[token := Failed];
  }

  /** A release that is let run ends its connection: it no longer serves, and its scope is closed. */
  lemma ReleaseEnds(s: State, token: nat, finally: bool)
    requires Valid(s) && token in s.phases && token in s.bindings && s.phases[token] == Connected && Serving(s, token)
    ensures var released := Step(s, Release(token, finally));
            var after := Step(released, if finally then CloseFinalized(token) else CloseReleased(token));
            && after.tables == s.tables.(connections := s.tables.connections - {s.bindings[token].assignmentId})
            && !Serving(after, token) && token in after.shut
  {
    assert Owned(s, token) && FiledOk(s);
    FiledValues(s, token);
    var released := Step(s, Release(token, finally));
    ReleaseKeeps(s, token, finally);
    assert Owned(released, token) && FiledOk(released);
    FiledValues(released, token);
    hide Valid, FiledOk, Owned;
  }

  /** The finalizer takes every connection and reservation out, once, to close each scope. */
  lemma FinalizerTakesAll(s: State)
    requires Valid(s) && !s.tables.closed
    ensures var after := Step(s, Finalize);
            && after.tables == Tables(true, map[], map[])
            && forall token :: token in s.bindings && (HasReservation(s, token) || HasConnection(s, token)) ==>
                 token in after.finalizing && token in Step(after, CloseFinalized(token)).shut
  {
    var after := Step(s, Finalize);
    forall token | token in s.bindings && (HasReservation(s, token) || HasConnection(s, token))
      ensures token in after.finalizing
    {
      FiledValues(s, token);
    }
    hide Valid;
  }

  /** Requests reach only an open, installed connection with the very binding asked for. */
  lemma RoutingIsFenced(events: seq<Event>, binding: Binding)
    ensures var s := Run(INIT, events);
            var target := ConnectionFor(s, binding);
            && (target.Some? ==>
                  && target.value in s.bindings && SameBinding(binding, s.bindings[target.value])
                  && target.value in s.phases && s.phases[target.value] == Connected && target.value !in s.shut)
            && (target.Some? <==> exists token :: Serving(s, token) && token in s.bindings
                                                 && SameBinding(binding, s.bindings[token]))
  {
    InitValid();
    RunKeeps(INIT, events);
    var s := Run(INIT, events);
    assert Valid(s);
    var target := ConnectionFor(s, binding);
    if target.Some? {
      assert Entry(s.tables.connections, binding.assignmentId, target.value);
      InValues(s.tables.connections, target.value);
      assert Owned(s, target.value);
    }
    forall token | Serving(s, token) && token in s.bindings && SameBinding(binding, s.bindings[token])
      ensures target == Some(token)
    {
      FiledValues(s, token);
    }
  }

  /** A connection whose binding contradicts its own placement is never reached. */
  lemma InconsistentIsUnreachable(s: State, binding: Binding, token: nat)
    requires token in s.bindings && !PlacementMatchesWorkspace(s.bindings[token])
    ensures ConnectionFor(s, binding) != Some(token)
  {
  }

  /** Closing is final. */
  lemma {:induction false} ClosedIsFinal(s: State, events: seq<Event>)
    requires Valid(s) && s.tables.closed
    ensures Run(s, events).tables == Tables(true, map[], map[])
  {
    if events == [] {
    } else {
      ClosedIsFinal(s, events[..|events| - 1]);
    }
  }

  /** The `state` Ref of `makeWorkspaceGateway`, replaced under its lock. */
  class WorkspaceGateway {
    var closed: bool
    var reservations: map<string, nat>
    var connections: map<string, nat>

    ghost function View(): Tables
      reads this
    {
      Tables(closed, reservations, connections)
    }

    constructor ()
      ensures View() == INIT.tables
    {
      closed, reservations, connections := false, map[], map[];
    }

    method Reserve(assignmentId: string, token: nat) returns (refusal: Option<Refusal>)
      modifies this
      ensures (refusal, View()) == ReserveSection(old(View()), assignmentId, token)
      ensures old(TablesOk(View())) ==> TablesOk(View())
    {
      ghost var before := View();
      if TablesOk(before) { ReserveKeeps(before, assignmentId, token); }
      if closed { return Some(Unavailable); }
      if assignmentId in reservations || assignmentId in connections { return Some(Conflicting); }
      if |reservations| + |connections| >= MAX_CONNECTIONS { return Some(Unavailable); }
      reservations := reservations[assignmentId := token];
      return None;
    }

    method Install(assignmentId: string, token: nat) returns (installed: bool)
      modifies this
      ensures (installed, View()) == InstallSection(old(View()), assignmentId, token)
      ensures old(TablesOk(View())) ==> TablesOk(View())
    {
      ghost var before := View();
      if TablesOk(before) { InstallKeeps(before, assignmentId, token); }
      if closed || assignmentId !in reservations || reservations[assignmentId] != token || assignmentId in connections
      { return false; }
      reservations := reservations - {assignmentId};
      connections := connections[assignmentId := token];
      return true;
    }

    method Unregister(assignmentId: string, token: nat) returns (removed: bool)
      modifies this
      ensures (removed, View()) == UnregisterSection(old(View()), assignmentId, token)
      ensures old(TablesOk(View())) ==> TablesOk(View())
    {
      ghost var before := View();
      if TablesOk(before) { UnregisterKeeps(before, assignmentId, token); }
      var reservation := assignmentId in reservations && reservations[assignmentId] == token;
      var connection := assignmentId in connections && connections[assignmentId] == token;
      if !reservation && !connection { return false; }
      if reservation { reservations := reservations - {assignmentId}; }
      if connection { connections := connections - {assignmentId}; }
      return true;
    }

    method Finalize() returns (registrations: set<nat>)
      modifies this
      ensures (registrations, View()) == FinalizeSection(old(View()))
      ensures old(TablesOk(View())) ==> View() == Tables(true, map[], map[])
    {
      if closed { return {}; }
      registrations := reservations.Values + connections.Values;
      closed, reservations, connections := true, map[], map[];
    }
  }
}
