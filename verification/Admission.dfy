/** The Session-owned admission component (packages/execution/src/component.ts). */
module Admission {
  import opened Bindings
  import opened ExecutorContract

  const MAX_ADMITTED_OPERATIONS := 128

  datatype State = State(binding: Option<Binding>, admitted: seq<Intent>)

  /** Only `Completed` and `DomainFailure` settlements exist at this boundary. */
  datatype Settlement = Settlement(operationId: string, binding: Binding, completed: bool, payload: string)

  datatype Command =
    | Bind(binding: Binding)
    | Admit(operation: Intent)
    | Cleanup(operationId: string, settlement: Settlement)

  datatype Rejection =
    | PolicyChanged | GenerationNotNewer | Unresolved
    | SettlementBinding | NoAdmittedIntent | SettlementIdentity | StaleSettlement
    | OperationBinding | DifferentIntent | BoundExceeded

  datatype Outcome = Next(state: State) | Rejected(reason: Rejection)

  const INITIAL := State(None, [])

  /** `findIndex` over the admission window; the length when the operation is absent. */
  function IndexOf(admitted: seq<Intent>, operationId: string): (i: nat)
    ensures i <= |admitted|
    ensures i < |admitted| ==> admitted[i].operationId == operationId
    ensures forall j :: 0 <= j < i ==> admitted[j].operationId != operationId
  {
    if admitted == [] || admitted[0].operationId == operationId then 0
    else 1 + IndexOf(admitted[1..], operationId)
  }

  function BindTransition(state: State, binding: Binding): Outcome {
    match state.binding
    case None => Next(State(Some(binding), state.admitted))
    case Some(current) =>
      if SameBinding(current, binding) then Next(state)
      else if !SameWorkspacePolicy(current, binding) then Rejected(PolicyChanged)
      else if binding.generation <= current.generation then Rejected(GenerationNotNewer)
      else if |state.admitted| != 0 then Rejected(Unresolved)
      else Next(State(Some(binding), state.admitted))
  }

  function CleanupTransition(state: State, operationId: string, settlement: Settlement): Outcome {
    if state.binding.None? || !SameBinding(state.binding.value, settlement.binding) then Rejected(SettlementBinding)
    else
      var index := IndexOf(state.admitted, operationId);
      if index == |state.admitted| then Rejected(NoAdmittedIntent)
      else if state.admitted[index].operationId != settlement.operationId then Rejected(SettlementIdentity)
      else if !SameBinding(state.admitted[index].binding, settlement.binding) then Rejected(StaleSettlement)
      else Next(State(state.binding, state.admitted[..index] + state.admitted[index + 1..]))
  }

  function AdmitTransition(state: State, operation: Intent): Outcome {
    if state.binding.None? || !SameBinding(state.binding.value, operation.binding) then Rejected(OperationBinding)
    else
      var index := IndexOf(state.admitted, operation.operationId);
      if index < |state.admitted| then
        var existing := state.admitted[index];
        if existing.tool == operation.tool && existing.inputDigest == operation.inputDigest
           && SameBinding(existing.binding, operation.binding)
        then Next(state) else Rejected(DifferentIntent)
      else if |state.admitted| >= MAX_ADMITTED_OPERATIONS then Rejected(BoundExceeded)
      else Next(State(state.binding, state.admitted + [operation]))
  }

  function Transition(state: State, command: Command): Outcome {
    match command
    case Bind(binding) => BindTransition(state, binding)
    case Cleanup(id, settlement) => CleanupTransition(state, id, settlement)
    case Admit(operation) => AdmitTransition(state, operation)
  }

  // ----- runs: a rejected command leaves the journal where it was -----

  function After(state: State, command: Command): State {
    match Transition(state, command)
    case Next(next) => next
    case Rejected(_) => state
  }

  function Run(commands: seq<Command>): State {
    if commands == [] then INITIAL else After(Run(commands[..|commands| - 1]), commands[|commands| - 1])
  }

  datatype Entry = Entry(command: Command, accepted: bool)

  /** The journal of a run: every command with the verdict it received. */
  function Journal(commands: seq<Command>): (log: seq<Entry>)
    ensures |log| == |commands|
  {
    if commands == [] then []
    else
      var n := |commands| - 1;
      Journal(commands[..n]) + [Entry(commands[n], Transition(Run(commands[..n]), commands[n]).Next?)]
  }

  predicate Admits(entry: Entry, operation: Intent) {
    entry.accepted && entry.command == Admit(operation)
  }

  predicate Releases(entry: Entry, operationId: string) {
    entry.accepted && entry.command.Cleanup? && entry.command.operationId == operationId
  }

  /** Independent ledger: admitted at some point of the journal, and not released since. */
  ghost predicate Outstanding(log: seq<Entry>, operation: Intent) {
    exists i :: 0 <= i < |log| && Admits(log[i], operation)
      && forall j :: i < j < |log| ==> !Releases(log[j], operation.operationId)
  }

  ghost predicate Valid(state: State) {
    && |state.admitted| <= MAX_ADMITTED_OPERATIONS
    && (forall i, j :: 0 <= i < j < |state.admitted| ==> state.admitted[i].operationId != state.admitted[j].operationId)
    && (forall op :: op in state.admitted ==> state.binding.Some? && SameBinding(state.binding.value, op.binding))
  }

  /** One accepted command may advance the generation only with an empty window, never lowers it, and
      never changes the policy of a consistent binding. */
  ghost predicate Advances(before: State, after: State) {
    before.binding.Some? ==>
      && after.binding.Some?
      && before.binding.value.generation <= after.binding.value.generation
      && (PlacementMatchesWorkspace(before.binding.value)
          ==> SameWorkspacePolicy(before.binding.value, after.binding.value))
      && (before.binding != after.binding ==>
            && before.admitted == [] && after.admitted == []
            && before.binding.value.generation < after.binding.value.generation)
  }

  lemma BindKeeps(state: State, binding: Binding)
    requires Valid(state)
    ensures Valid(After(state, Bind(binding))) && Advances(state, After(state, Bind(binding)))
  {
  }

  lemma CleanupKeeps(state: State, command: Command)
    requires Valid(state) && command.Cleanup?
    ensures Valid(After(state, command)) && Advances(state, After(state, command))
  {
    if Transition(state, command).Next? {
      var index := IndexOf(state.admitted, command.operationId);
      var next := After(state, command);
      assert forall k :: 0 <= k < |next.admitted| ==>
        next.admitted[k] == state.admitted[if k < index then k else k + 1];
      hide SameBinding;
    }
  }

  lemma AdmitKeeps(state: State, command: Command)
    requires Valid(state) && command.Admit?
    ensures Valid(After(state, command)) && Advances(state, After(state, command))
  {
    hide SameBinding;
  }

  lemma StepKeeps(state: State, command: Command)
    requires Valid(state)
    ensures Valid(After(state, command)) && Advances(state, After(state, command))
  {
    hide Valid, Advances, After;
    match command
    case Bind(binding) => BindKeeps(state, binding);
    case Cleanup(_, _) => CleanupKeeps(state, command);
    case Admit(_) => AdmitKeeps(state, command);
  }

  /** What one accepted command does to the window: nothing but the named operation comes or goes. */
  lemma StepWindow(state: State, command: Command, operation: Intent)
    requires Valid(state)
    ensures operation in After(state, command).admitted <==>
            || (command == Admit(operation) && Transition(state, command).Next?)
            || (operation in state.admitted
                && !(command.Cleanup? && command.operationId == operation.operationId
                     && Transition(state, command).Next?))
  {
    var next := After(state, command);
    if Transition(state, command).Next? {
      match command
      case Bind(_) =>
      case Admit(op) =>
        var index := IndexOf(state.admitted, op.operationId);
        if index < |state.admitted| {
          FencesAreIdentity(state.admitted[index].binding, op.binding, ToEvidence(op.binding));
          assert state.admitted[index] == op;
        }
      case Cleanup(id, _) =>
        var index := IndexOf(state.admitted, id);
        assert state.admitted == state.admitted[..index] + [state.admitted[index]] + state.admitted[index + 1..];
        if operation in state.admitted && operation.operationId == id {
          var k :| 0 <= k < |state.admitted| && state.admitted[k] == operation;
          assert k == index;
        }
    }
  }

  lemma {:induction false} RunValid(commands: seq<Command>)
    ensures Valid(Run(commands))
  {
    if commands == [] {
    } else {
      RunValid(commands[..|commands| - 1]);
      StepKeeps(Run(commands[..|commands| - 1]), commands[|commands| - 1]);
    }
  }

  /** The ledger read one entry at a time. */
  lemma OutstandingStep(log: seq<Entry>, last: Entry, operation: Intent)
    ensures Outstanding(log + [last], operation) <==>
            Admits(last, operation) || (Outstanding(log, operation) && !Releases(last, operation.operationId))
  {
    var all := log + [last];
    if Admits(last, operation) {
      assert Admits(all[|log|], operation);
    } else if Outstanding(log, operation) && !Releases(last, operation.operationId) {
      var i :| 0 <= i < |log| && Admits(log[i], operation)
        && forall j :: i < j < |log| ==> !Releases(log[j], operation.operationId);
      assert Admits(all[i], operation);
    }
    if Outstanding(all, operation) && !Admits(last, operation) {
      var i :| 0 <= i < |all| && Admits(all[i], operation)
        && forall j :: i < j < |all| ==> !Releases(all[j], operation.operationId);
      assert Admits(log[i], operation);
      assert !Releases(all[|log|], operation.operationId);
      assert forall j :: i < j < |log| ==> log[j] == all[j];
    }
  }

  /** Admission is conserved: over every run from the initial state the window is exactly the set of
      operations admitted and not yet released, with unique identities, under the current binding
      and within the bound. */
  lemma {:induction false} AdmissionConservation(commands: seq<Command>, operation: Intent)
    ensures Valid(Run(commands))
    ensures operation in Run(commands).admitted <==> Outstanding(Journal(commands), operation)
  {
    RunValid(commands);
    if commands == [] {
    } else {
      var n := |commands| - 1;
      var state := Run(commands[..n]);
      AdmissionConservation(commands[..n], operation);
      StepWindow(state, commands[n], operation);
      OutstandingStep(Journal(commands[..n]), Entry(commands[n], Transition(state, commands[n]).Next?), operation);
    }
  }

  /** Between any two points of a run the generation never falls, the policy of a consistent binding is
      fixed, and a generation that rose did so across an empty window. */
  lemma {:induction false} GenerationFence(commands: seq<Command>, i: nat)
    requires i <= |commands|
    ensures var before, after := Run(commands[..i]), Run(commands);
            before.binding.Some? ==>
              && after.binding.Some?
              && before.binding.value.generation <= after.binding.value.generation
              && (PlacementMatchesWorkspace(before.binding.value)
                  ==> SameWorkspacePolicy(before.binding.value, after.binding.value))
              && (before.binding != after.binding ==>
                    && before.binding.value.generation < after.binding.value.generation
                    && exists k :: i <= k < |commands| && Run(commands[..k]).admitted == [])
    decreases |commands|
  {
    if i == |commands| {
      assert commands[..i] == commands;
      var b := Run(commands).binding;
      if b.Some? { FencesAreIdentity(b.value, b.value, ToEvidence(b.value)); }
    } else {
      var n := |commands| - 1;
      GenerationFence(commands[..n], i);
      assert commands[..n][..i] == commands[..i];
      RunValid(commands[..n]);
      StepKeeps(Run(commands[..n]), commands[n]);
      var before, mid, after := Run(commands[..i]), Run(commands[..n]), Run(commands);
      if before.binding.Some? && before.binding != after.binding {
        if before.binding != mid.binding {
          var k :| i <= k < n && Run(commands[..n][..k]).admitted == [];
          assert commands[..n][..k] == commands[..k];
        } else {
          assert Run(commands[..n]).admitted == [];
        }
      }
    }
  }

  /** The first binding is taken without a consistency check. Once the bound binding is inconsistent every
      command is rejected, including a repetition of that very `Bind`; a consistent one always accepts
      its own repetition. So the component can make progress if and only if it was bound consistently. */
  lemma InconsistentBindingWedges(state: State)
    requires state.binding.Some?
    ensures !PlacementMatchesWorkspace(state.binding.value) <==> forall command :: Transition(state, command).Rejected?
  {
    var b := state.binding.value;
    FencesAreIdentity(b, b, ToEvidence(b));
    if PlacementMatchesWorkspace(b) {
      assert Transition(state, Bind(b)).Next?;
    }
  }

  /** A binding that names one workspace and places another. */
  const TWISTED := Binding("w", "a", 1, Runner("c", "other"), "build", 1)

  /** The wedge is reachable: a single `Bind` is accepted, and every command after it is rejected. */
  lemma WedgeIsReachable(command: Command)
    ensures Transition(INITIAL, Bind(TWISTED)).Next? && Run([Bind(TWISTED)]).binding == Some(TWISTED)
    ensures Transition(Run([Bind(TWISTED)]), command).Rejected?
  {
    assert [Bind(TWISTED)][..0] == [];
    InconsistentBindingWedges(Run([Bind(TWISTED)]));
  }

  // ----- what is accepted -----

  /** The same binding under another assignment, with a higher generation and a consistent placement. */
  predicate Renews(current: Binding, binding: Binding) {
    && binding == current.(assignmentId := binding.assignmentId, generation := binding.generation)
    && PlacementMatchesWorkspace(binding) && binding.generation > current.generation
  }

  /** Binding, exactly: the first one is accepted, a consistent one may be repeated, and it may be renewed over an empty
      window; nothing else is accepted, and the window never changes. */
  lemma BindExactly(state: State, binding: Binding)
    ensures var outcome := Transition(state, Bind(binding));
            && (outcome.Next? <==>
                  match state.binding
                  case None => true
                  case Some(current) =>
                    PlacementMatchesWorkspace(current)
                    && (binding == current || (Renews(current, binding) && state.admitted == [])))
            && (outcome.Next? ==> outcome.state == State(Some(binding), state.admitted))
  {
    if state.binding.Some? {
      FencesAreIdentity(state.binding.value, binding, ToEvidence(binding));
    }
  }

  /** Admission, exactly: an operation is accepted if and only if it names the bound, consistent binding, and is in the
      window already, or is new by its identity and finds fewer than 128 there; and then it is in the window, once. */
  lemma AdmitExactly(state: State, operation: Intent)
    requires Valid(state)
    ensures var outcome := Transition(state, Admit(operation));
            var known := operation in state.admitted;
            && (outcome.Next? <==>
                  && state.binding == Some(operation.binding) && PlacementMatchesWorkspace(operation.binding)
                  && (known || (|state.admitted| < 128
                                && forall op :: op in state.admitted ==> op.operationId != operation.operationId)))
            && (outcome.Next? ==>
                  outcome.state == State(state.binding, if known then state.admitted else state.admitted + [operation]))
  {
    if state.binding.Some? { FencesAreIdentity(state.binding.value, operation.binding, ToEvidence(operation.binding)); }
    var index := IndexOf(state.admitted, operation.operationId);
    if index < |state.admitted| {
      var existing := state.admitted[index];
      FencesAreIdentity(existing.binding, operation.binding, ToEvidence(operation.binding));
      assert existing in state.admitted;
      if operation in state.admitted {
        var k :| 0 <= k < |state.admitted| && state.admitted[k] == operation;
        assert k == index;
      }
    }
  }

  /** Release, exactly: it is accepted if and only if the settlement is made under the bound, consistent binding for the
      operation it names, which is in the window; and then that operation alone leaves it. */
  lemma CleanupExactly(state: State, operationId: string, settlement: Settlement)
    requires Valid(state)
    ensures var outcome := Transition(state, Cleanup(operationId, settlement));
            && (outcome.Next? <==>
                  && state.binding == Some(settlement.binding) && PlacementMatchesWorkspace(settlement.binding)
                  && settlement.operationId == operationId
                  && exists op :: op in state.admitted && op.operationId == operationId)
            && (outcome.Next? ==>
                  outcome.state.binding == state.binding
                  && exists i :: 0 <= i < |state.admitted| && state.admitted[i].operationId == operationId
                                 && outcome.state.admitted == state.admitted[..i] + state.admitted[i + 1..])
  {
    if state.binding.Some? { FencesAreIdentity(state.binding.value, settlement.binding,
                                               ToEvidence(settlement.binding)); }
    var index := IndexOf(state.admitted, operationId);
    if index < |state.admitted| {
      var existing := state.admitted[index];
      assert existing in state.admitted;
      FencesAreIdentity(state.binding.value, existing.binding, ToEvidence(existing.binding));
      FencesAreIdentity(existing.binding, settlement.binding, ToEvidence(settlement.binding));
    }
  }

  function Admissions(operations: seq<Intent>): seq<Command> {
    seq(|operations|, i requires 0 <= i < |operations| => Admit(operations[i]))
  }

  /** Different operations of one binding. */
  ghost predicate DifferentUnder(binding: Binding, operations: seq<Intent>) {
    && (forall i :: 0 <= i < |operations| ==> operations[i].binding == binding)
    && (forall i, j :: 0 <= i < j < |operations| ==> operations[i].operationId != operations[j].operationId)
  }

  lemma OneMoreAdmitted(binding: Binding, operations: seq<Intent>, operation: Intent)
    requires PlacementMatchesWorkspace(binding) && |operations| < 128 && Valid(State(Some(binding), operations))
    requires operation.binding == binding
    requires forall i :: 0 <= i < |operations| ==> operations[i].operationId != operation.operationId
    ensures After(State(Some(binding), operations), Admit(operation)) == State(Some(binding), operations + [operation])
  {
    hide Valid, Transition;
    AdmitExactly(State(Some(binding), operations), operation);
  }

  lemma AdmissionsSnoc(binding: Binding, operations: seq<Intent>, operation: Intent)
    ensures Run([Bind(binding)] + Admissions(operations + [operation]))
         == After(Run([Bind(binding)] + Admissions(operations)), Admit(operation))
  {
    hide After;
    var commands := [Bind(binding)] + Admissions(operations + [operation]);
    assert commands[..|commands| - 1] == [Bind(binding)] + Admissions(operations);
    assert commands[|commands| - 1] == Admit(operation);
  }

  /** Admission in use: once a consistent binding is bound, any 128 different operations under it are admitted, in
      order. */
  lemma {:induction false} AllAreAdmitted(binding: Binding, operations: seq<Intent>)
    requires PlacementMatchesWorkspace(binding) && |operations| <= 128 && DifferentUnder(binding, operations)
    ensures Run([Bind(binding)] + Admissions(operations)) == State(Some(binding), operations)
  {
    if operations == [] {
      var commands := [Bind(binding)] + Admissions(operations);
      assert commands == [Bind(binding)] && commands[..0] == [];
      assert Run(commands[..0]) == INITIAL;
    } else {
      var past, last := operations[..|operations| - 1], operations[|operations| - 1];
      hide Valid, After, Run, Admissions;
      AllAreAdmitted(binding, past);
      RunValid([Bind(binding)] + Admissions(past));
      AdmissionsSnoc(binding, past, last);
      OneMoreAdmitted(binding, past, last);
      assert past + [last] == operations;
    }
  }
}
