/** Workspace bindings and the equality guards every fence of the dispatch protocol uses
    (packages/execution/src/binding.ts). */
module Bindings {

  datatype Option<+T> = None | Some(value: T)

  datatype Placement =
    | Runner(checkoutFingerprint: string, workspaceId: string)
    | Orb(workspaceId: string, lineageId: string)

  /** The immutable binding admitted before a native operation may reach an Executor. */
  datatype Binding = Binding(
    workspaceId: string,
    assignmentId: string,
    generation: int,
    placement: Placement,
    buildId: string,
    protocolVersion: int)

  /** What an Executor reports about itself; the same fields, as a separate type. */
  datatype Evidence = Evidence(
    workspaceId: string,
    assignmentId: string,
    generation: int,
    placement: Placement,
    buildId: string,
    protocolVersion: int)

  datatype Mismatch = Workspace | Assignment | Generation | PlacementField | Build | Protocol

  predicate PlacementEqual(left: Placement, right: Placement) {
    match (left, right)
    case (Runner(c1, w1), Runner(c2, w2)) => w1 == w2 && c1 == c2
    case (Orb(w1, l1), Orb(w2, l2)) => w1 == w2 && l1 == l2
    case _ => false
  }

  predicate PlacementMatchesWorkspace(binding: Binding) {
    binding.workspaceId == binding.placement.workspaceId
  }

  predicate SameWorkspacePolicy(left: Binding, right: Binding) {
    && PlacementMatchesWorkspace(left)
    && PlacementMatchesWorkspace(right)
    && left.workspaceId == right.workspaceId
    && left.buildId == right.buildId
    && left.protocolVersion == right.protocolVersion
    && PlacementEqual(left.placement, right.placement)
  }

  predicate SameBinding(left: Binding, right: Binding) {
    SameWorkspacePolicy(left, right) && left.assignmentId == right.assignmentId && left.generation == right.generation
  }

  predicate SameEvidence(binding: Binding, evidence: Evidence) {
    && binding.workspaceId == evidence.workspaceId
    && binding.assignmentId == evidence.assignmentId
    && binding.generation == evidence.generation
    && PlacementEqual(binding.placement, evidence.placement)
    && binding.buildId == evidence.buildId
    && binding.protocolVersion == evidence.protocolVersion
  }

  function MismatchReason(binding: Binding, evidence: Evidence): Option<Mismatch> {
    if binding.workspaceId != evidence.workspaceId then Some(Workspace)
    else if binding.assignmentId != evidence.assignmentId then Some(Assignment)
    else if binding.generation != evidence.generation then Some(Generation)
    else if !PlacementEqual(binding.placement, evidence.placement) then Some(PlacementField)
    else if binding.buildId != evidence.buildId then Some(Build)
    else if binding.protocolVersion != evidence.protocolVersion then Some(Protocol)
    else None
  }

  function ToEvidence(binding: Binding): Evidence {
    Evidence(binding.workspaceId, binding.assignmentId, binding.generation, binding.placement,
             binding.buildId, binding.protocolVersion)
  }

  /** The three guards agree with structural identity, except that `SameBinding` and
      `SameWorkspacePolicy` additionally demand consistency: an inconsistent binding is not even
      the same as itself, and that is the one mismatch the reason function cannot name. */
  lemma FencesAreIdentity(left: Binding, right: Binding, evidence: Evidence)
    ensures SameBinding(left, right) <==> left == right && PlacementMatchesWorkspace(left)
    ensures SameEvidence(left, evidence) <==> evidence == ToEvidence(left)
    ensures MismatchReason(left, evidence).None? <==> SameEvidence(left, evidence)
    ensures !SameBinding(left, right) && MismatchReason(left, ToEvidence(right)).None?
            <==> left == right && !PlacementMatchesWorkspace(left)
  {
    assert PlacementEqual(left.placement, right.placement) <==> left.placement == right.placement;
    assert PlacementEqual(left.placement, evidence.placement) <==> left.placement == evidence.placement;
  }
}
