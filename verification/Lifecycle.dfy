/** Box lifecycle (packages/box-executor/src/lifecycle.ts and lifecycle-validation.ts): preparing and forking a Box,
    with the snapshot pin observed on both sides of a fork. */
module Lifecycle {
  import opened Bindings
  import EC = ExecutorContract

  const WINDOW_MILLIS := 86_400_000

  datatype BoxState =
    Init | Provisioning | Provisioned | Cloning | Idle | Available | Running | Archiving | Archived | ErrorState

  datatype Snapshot = Snapshot(id: string, boxId: string)

  /** What the provider would say of one Box at one moment. */
  datatype Source = Source(state: BoxState, latest: Option<Snapshot>)

  /** The provider's history: every Box at every moment. */
  type History = (string, nat) -> Source

  datatype Pin = Pin(boxId: string, snapshotId: string)

  datatype Body = Body(noEnv: bool, envKeys: nat, ttlSeconds: int)

  datatype BillableRequest = BillableRequest(sourceBoxId: string, issuedAt: int, expiresAt: int, body: Body)

  datatype Policy = Policy(template: Pin, ttlSeconds: int, readinessAttempts: nat)

  datatype Kind =
    | InvalidIntent | TemplateMismatch | SnapshotMismatch | NotReady | Provider | EnrollmentFailed | Fenced

  datatype Outcome =
    | Ready(boxId: string, binding: Binding, evidence: Evidence)
    | Failed(kind: Kind)

  // ----- validation -----

  predicate Consistent(binding: Binding) { PlacementMatchesWorkspace(binding) }

  predicate SafeBody(body: Body, policy: Policy) {
    body.noEnv && body.envKeys == 0 && body.ttlSeconds == policy.ttlSeconds
  }

  predicate FullWindow(request: BillableRequest) { request.expiresAt - request.issuedAt == WINDOW_MILLIS }

  predicate FreshResume(source: Binding, next: Binding) {
    && source.placement.Orb? && next.placement.Orb?
    && Consistent(source) && Consistent(next) && source.workspaceId == next.workspaceId
    && source.placement.lineageId == next.placement.lineageId
    && source.assignmentId != next.assignmentId && next.generation > source.generation
  }

  predicate FreshFork(source: Binding, next: Binding) {
    && source.placement.Orb? && next.placement.Orb?
    && Consistent(source) && Consistent(next) && source.workspaceId != next.workspaceId
    && source.placement.lineageId != next.placement.lineageId
    && source.assignmentId != next.assignmentId
  }

  datatype Prepare = Prepare(template: Pin, binding: Binding, request: BillableRequest)

  datatype Held = Held(boxId: string, binding: Binding, snapshot: Snapshot)

  datatype Fork = Fork(source: Held, binding: Binding, request: BillableRequest)

  function ValidatePrepare(policy: Policy, intent: Prepare): Option<Kind> {
    if intent.template != policy.template || intent.request.sourceBoxId != intent.template.boxId
    then Some(TemplateMismatch)
    else if !Consistent(intent.binding) || !FullWindow(intent.request) || !SafeBody(intent.request.body, policy)
    then Some(InvalidIntent)
    else None
  }

  predicate ValidFork(policy: Policy, intent: Fork) {
    && intent.source.boxId == intent.source.snapshot.boxId && intent.request.sourceBoxId == intent.source.boxId
    && FreshFork(intent.source.binding, intent.binding) && FullWindow(intent.request)
       && SafeBody(intent.request.body, policy)
  }

  // ----- polling -----

  /** What one `get` of the polled Box gives; none is a failed request. */
  datatype Look = Look(state: BoxState, setupFailed: bool)

  datatype Target = UntilReady | UntilArchived

  predicate Reached(target: Target, look: Look) {
    match target
    case UntilReady => look.state in {Available, Idle, Running}
    case UntilArchived => look.state == Archived
  }

  /** The poll goes on after this look. */
  predicate Undecided(target: Target, look: Option<Look>) {
    look.Some? && !Reached(target, look.value) && look.value.state != ErrorState
  }

  /** The look ends the poll well. */
  predicate Arrived(target: Target, look: Option<Look>) {
    look.Some? && Reached(target, look.value) && !(target == UntilReady && look.value.setupFailed)
  }

  /** `waitForBox` from one attempt on; the second component counts the requests made. */
  function Poll(looks: nat -> Option<Look>, attempts: nat, target: Target, attempt: nat): (Option<Kind>, nat)
    decreases if attempt < attempts then attempts - attempt else 0
  {
    match looks(attempt)
    case None => (Some(Provider), 1)
    case Some(look) =>
      if Reached(target, look) then (if target == UntilReady && look.setupFailed then Some(NotReady) else None, 1)
      else if look.state == ErrorState || attempt >= attempts then (Some(NotReady), 1)
      else
        var (kind, requests) := Poll(looks, attempts, target, attempt + 1);
        (kind, requests + 1)
  }

  /** Bounded polling, exactly: it makes at most as many requests as the policy allows, it looks on only while
      undecided, and it succeeds if and only if the first decisive look within the bound shows the Box where it
      should be, and set up. */
  lemma {:induction false} PollExactly(looks: nat -> Option<Look>, attempts: nat, target: Target, attempt: nat)
    requires attempt <= attempts
    ensures var (kind, requests) := Poll(looks, attempts, target, attempt);
            var last := attempt + requests - 1;
            && 1 <= requests && last <= attempts
            && (forall k :: attempt <= k < last ==> Undecided(target, looks(k)))
            && (Undecided(target, looks(last)) ==> last == attempts)
            && (kind.None? <==> Arrived(target, looks(last)))
            && (kind == Some(Provider) <==> looks(last).None?)
    decreases attempts - attempt
  {
    if attempt == attempts || !Undecided(target, looks(attempt)) {
    } else {
      PollExactly(looks, attempts, target, attempt + 1);
    }
  }

  // ----- operations -----

  function PinnedSnapshot(pin: Pin): Snapshot { Snapshot(pin.snapshotId, pin.boxId) }

  /** `verifyPinnedSnapshot`: first the Box is read, then its latest snapshot. */
  predicate Pinned(history: History, pin: Pin, gotAt: nat, latestAt: nat) {
    && history(pin.boxId, gotAt).state == Archived
    && history(pin.boxId, latestAt).latest == Some(PinnedSnapshot(pin))
  }

  /** When the five requests around a fork are answered, and what else the environment does: the Box made, if any, its
      later looks, and how its enrolment ends. */
  datatype Env = Env(
    get1: nat, latest1: nat, forkedAt: nat, get2: nat, latest2: nat,
    created: Option<string>,
    looks: nat -> Option<Look>,
    enrolls: bool,
    evidence: Option<Evidence>)

  predicate Sequential(env: Env) {
    env.get1 <= env.latest1 <= env.forkedAt <= env.get2 <= env.latest2
  }

  /** `waitForBox`, `enrollAndFence` and the result. */
  function Enrolled(policy: Policy, env: Env, boxId: string, binding: Binding): Outcome {
    var wait := Poll(env.looks, policy.readinessAttempts, UntilReady, 1).0;
    if wait.Some? then Failed(wait.value)
    else if !env.enrolls || env.evidence.None? then Failed(EnrollmentFailed)
    else match EC.ValidateHandshake(binding, env.evidence.value)
      case Err(_) => Failed(Fenced)
      case Ok(evidence) => Ready(boxId, binding, evidence)
  }

  function PinnedFork(policy: Policy, history: History, env: Env, pin: Pin, binding: Binding): Outcome {
    if !Pinned(history, pin, env.get1, env.latest1) then Failed(SnapshotMismatch)
    else if env.created.None? then Failed(Provider)
    else if !Pinned(history, pin, env.get2, env.latest2) then Failed(SnapshotMismatch)
    else Enrolled(policy, env, env.created.value, binding)
  }

  function PrepareWorkspace(policy: Policy, history: History, env: Env, intent: Prepare): Outcome {
    var invalid := ValidatePrepare(policy, intent);
    if invalid.Some? then Failed(invalid.value)
    else PinnedFork(policy, history, env, intent.template, intent.binding)
  }

  function ForkWorkspace(policy: Policy, history: History, env: Env, intent: Fork): Outcome {
    if !ValidFork(policy, intent) then Failed(InvalidIntent)
    else PinnedFork(policy, history, env, Pin(intent.source.boxId, intent.source.snapshot.id), intent.binding)
  }

  // ----- provenance -----

  /** A fork copies the snapshot that is the latest of the Box it names when it is taken. */
  function TakenFrom(history: History, env: Env, request: BillableRequest): Option<Snapshot> {
    history(request.sourceBoxId, env.forkedAt).latest
  }

  /** The pin is observed by two pairs of requests, and is not the latest snapshot at a moment between them. */
  predicate Interrupted(history: History, pin: Pin, a: nat, b: nat, c: nat, d: nat, e: nat) {
    && a <= b <= c <= d <= e && Pinned(history, pin, a, b) && Pinned(history, pin, d, e)
    && history(pin.boxId, c).latest != Some(PinnedSnapshot(pin))
  }

  /** Between any two moments at which the pin is observed it is the latest snapshot. */
  ghost predicate PinStays(history: History, pin: Pin) {
    forall a: nat, b: nat, c: nat, d: nat, e: nat :: !Interrupted(history, pin, a, b, c, d, e)
  }

  /** The latest snapshot of a Box never returns to an earlier value. */
  ghost predicate NeverReturns(history: History, boxId: string) {
    forall a: nat, b: nat, c: nat :: a <= b <= c && history(boxId, a).latest == history(boxId, c).latest ==>
      history(boxId, b).latest == history(boxId, a).latest
  }

  /** It is enough that snapshots never return, but that is more than is needed. */
  lemma {:induction false} NeverReturnsKeepsPins(history: History, pin: Pin)
    requires NeverReturns(history, pin.boxId)
    ensures PinStays(history, pin)
  {
  }

  lemma OthersMayReturn(pin: Pin, other: Snapshot)
    requires other != PinnedSnapshot(pin)
    ensures var history := (boxId, at: nat) =>
              Source(Archived, if at == 1 then Some(other) else if at < 3 then None else Some(PinnedSnapshot(pin)));
            PinStays(history, pin) && !NeverReturns(history, pin.boxId)
  {
    var history := (boxId: string, at: nat) =>
      Source(Archived, if at == 1 then Some(other) else if at < 3 then None else Some(PinnedSnapshot(pin)));
    assert history(pin.boxId, 0).latest == history(pin.boxId, 2).latest != history(pin.boxId, 1).latest;
  }

  /** What a Ready result says. */
  ghost predicate Genuine(policy: Policy, env: Env, outcome: Outcome, binding: Binding) {
    outcome.Ready? ==>
      && env.created == Some(outcome.boxId) && outcome.binding == binding
      && SameEvidence(binding, outcome.evidence)
      && exists n: nat :: 1 <= n <= policy.readinessAttempts && Arrived(UntilReady, env.looks(n))
  }

  lemma EnrolledIsGenuine(policy: Policy, env: Env, boxId: string, binding: Binding)
    requires env.created == Some(boxId) && policy.readinessAttempts >= 1
    ensures Genuine(policy, env, Enrolled(policy, env, boxId, binding), binding)
  {
    PollExactly(env.looks, policy.readinessAttempts, UntilReady, 1);
    var requests := Poll(env.looks, policy.readinessAttempts, UntilReady, 1).1;
    assert env.looks(requests) == env.looks(1 + requests - 1);
    hide Poll;
  }

  /** What a Ready result of Prepare says, and where its Box comes from if the pin stays. */
  lemma {:induction false} PreparedFromThePin(policy: Policy, history: History, env: Env, intent: Prepare)
    requires Sequential(env) && policy.readinessAttempts >= 1
    ensures var outcome := PrepareWorkspace(policy, history, env, intent);
            && Genuine(policy, env, outcome, intent.binding)
            && (outcome.Ready? ==> Consistent(outcome.binding))
            && (outcome.Ready? && PinStays(history, policy.template) ==>
                  TakenFrom(history, env, intent.request) == Some(PinnedSnapshot(policy.template)))
  {
    if env.created.Some? { EnrolledIsGenuine(policy, env, env.created.value, intent.binding); }
    hide Enrolled, Genuine, PinStays;
    if PrepareWorkspace(policy, history, env, intent).Ready? && PinStays(history, intent.template) {
      PinnedForkIsFromThePin(policy, history, env, intent.template, intent.binding);
    }
  }

  /** Likewise for Fork, and the new Box has a lineage and an assignment of its own. */
  lemma {:induction false} ForkedFromThePin(policy: Policy, history: History, env: Env, intent: Fork)
    requires Sequential(env) && policy.readinessAttempts >= 1
    ensures var outcome := ForkWorkspace(policy, history, env, intent);
            && Genuine(policy, env, outcome, intent.binding)
            && (outcome.Ready? ==> FreshFork(intent.source.binding, outcome.binding))
            && (outcome.Ready? && PinStays(history, SourcePin(intent)) ==>
                  TakenFrom(history, env, intent.request) == Some(intent.source.snapshot))
  {
    if env.created.Some? { EnrolledIsGenuine(policy, env, env.created.value, intent.binding); }
    hide Enrolled, Genuine, PinStays;
    if ForkWorkspace(policy, history, env, intent).Ready? && PinStays(history, SourcePin(intent)) {
      PinnedForkIsFromThePin(policy, history, env, SourcePin(intent), intent.binding);
    }
  }

  function SourcePin(intent: Fork): Pin { Pin(intent.source.boxId, intent.source.snapshot.id) }

  /** Every Ready Box of this Prepare was forked from the pinned snapshot, whatever the timing and the environment. */
  ghost predicate AlwaysPrepared(policy: Policy, history: History, intent: Prepare) {
    forall env :: Sequential(env) && PrepareWorkspace(policy, history, env, intent).Ready? ==>
      TakenFrom(history, env, intent.request) == Some(PinnedSnapshot(intent.template))
  }

  ghost predicate AlwaysForked(policy: Policy, history: History, intent: Fork) {
    forall env :: Sequential(env) && ForkWorkspace(policy, history, env, intent).Ready? ==>
      TakenFrom(history, env, intent.request) == Some(intent.source.snapshot)
  }

  /** An environment in which everything succeeds, with the five requests answered at these moments. */
  function Smooth(a: nat, b: nat, c: nat, d: nat, e: nat, binding: Binding): Env {
    Env(a, b, c, d, e, Some("box"), _ => Some(Look(Idle, false)), true, Some(ToEvidence(binding)))
  }

  lemma SmoothIsReady(policy: Policy, history: History, env: Env, pin: Pin, binding: Binding)
    requires Pinned(history, pin, env.get1, env.latest1) && Pinned(history, pin, env.get2, env.latest2)
    requires env == Smooth(env.get1, env.latest1, env.forkedAt, env.get2, env.latest2, binding)
    ensures PinnedFork(policy, history, env, pin, binding).Ready?
  {
    hide Pinned;
    FencesAreIdentity(binding, binding, ToEvidence(binding));
  }

  /** What the pinned fork at the heart of both operations comes from. */
  lemma {:induction false} PinnedForkIsFromThePin(policy: Policy, history: History, env: Env, pin: Pin,
                                                  binding: Binding)
    requires PinStays(history, pin) && Sequential(env) && PinnedFork(policy, history, env, pin, binding).Ready?
    ensures history(pin.boxId, env.forkedAt).latest == Some(PinnedSnapshot(pin))
  {
    hide Pinned, Enrolled;
    assert !Interrupted(history, pin, env.get1, env.latest1, env.forkedAt, env.get2, env.latest2);
  }

  /** If the pin does not stay, some Ready Box comes from elsewhere. */
  lemma {:induction false} PinnedForkDeceives(policy: Policy, history: History, pin: Pin, binding: Binding)
    returns (env: Env)
    requires !PinStays(history, pin)
    ensures Sequential(env) && PinnedFork(policy, history, env, pin, binding).Ready?
    ensures history(pin.boxId, env.forkedAt).latest != Some(PinnedSnapshot(pin))
  {
    hide PinnedFork;
    var a: nat, b: nat, c: nat, d: nat, e: nat :| Interrupted(history, pin, a, b, c, d, e);
    env := Smooth(a, b, c, d, e, binding);
    SmoothIsReady(policy, history, env, pin, binding);
  }

  /** Fork provenance of Prepare, exactly: observing the pin on both sides of the fork proves where the Box comes
      from if and only if the pin stays the latest snapshot between any two such observations. */
  lemma {:induction false} PreparedExactly(policy: Policy, history: History, intent: Prepare)
    ensures AlwaysPrepared(policy, history, intent) <==>
              ValidatePrepare(policy, intent).Some? || PinStays(history, intent.template)
  {
    hide PinnedFork, PinStays, Sequential;
    if ValidatePrepare(policy, intent).None? {
      if PinStays(history, intent.template) {
        forall env | Sequential(env) && PrepareWorkspace(policy, history, env, intent).Ready?
          ensures TakenFrom(history, env, intent.request) == Some(PinnedSnapshot(intent.template))
        {
          PinnedForkIsFromThePin(policy, history, env, intent.template, intent.binding);
        }
      } else {
        var env := PinnedForkDeceives(policy, history, intent.template, intent.binding);
        assert PrepareWorkspace(policy, history, env, intent).Ready?;
      }
    }
  }

  /** Fork provenance of Fork, exactly. */
  lemma {:induction false} ForkedExactly(policy: Policy, history: History, intent: Fork)
    ensures AlwaysForked(policy, history, intent) <==>
            !ValidFork(policy, intent) || PinStays(history, SourcePin(intent))
  {
    hide PinnedFork, PinStays, Sequential;
    var pin := SourcePin(intent);
    if ValidFork(policy, intent) {
      assert PinnedSnapshot(pin) == intent.source.snapshot && intent.request.sourceBoxId == pin.boxId;
      if PinStays(history, pin) {
        forall env | Sequential(env) && ForkWorkspace(policy, history, env, intent).Ready?
          ensures TakenFrom(history, env, intent.request) == Some(intent.source.snapshot)
        {
          PinnedForkIsFromThePin(policy, history, env, pin, intent.binding);
        }
      } else {
        var env := PinnedForkDeceives(policy, history, pin, intent.binding);
        assert ForkWorkspace(policy, history, env, intent).Ready?;
      }
    }
  }

  /** A Box whose latest snapshot is the pinned one except for one moment, when there is none. */
  function Blinking(pin: Pin): History {
    (boxId, at) => Source(Archived, if at == 1 then None else Some(PinnedSnapshot(pin)))
  }

  /** A pin that does not stay: a fork made just when the snapshot is gone is Ready all the same. */
  lemma ReturningSnapshotDeceives(policy: Policy, intent: Prepare, env: Env)
    requires policy.readinessAttempts >= 1 && ValidatePrepare(policy, intent).None?
    requires env.get1 == 0 && env.latest1 == 0 && env.forkedAt == 1 && env.get2 == 2 && env.latest2 == 2
    requires env.created.Some? && Enrolled(policy, env, env.created.value, intent.binding).Ready?
    ensures var history := Blinking(policy.template);
            && Sequential(env) && PrepareWorkspace(policy, history, env, intent).Ready?
            && TakenFrom(history, env, intent.request) != Some(PinnedSnapshot(policy.template))
            && !PinStays(history, policy.template)
  {
    hide Enrolled;
    assert Interrupted(Blinking(policy.template), policy.template, 0, 0, 1, 2, 2);
  }

  /** A fresh binding fences the one it follows out: no evidence passes for both. */
  lemma FreshBindingsFence(source: Binding, next: Binding, evidence: Evidence)
    requires FreshResume(source, next) || FreshFork(source, next)
    ensures !(SameEvidence(source, evidence) && SameEvidence(next, evidence))
    ensures !SameBinding(source, next)
  {
  }

  ghost predicate ResumeChain(bindings: seq<Binding>) {
    forall i :: 0 < i < |bindings| ==> FreshResume(bindings[i - 1], bindings[i])
  }

  /** Along any chain of resumes the lineage stays, generations rise, and no two Boxes ever pass for each other. */
  lemma {:induction false} ResumeChainFences(bindings: seq<Binding>, i: nat, j: nat, evidence: Evidence)
    requires ResumeChain(bindings) && i < j < |bindings|
    ensures bindings[j].generation >= bindings[i].generation + (j - i)
    ensures bindings[i].placement.Orb? && bindings[j].placement.Orb?
            && bindings[i].placement.lineageId == bindings[j].placement.lineageId
    ensures bindings[i].workspaceId == bindings[j].workspaceId
    ensures !(SameEvidence(bindings[i], evidence) && SameEvidence(bindings[j], evidence))
    decreases j
  {
    assert FreshResume(bindings[j - 1], bindings[j]);
    if i < j - 1 { ResumeChainFences(bindings, i, j - 1, evidence); }
  }

  /** The Box is up, with its setup done. */
  predicate IsUp(look: Option<Look>) {
    look.Some? && (look.value.state == Available || look.value.state == Idle || look.value.state == Running)
    && !look.value.setupFailed
  }

  /** The Box is neither up nor broken yet. */
  predicate IsComing(look: Option<Look>) {
    look.Some? && look.value.state != Available && look.value.state != Idle && look.value.state != Running
    && look.value.state != ErrorState
  }

  /** What makes a pinned fork succeed. */
  ghost predicate Succeeds(policy: Policy, history: History, env: Env, pin: Pin, binding: Binding) {
    && env.created.Some?
    && history(pin.boxId, env.get1).state == Archived && history(pin.boxId, env.get2).state == Archived
    && history(pin.boxId, env.latest1).latest == Some(Snapshot(pin.snapshotId, pin.boxId))
    && history(pin.boxId, env.latest2).latest == Some(Snapshot(pin.snapshotId, pin.boxId))
    && (exists n: nat :: 1 <= n <= policy.readinessAttempts && IsUp(env.looks(n))
                         && forall k :: 1 <= k < n ==> IsComing(env.looks(k)))
    && env.enrolls && env.evidence == Some(ToEvidence(binding))
  }

  lemma {:induction false} PollArrives(policy: Policy, env: Env)
    requires policy.readinessAttempts >= 1
    ensures Poll(env.looks, policy.readinessAttempts, UntilReady, 1).0.None? <==>
              exists n: nat :: 1 <= n <= policy.readinessAttempts && IsUp(env.looks(n))
                               && forall k :: 1 <= k < n ==> IsComing(env.looks(k))
  {
    var attempts := policy.readinessAttempts;
    PollExactly(env.looks, attempts, UntilReady, 1);
    var requests := Poll(env.looks, attempts, UntilReady, 1).1;
    hide Poll;
    if n: nat :| 1 <= n <= attempts && IsUp(env.looks(n)) && forall k :: 1 <= k < n ==> IsComing(env.looks(k)) {
      assert !Undecided(UntilReady, env.looks(n));
      assert requests <= n;
      assert requests == n;
    }
  }

  /** Prepare, exactly: it is Ready if and only if the intent is valid, the pin is observed on both sides of a fork
      that makes a Box, the first decisive look shows that Box ready and set up, and it enrols with exactly the
      evidence of the binding intended. */
  lemma {:induction false} ReadyExactly(policy: Policy, history: History, env: Env, intent: Prepare)
    requires policy.readinessAttempts >= 1
    ensures PrepareWorkspace(policy, history, env, intent).Ready? <==>
              ValidatePrepare(policy, intent).None? && Succeeds(policy, history, env, intent.template, intent.binding)
    ensures ValidatePrepare(policy, intent).None? <==>
              && intent.template == policy.template && intent.request.sourceBoxId == intent.template.boxId
              && PlacementMatchesWorkspace(intent.binding)
              && intent.request.expiresAt - intent.request.issuedAt == 86_400_000
              && intent.request.body == Body(true, 0, policy.ttlSeconds)
  {
    PinnedForkExactly(policy, history, env, intent.template, intent.binding);
    hide PinnedFork, Succeeds;
  }

  lemma {:induction false} PinnedForkExactly(policy: Policy, history: History, env: Env, pin: Pin, binding: Binding)
    requires policy.readinessAttempts >= 1
    ensures PinnedFork(policy, history, env, pin, binding).Ready? <==> Succeeds(policy, history, env, pin, binding)
  {
    hide Poll;
    PollArrives(policy, env);
    if env.evidence.Some? { FencesAreIdentity(binding, binding, env.evidence.value); }
    hide SameEvidence, MismatchReason, IsUp, IsComing;
  }

  /** Both bindings are of Orbs and consistent, and share neither workspace, lineage nor assignment. */
  predicate OfItsOwn(source: Binding, next: Binding) {
    match (source.placement, next.placement)
    case (Orb(workspaceId, lineageId), Orb(nextWorkspaceId, nextLineageId)) =>
      && workspaceId == source.workspaceId && nextWorkspaceId == next.workspaceId && workspaceId != nextWorkspaceId
      && lineageId != nextLineageId && source.assignmentId != next.assignmentId
    case _ => false
  }

  /** Fork, exactly: likewise, for a held Box at the snapshot it is held with, and a fresh binding. */
  lemma {:induction false} ForkReadyExactly(policy: Policy, history: History, env: Env, intent: Fork)
    requires policy.readinessAttempts >= 1
    ensures ForkWorkspace(policy, history, env, intent).Ready? <==>
              ValidFork(policy, intent) && Succeeds(policy, history, env, SourcePin(intent), intent.binding)
    ensures ValidFork(policy, intent) <==>
              && intent.request.sourceBoxId == intent.source.boxId == intent.source.snapshot.boxId
              && OfItsOwn(intent.source.binding, intent.binding)
              && intent.request.expiresAt - intent.request.issuedAt == 86_400_000
              && intent.request.body == Body(true, 0, policy.ttlSeconds)
  {
    PinnedForkExactly(policy, history, env, SourcePin(intent), intent.binding);
    hide PinnedFork, Succeeds;
  }

  // ----- the operations in use -----

  const HELD_BINDING := Binding("w1", "a1", 1, Orb("w1", "l1"), "build", 1)
  const NEXT_BINDING := Binding("w2", "a2", 1, Orb("w2", "l2"), "build", 1)
  const RESUMED_BINDING := Binding("w1", "a3", 2, Orb("w1", "l1"), "build", 1)

  /** A Box held at its latest snapshot can be forked under a binding of its own, and resumed under the next one. */
  lemma ForkAndResumeAreMeant(ttl: int)
    ensures var policy := Policy(Pin("b", "s"), ttl, 3);
            var intent := Fork(Held("b", HELD_BINDING, Snapshot("s", "b")), NEXT_BINDING,
                               BillableRequest("b", 0, 86_400_000, Body(true, 0, ttl)));
            var history := (boxId, at) => Source(Archived, Some(Snapshot("s", "b")));
            && ValidFork(policy, intent)
            && ForkWorkspace(policy, history, Smooth(0, 1, 2, 3, 4, NEXT_BINDING), intent).Ready?
            && ResumeChain([HELD_BINDING, RESUMED_BINDING])
  {
    FencesAreIdentity(NEXT_BINDING, NEXT_BINDING, ToEvidence(NEXT_BINDING));
  }
}
