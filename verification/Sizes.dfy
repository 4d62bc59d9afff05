/** What the byte bounds of the protocol measure: intents, handshakes and evidence as JSON
    (packages/execution/src/binding.ts, executor.ts and operation.ts). The payload of an outcome is itself the text of a
    JSON value. */
module Sizes {
  import opened Bindings
  import opened ExecutorContract
  import opened Json

  function PlacementText(placement: Placement): string {
    match placement
    case Runner(checkoutFingerprint, workspaceId) =>
      Object([Member("_tag", Quote("Runner")), Member("checkoutFingerprint", Quote(checkoutFingerprint)),
              Member("workspaceId", Quote(workspaceId))])
    case Orb(workspaceId, lineageId) =>
      Object([Member("_tag", Quote("Orb")), Member("workspaceId", Quote(workspaceId)),
              Member("lineageId", Quote(lineageId))])
  }

  function Assignment(b: Evidence): seq<Member> {
    [Member("workspaceId", Quote(b.workspaceId)), Member("assignmentId", Quote(b.assignmentId)),
     Member("generation", Number(b.generation))]
  }

  function Build(b: Evidence): seq<Member> {
    [Member("buildId", Quote(b.buildId)), Member("protocolVersion", Number(b.protocolVersion))]
  }

  function BindingText(b: Evidence): string {
    Object(Assignment(b) + [Member("placement", PlacementText(b.placement))] + Build(b))
  }

  function OutcomeText(outcome: Outcome): string {
    match outcome
    case Accepted => Object([Member("_tag", Quote("Accepted"))])
    case Completed(result) => Object([Member("_tag", Quote("Completed")), Member("result", result)])
    case DomainFailure(failure) => Object([Member("_tag", Quote("DomainFailure")), Member("failure", failure)])
    case Unknown(reason) => Object([Member("_tag", Quote("Unknown")), Member("reason", Quote(reason))])
  }

  function SourceText(source: Source): string {
    Quote(if source == DispatchSource then "dispatch" else "reconnect-cache")
  }

  function Envelope(evidence: ExecutorEvidence): seq<Member> {
    [Member("operationId", Quote(evidence.operationId)), Member("inputDigest", Quote(evidence.inputDigest)),
     Member("binding", BindingText(evidence.binding)), Member("source", SourceText(evidence.source))]
  }

  function EvidenceText(evidence: ExecutorEvidence): string {
    Object(Envelope(evidence) + [Member("outcome", OutcomeText(evidence.outcome))])
  }

  function EvidenceBytes(evidence: ExecutorEvidence): nat { Bytes(EvidenceText(evidence)) }

  function BindingMember(binding: Binding): Member { Member("binding", BindingText(ToEvidence(binding))) }

  function IntentMembers(intent: Intent): seq<Member> {
    [Member("operationId", Quote(intent.operationId)), Member("tool", Quote(intent.tool)),
     Member("inputDigest", Quote(intent.inputDigest))]
  }

  function IntentBytes(intent: Intent): nat {
    Bytes(Object(IntentMembers(intent) + [BindingMember(intent.binding)]))
  }

  function HandshakeBytes(binding: Binding): nat { Bytes(Object([BindingMember(binding)])) }

  // ----- what the schemas bound -----

  /** `isMaxLength` counts UTF-16 units, of which a character takes one or two. */
  predicate Identifier(text: string) { 1 <= |text| <= 256 }

  predicate PlacementSchema(placement: Placement) {
    match placement
    case Runner(checkoutFingerprint, workspaceId) => Identifier(checkoutFingerprint) && Identifier(workspaceId)
    case Orb(workspaceId, lineageId) => Identifier(workspaceId) && Identifier(lineageId)
  }

  predicate BindingSchema(b: Evidence) {
    && Identifier(b.workspaceId) && Identifier(b.assignmentId) && Identifier(b.buildId) && PlacementSchema(b.placement)
    && 1 <= b.generation <= MAX_SAFE && 1 <= b.protocolVersion <= 1024
  }

  predicate IntentSchema(intent: Intent) {
    && Identifier(intent.operationId) && Identifier(intent.inputDigest) && 1 <= |intent.tool| <= 128
    && BindingSchema(ToEvidence(intent.binding))
  }

  lemma IdentifierBytes(text: string)
    requires Identifier(text)
    ensures Bytes(Quote(text)) <= 1538
  {
    QuoteBytes(text);
  }

  lemma PlacementBytes(placement: Placement)
    requires PlacementSchema(placement)
    ensures Bytes(PlacementText(placement)) <= 5100
  {
    match placement
    case Runner(fingerprint, workspaceId) =>
      IdentifierBytes(fingerprint);
      IdentifierBytes(workspaceId);
      QuoteBytes("Runner");
      TaggedBytes("Runner", "checkoutFingerprint", fingerprint, "workspaceId", workspaceId);
    case Orb(workspaceId, lineageId) =>
      IdentifierBytes(workspaceId);
      IdentifierBytes(lineageId);
      QuoteBytes("Orb");
      TaggedBytes("Orb", "workspaceId", workspaceId, "lineageId", lineageId);
  }

  lemma TaggedBytes(tag: string, key1: string, value1: string, key2: string, value2: string)
    requires |tag| <= 20 && |key1| <= 20 && |key2| <= 20
    requires Bytes(Quote(value1)) <= 1538 && Bytes(Quote(value2)) <= 1538
    ensures Bytes(Object([Member("_tag", Quote(tag)), Member(key1, Quote(value1)),
                          Member(key2, Quote(value2))])) <= 5100
  {
    QuoteBytes(tag);
    hide Bytes, Quote, Object, MemberBytes;
    var members := [Member("_tag", Quote(tag)), Member(key1, Quote(value1)), Member(key2, Quote(value2))];
    ObjectBytes(members);
    MemberBytesAtMost(members, 1662);
  }

  /** The texts of a binding that meets the schema are short. */
  ghost predicate Short(b: Evidence) {
    && Bytes(Quote(b.workspaceId)) <= 1538 && Bytes(Quote(b.assignmentId)) <= 1538 && Bytes(Number(b.generation)) <= 64
    && Bytes(Quote(b.buildId)) <= 1538 && Bytes(Number(b.protocolVersion)) <= 64
    && Bytes(PlacementText(b.placement)) <= 5100
  }

  lemma SchemaIsShort(b: Evidence)
    requires BindingSchema(b)
    ensures Short(b)
  {
    hide Bytes, Quote, Number, PlacementSchema, PlacementText, Identifier;
    PlacementBytes(b.placement);
    IdentifierBytes(b.workspaceId);
    IdentifierBytes(b.assignmentId);
    IdentifierBytes(b.buildId);
    NumberBytes(b.generation);
    NumberBytes(b.protocolVersion);
  }

  lemma AssignmentBytes(b: Evidence)
    requires Short(b)
    ensures MemberBytes(Assignment(b)) <= 4986
  {
    hide Bytes, Quote, Number, MemberBytes, PlacementText;
    MemberBytesAtMost(Assignment(b), 1662);
  }

  lemma BuildBytes(b: Evidence)
    requires Short(b)
    ensures MemberBytes(Build(b)) <= 3324
  {
    hide Bytes, Quote, Number, MemberBytes, PlacementText;
    MemberBytesAtMost(Build(b), 1662);
  }

  lemma BindingBytes(b: Evidence)
    requires BindingSchema(b)
    ensures Bytes(BindingText(b)) <= 15000
  {
    hide Bytes, Quote, Number, MemberBytes, PlacementText, Object, Assignment, Build, BindingSchema;
    SchemaIsShort(b);
    AssignmentBytes(b);
    BuildBytes(b);
    hide Short;
    var placement := [Member("placement", PlacementText(b.placement))];
    PlacementMemberBytes(b);
    ObjectBytes(Assignment(b) + placement + Build(b));
    MemberBytesAppend(Assignment(b) + placement, Build(b));
    MemberBytesAppend(Assignment(b), placement);
  }

  lemma PlacementMemberBytes(b: Evidence)
    requires BindingSchema(b)
    ensures MemberBytes([Member("placement", PlacementText(b.placement))]) <= 5224
  {
    hide Bytes, Quote, Number, MemberBytes, PlacementText, BindingSchema;
    SchemaIsShort(b);
    MemberBytesAtMost([Member("placement", PlacementText(b.placement))], 5224);
  }

  lemma BindingMemberBytes(binding: Binding)
    requires BindingSchema(ToEvidence(binding))
    ensures MemberBytes([BindingMember(binding)]) <= 15046
  {
    hide Bytes, MemberBytes, BindingText, BindingSchema;
    BindingBytes(ToEvidence(binding));
    MemberBytesAtMost([BindingMember(binding)], 15046);
  }

  /** A binding of the schema always fits a handshake. */
  lemma HandshakeFits(binding: Binding)
    requires BindingSchema(ToEvidence(binding))
    ensures HandshakeBytes(binding) <= MAX_HANDSHAKE_BYTES
  {
    hide Bytes, MemberBytes, Object, BindingMember, BindingSchema;
    BindingMemberBytes(binding);
    ObjectBytes([BindingMember(binding)]);
  }

  /** An intent of the schema always fits a dispatch. */
  lemma IntentFits(intent: Intent)
    requires IntentSchema(intent)
    ensures IntentBytes(intent) <= MAX_DISPATCH_BYTES
  {
    hide Bytes, MemberBytes, Object, BindingMember, IntentMembers, BindingSchema, Identifier;
    BindingMemberBytes(intent.binding);
    IntentMemberBytes(intent);
    ObjectBytes(IntentMembers(intent) + [BindingMember(intent.binding)]);
    MemberBytesAppend(IntentMembers(intent), [BindingMember(intent.binding)]);
  }

  lemma IntentMemberBytes(intent: Intent)
    requires IntentSchema(intent)
    ensures MemberBytes(IntentMembers(intent)) <= 4986
  {
    hide Bytes, Quote, MemberBytes, BindingSchema, Identifier;
    IdentifierBytes(intent.operationId);
    IdentifierBytes(intent.inputDigest);
    QuoteBytes(intent.tool);
    MemberBytesAtMost(IntentMembers(intent), 1662);
  }

  // ----- evidence -----

  lemma SourceBytes(source: Source)
    ensures Bytes(SourceText(source)) <= 128
  {
    QuoteBytes(if source == DispatchSource then "dispatch" else "reconnect-cache");
    hide Bytes, Quote;
  }

  ghost predicate ShortEnvelope(e: ExecutorEvidence) {
    && Bytes(Quote(e.operationId)) <= 1538 && Bytes(Quote(e.inputDigest)) <= 1538
    && Bytes(BindingText(e.binding)) <= 15000 && Bytes(SourceText(e.source)) <= 128
  }

  lemma EnvelopeIsShort(intent: Intent, e: ExecutorEvidence)
    requires IntentSchema(intent)
    requires e == EvidenceFor(intent, e.outcome).(source := e.source)
    ensures ShortEnvelope(e)
  {
    hide Bytes, Quote, BindingText, BindingSchema, Identifier, SourceText;
    IdentifierBytes(intent.operationId);
    IdentifierBytes(intent.inputDigest);
    BindingBytes(e.binding);
    SourceBytes(e.source);
  }

  lemma EnvelopeBytes(e: ExecutorEvidence)
    requires ShortEnvelope(e)
    ensures MemberBytes(Envelope(e)) <= 60280
  {
    hide Bytes, Quote, MemberBytes, BindingText, SourceText;
    MemberBytesAtMost(Envelope(e), 15070);
  }

  /** The size of evidence is that of its envelope and that of its outcome. */
  lemma EvidenceSplits(e: ExecutorEvidence)
    ensures EvidenceBytes(e) == 1 + MemberBytes(Envelope(e)) + MemberBytes([Member("outcome", OutcomeText(e.outcome))])
  {
    hide Bytes, MemberBytes, Object, Envelope, OutcomeText;
    var outcome := [Member("outcome", OutcomeText(e.outcome))];
    ObjectBytes(Envelope(e) + outcome);
    MemberBytesAppend(Envelope(e), outcome);
  }

  lemma OneMember(key: string, text: string)
    ensures MemberBytes([Member(key, text)]) == Bytes(Quote(key)) + Bytes(text) + 2
  {
    hide Bytes, Quote;
  }

  lemma TwoMembers(key1: string, text1: string, key2: string, text2: string)
    ensures Bytes(Object([Member(key1, text1), Member(key2, text2)]))
         == 5 + Bytes(Quote(key1)) + Bytes(text1) + Bytes(Quote(key2)) + Bytes(text2)
  {
    hide Bytes, Quote, Object, MemberBytes;
    var first, second := [Member(key1, text1)], [Member(key2, text2)];
    assert first + second == [Member(key1, text1), Member(key2, text2)];
    ObjectBytes(first + second);
    MemberBytesAppend(first, second);
    OneMember(key1, text1);
    OneMember(key2, text2);
  }

  /** What the evidence of a result, or of a failure, takes besides the payload. */
  function Overhead(e: ExecutorEvidence): nat { EvidenceBytes(e.(outcome := Completed(""))) }

  function FailureOverhead(e: ExecutorEvidence): nat { EvidenceBytes(e.(outcome := DomainFailure(""))) }

  lemma EmptyBytes()
    ensures Bytes("") == 0
  {
  }

  /** Evidence is exactly its payload and an overhead that does not depend on it. */
  lemma PayloadBytes(e: ExecutorEvidence, payload: string)
    ensures EvidenceBytes(e.(outcome := Completed(payload))) == Overhead(e) + Bytes(payload)
    ensures EvidenceBytes(e.(outcome := DomainFailure(payload))) == FailureOverhead(e) + Bytes(payload)
  {
    hide Bytes, Quote, EvidenceBytes, MemberBytes, Object;
    EmptyBytes();
    CompletedSplits(e, payload);
    CompletedSplits(e, "");
    FailureSplits(e, payload);
    FailureSplits(e, "");
    hide Envelope;
  }

  lemma CompletedSplits(e: ExecutorEvidence, payload: string)
    ensures EvidenceBytes(e.(outcome := Completed(payload)))
         == MemberBytes(Envelope(e)) + Bytes(Quote("outcome")) + Bytes(Quote("_tag")) + Bytes(Quote("Completed"))
            + Bytes(Quote("result")) + Bytes(payload) + 8
  {
    hide Bytes, Quote, EvidenceBytes, MemberBytes, Object;
    var done := e.(outcome := Completed(payload));
    EvidenceSplits(done);
    OneMember("outcome", OutcomeText(done.outcome));
    TwoMembers("_tag", Quote("Completed"), "result", payload);
    assert Envelope(done) == Envelope(e) by { hide BindingText, SourceText; }
  }

  lemma FailureSplits(e: ExecutorEvidence, payload: string)
    ensures EvidenceBytes(e.(outcome := DomainFailure(payload)))
         == MemberBytes(Envelope(e)) + Bytes(Quote("outcome")) + Bytes(Quote("_tag")) + Bytes(Quote("DomainFailure"))
            + Bytes(Quote("failure")) + Bytes(payload) + 8
  {
    hide Bytes, Quote, EvidenceBytes, MemberBytes, Object;
    var failed := e.(outcome := DomainFailure(payload));
    EvidenceSplits(failed);
    OneMember("outcome", OutcomeText(failed.outcome));
    TwoMembers("_tag", Quote("DomainFailure"), "failure", payload);
    assert Envelope(failed) == Envelope(e) by { hide BindingText, SourceText; }
  }

  /** The overhead is never nothing, and under the schemas less than half of the receipt bound. */
  lemma OverheadBounds(intent: Intent, e: ExecutorEvidence)
    requires IntentSchema(intent)
    requires e == EvidenceFor(intent, e.outcome).(source := e.source)
    ensures 16 <= Overhead(e) <= 61000 && 16 <= FailureOverhead(e) <= 61000
  {
    hide Bytes, Quote, EvidenceBytes, MemberBytes, Object;
    EnvelopeIsShort(intent, e);
    EnvelopeBytes(e);
    EmptyBytes();
    CompletedSplits(e, "");
    FailureSplits(e, "");
    KeyBytes("outcome");
    KeyBytes("_tag");
    KeyBytes("Completed");
    KeyBytes("result");
    KeyBytes("DomainFailure");
    KeyBytes("failure");
    hide Envelope;
  }

  lemma KeyBytes(key: string)
    requires 1 <= |key| <= 20
    ensures 2 <= Bytes(Quote(key)) <= 122
  {
    hide Bytes, Escaped;
    QuoteBytes(key);
  }
}
