/** Context materialization (packages/context/src/materializer.ts): what a Session pins when it is discovered, the
    commands that change it, and the check a restore makes of it. Digests are ideal: different contents, different
    digests. */
module Materializer {
  import opened Bindings

  /** A digest is as good as what it was taken of. */
  datatype Digest =
    | OfBody(body: string)
    | OfModel(model: Model)
    | OfMetadata(metadata: Metadata)
    | OfGuidance(guidance: Payload)
    | OfCapability(purpose: string, registered: Payload)

  /** `guidanceEntryId` */
  datatype EntryId = WorkspaceEntry(path: string) | SkillEntry(name: string)

  datatype Entry = Entry(id: EntryId, title: string, content: string, updatedAt: string, version: int)

  /** `Instructions.State`, and the payload of its snapshot. */
  datatype Payload = Payload(scope: string, entries: seq<Entry>)

  datatype Snapshot = Snapshot(id: Digest, payload: Payload)

  datatype Registration = Registration(id: Digest, capability: Digest, payload: Payload)

  datatype Json = Scalar(text: string) | Items(items: seq<Json>) | Fields(fields: seq<Field>)

  datatype Field = Field(key: string, value: Json)

  /** `options` are the model's settings that may hold anything. */
  datatype Model = Model(selection: string, settings: string, credentialRefs: seq<string>, options: Json)

  datatype Metadata = Metadata(name: string, description: string, modelInvocable: bool)

  datatype Activated = Activated(name: string, metadataIdentity: Digest, bodyIdentity: Digest, capturedAt: string)

  datatype Materialization = Materialization(
    sessionId: string,
    guidanceScope: string,
    workspace: Binding,
    guidance: Snapshot,
    registration: Registration,
    skills: seq<Metadata>,
    activatedSkills: seq<Activated>,
    model: Model,
    modelPin: Digest,
    tools: seq<string>,
    settingsRevision: int)

  datatype Command =
    | RebindWorkspace(expected: Binding, workspace: Binding)
    | ActivateSkill(name: string, body: string, bodyIdentity: Digest, capturedAt: string)
    | ChangeSettings(expectedRevision: int, model: Model, modelPin: Digest)

  // ----- the library -----

  const PURPOSE := "rika/context-v2"

  function MakeSnapshot(payload: Payload): Snapshot { Snapshot(OfGuidance(payload), payload) }

  function MakeRegistration(payload: Payload): Registration {
    Registration(OfGuidance(payload), OfCapability(PURPOSE, payload), payload)
  }

  /** `Instructions.Snapshot.decode` accepts a payload under its own id only. */
  function DecodeSnapshot(id: Digest, payload: Payload): Option<Payload> {
    if id == OfGuidance(payload) then Some(payload) else None
  }

  function FindSkill(skills: seq<Metadata>, name: string): (r: Option<Metadata>)
    ensures r.Some? ==> r.value in skills && r.value.name == name
    ensures r.None? ==> forall i :: 0 <= i < |skills| ==> skills[i].name != name
  {
    if skills == [] then None
    else if skills[0].name == name then Some(skills[0])
    else
      var r := FindSkill(skills[1..], name);
      assert forall i :: 0 < i < |skills| ==> skills[i] == skills[1..][i - 1];
      r
  }

  function FindEntry(entries: seq<Entry>, id: EntryId): (r: Option<Entry>)
    ensures r.Some? ==> r.value in entries && r.value.id == id
    ensures r.None? ==> forall i :: 0 <= i < |entries| ==> entries[i].id != id
  {
    if entries == [] then None
    else if entries[0].id == id then Some(entries[0])
    else
      var r := FindEntry(entries[1..], id);
      assert forall i :: 0 < i < |entries| ==> entries[i] == entries[1..][i - 1];
      r
  }

  // ----- credential values -----

  const SECRET_WORDS := ["secret", "token", "password", "apikey", "api-key", "api_key", "privatekey", "private-key",
                         "private_key", "authorization", "accesskey", "access-key", "access_key"]

  function Lowered(text: string): string {
    seq(|text|, i requires 0 <= i < |text| => if 'A' <= text[i] <= 'Z' then text[i] + 32 as char else text[i])
  }

  predicate Occurs(word: string, text: string) {
    exists i :: 0 <= i <= |text| && word <= text[i..]
  }

  /** `nonSecretKey` tests for these words, in any case, anywhere in the key. */
  predicate SecretKey(key: string) {
    key != "credentialRefs" && exists w :: w in SECRET_WORDS && Occurs(w, Lowered(key))
  }

  /** `containsCredentialValue` */
  predicate HoldsCredential(value: Json) {
    match value
    case Scalar(_) => false
    case Items(items) => exists i :: 0 <= i < |items| && HoldsCredential(items[i])
    case Fields(fields) => exists i :: 0 <= i < |fields| && HasCredential(fields[i])
  }

  predicate HasCredential(field: Field) {
    SecretKey(field.key) || HoldsCredential(field.value)
  }

  /** The key that a path of positions leads to. */
  function KeyAt(value: Json, path: seq<nat>): Option<string> {
    if path == [] then None
    else
      match value
      case Scalar(_) => None
      case Items(items) => if path[0] < |items| then KeyAt(items[path[0]], path[1..]) else None
      case Fields(fields) =>
        if path[0] >= |fields| then None
        else if |path| == 1 then Some(fields[path[0]].key)
        else KeyAt(fields[path[0]].value, path[1..])
  }

  predicate SecretAt(value: Json, path: seq<nat>) {
    KeyAt(value, path).Some? && SecretKey(KeyAt(value, path).value)
  }

  lemma {:induction false} CredentialHasPath(value: Json) returns (path: seq<nat>)
    requires HoldsCredential(value)
    ensures SecretAt(value, path)
  {
    hide SecretKey;
    match value
    case Scalar(_) => assert false;
    case Items(items) =>
      var i :| 0 <= i < |items| && HoldsCredential(items[i]);
      var rest := CredentialHasPath(items[i]);
      path := [i] + rest;
    case Fields(fields) =>
      var i :| 0 <= i < |fields| && HasCredential(fields[i]);
      if SecretKey(fields[i].key) { path := [i]; }
      else {
        var rest := CredentialHasPath(fields[i].value);
        path := [i] + rest;
      }
  }

  lemma {:induction false} PathFindsCredential(value: Json, path: seq<nat>)
    requires SecretAt(value, path)
    ensures HoldsCredential(value)
  {
    hide SecretKey;
    match value
    case Scalar(_) => assert false;
    case Items(items) => PathFindsCredential(items[path[0]], path[1..]);
    case Fields(fields) =>
      if |path| > 1 { PathFindsCredential(fields[path[0]].value, path[1..]); }
      assert HasCredential(fields[path[0]]);
  }

  /** The check refuses a value exactly when some key in it, at whatever depth, is a secret's. */
  lemma CredentialCheckExactly(value: Json)
    ensures HoldsCredential(value) <==> exists path :: SecretAt(value, path)
  {
    if HoldsCredential(value) { var path := CredentialHasPath(value); }
    if path :| SecretAt(value, path) { PathFindsCredential(value, path); }
  }

  // ----- transitions -----

  /** The entries with the body of one skill in place of what its entry said before. */
  function Rewritten(entries: seq<Entry>, name: string, body: string, capturedAt: string): (r: seq<Entry>)
    ensures |r| == |entries|
    ensures forall i :: 0 <= i < |entries| ==>
      r[i].id == entries[i].id && (entries[i].id != SkillEntry(name) ==> r[i] == entries[i])
      && (entries[i].id == SkillEntry(name) ==> r[i].content == body && r[i].version == entries[i].version + 1)
  {
    seq(|entries|, i requires 0 <= i < |entries| =>
      if entries[i].id == SkillEntry(name)
      then entries[i].(content := body, updatedAt := capturedAt, version := entries[i].version + 1)
      else entries[i])
  }

  function Others(activated: seq<Activated>, name: string): (r: seq<Activated>)
    ensures forall a :: a in r <==> a in activated && a.name != name
  {
    if activated == [] then []
    else
      assert activated == [activated[0]] + activated[1..];
      (if activated[0].name == name then [] else [activated[0]]) + Others(activated[1..], name)
  }

  function Activate(m: Materialization, skill: Metadata, body: string, capturedAt: string): Materialization {
    var payload := Payload(m.guidanceScope, Rewritten(m.guidance.payload.entries, skill.name, body, capturedAt));
    m.(guidance := MakeSnapshot(payload),
       registration := MakeRegistration(payload),
       activatedSkills := Others(m.activatedSkills, skill.name)
                          + [Activated(skill.name, OfMetadata(skill), OfBody(body), capturedAt)])
  }

  /** `componentTransition`; none is a thrown error. */
  function Transition(m: Materialization, command: Command): Option<Materialization> {
    match command
    case RebindWorkspace(expected, workspace) =>
      if SameBinding(m.workspace, expected) && SameWorkspacePolicy(m.workspace, workspace)
         && workspace.generation > m.workspace.generation
      then Some(m.(workspace := workspace)) else None
    case ActivateSkill(name, body, bodyIdentity, capturedAt) =>
      var skill := FindSkill(m.skills, name);
      if skill.None? || !skill.value.modelInvocable || bodyIdentity != OfBody(body) then None
      else Some(Activate(m, skill.value, body, capturedAt))
    case ChangeSettings(expectedRevision, model, pin) =>
      if expectedRevision != m.settingsRevision || HoldsCredential(model.options) || OfModel(model) != pin then None
      else Some(m.(model := model, modelPin := pin, settingsRevision := m.settingsRevision + 1))
  }

  /** `activateWithReader`: `bodies` are the skills the workspace has now, with what reading each one gives. */
  function ActivateWithReader(m: Materialization, name: string, bodies: map<string, Option<string>>, capturedAt: string)
    : Option<Materialization>
  {
    var skill := FindSkill(m.skills, name);
    if skill.None? || !skill.value.modelInvocable || name !in bodies || bodies[name].None? then None
    else
      var body := bodies[name].value;
      var record := Activated(name, OfMetadata(skill.value), OfBody(body), capturedAt);
      var payload := Payload(m.guidanceScope, Rewritten(m.guidance.payload.entries, name, body, capturedAt));
      Some(m.(guidance := MakeSnapshot(payload), registration := MakeRegistration(payload),
              activatedSkills := Others(m.activatedSkills, name) + [record]))
  }

  /** A command refused leaves the Session as it was. */
  function After(m: Materialization, command: Command): Materialization {
    var next := Transition(m, command);
    if next.Some? then next.value else m
  }

  function Run(m: Materialization, commands: seq<Command>): Materialization {
    if commands == [] then m else After(Run(m, commands[..|commands| - 1]), commands[|commands| - 1])
  }

  // ----- discovery -----

  datatype File = File(path: string, content: string)

  predicate UniquePaths(files: seq<File>) {
    forall i, j :: 0 <= i < j < |files| ==> files[i].path != files[j].path
  }

  predicate UniqueNames(skills: seq<Metadata>) {
    forall i, j :: 0 <= i < j < |skills| ==> skills[i].name != skills[j].name
  }

  function FileEntries(files: seq<File>, capturedAt: string): seq<Entry> {
    seq(|files|, i requires 0 <= i < |files| =>
      Entry(WorkspaceEntry(files[i].path), files[i].path, files[i].content, capturedAt, 1))
  }

  function SkillEntries(skills: seq<Metadata>, capturedAt: string): seq<Entry> {
    seq(|skills|, i requires 0 <= i < |skills| =>
      Entry(SkillEntry(skills[i].name), skills[i].name, skills[i].description, capturedAt, 1))
  }

  datatype Limits = Limits(maxSkills: int, maxDescriptionChars: int)

  function Max(a: int, b: int): int { if a < b then b else a }

  function Truncate(value: string, max: nat): string
    requires max > 0
  {
    if |value| <= max then value else value[..max - 1] + "\U{2026}"
  }

  /** The first listings, with descriptions cut to size. */
  function Selected(listed: seq<Metadata>, limits: Limits): (r: seq<Metadata>) {
    var kept := if |listed| <= Max(0, limits.maxSkills) then listed else listed[..Max(0, limits.maxSkills)];
    seq(|kept|, i requires 0 <= i < |kept| =>
      kept[i].(description := Truncate(kept[i].description, Max(1, limits.maxDescriptionChars))))
  }

  predicate ScopeChar(c: char) {
    'A' <= c <= 'Z' || 'a' <= c <= 'z' || '0' <= c <= '9' || c in "._:-"
  }

  function CanonicalScope(scope: string): string {
    var plain := seq(|scope|, i requires 0 <= i < |scope| => if ScopeChar(scope[i]) then scope[i] else '-');
    if plain == "" then "rika-context" else if |plain| <= 512 then plain else plain[..512]
  }

  /** `discoverWithReader`, from the files read and the skills that `selectListings` kept. */
  function Discover(sessionId: string, scope: string, binding: Binding, files: seq<File>, listed: seq<Metadata>,
                    limits: Limits, model: Model, tools: seq<string>, capturedAt: string): Option<Materialization>
  {
    var skills := Selected(listed, limits);
    if HoldsCredential(model.options) || !UniqueNames(skills) || !UniquePaths(files) then None
    else Some(Discovered(sessionId, CanonicalScope(scope), binding, files, skills, model, tools, capturedAt))
  }

  function Discovered(sessionId: string, scope: string, binding: Binding, files: seq<File>, skills: seq<Metadata>,
                      model: Model, tools: seq<string>, capturedAt: string): Materialization
  {
    var payload := Payload(scope, FileEntries(files, capturedAt) + SkillEntries(skills, capturedAt));
    Materialization(sessionId, scope, binding, MakeSnapshot(payload), MakeRegistration(payload), skills, [], model,
                    OfModel(model), tools, 0)
  }

  // ----- restore -----

  predicate BodyPinned(payload: Payload, activated: Activated) {
    var entry := FindEntry(payload.entries, SkillEntry(activated.name));
    entry.Some? && OfBody(entry.value.content) == activated.bodyIdentity
  }

  /** `pinnedGuidance` finds the guidance that the registration stands for. */
  predicate GuidancePinned(m: Materialization) {
    var decoded := DecodeSnapshot(m.registration.id, m.registration.payload);
    && decoded.Some?
    && decoded.value.scope == m.guidanceScope
    && m.guidance.id == m.registration.id
    && MakeSnapshot(decoded.value).id == m.guidance.id
    && OfGuidance(m.guidance.payload) == OfGuidance(m.registration.payload)
    && MakeRegistration(decoded.value).capability == m.registration.capability
    && forall i :: 0 <= i < |m.activatedSkills| ==> BodyPinned(decoded.value, m.activatedSkills[i])
  }

  /** `pinnedGuidance`, with its loop over the activated skills. */
  method PinnedGuidance(m: Materialization) returns (r: Option<Payload>)
    ensures r.Some? <==> GuidancePinned(m)
    ensures r.Some? ==> r.value == m.guidance.payload == m.registration.payload
  {
    var decoded := DecodeSnapshot(m.registration.id, m.registration.payload);
    if decoded.None? { return None; }
    if decoded.value.scope != m.guidanceScope || m.guidance.id != m.registration.id
       || MakeSnapshot(decoded.value).id != m.guidance.id
       || OfGuidance(m.guidance.payload) != OfGuidance(m.registration.payload)
    { return None; }
    if MakeRegistration(decoded.value).capability != m.registration.capability { return None; }
    for i := 0 to |m.activatedSkills|
      invariant forall j :: 0 <= j < i ==> BodyPinned(decoded.value, m.activatedSkills[j])
    {
      var entry := FindEntry(decoded.value.entries, SkillEntry(m.activatedSkills[i].name));
      if entry.None? || OfBody(entry.value.content) != m.activatedSkills[i].bodyIdentity { return None; }
    }
    return decoded;
  }

  /** `restoreWithReader` */
  predicate Restores(m: Materialization) {
    GuidancePinned(m) && OfModel(m.model) == m.modelPin
  }

  /** `composeSessionContext` also refuses a model that holds a credential value. */
  predicate Composes(m: Materialization) {
    Restores(m) && !HoldsCredential(m.model.options)
  }

  // ----- invariant -----

  ghost predicate EntriesUnique(entries: seq<Entry>) {
    forall i, j :: 0 <= i < j < |entries| ==> entries[i].id != entries[j].id
  }

  ghost predicate SkillsListed(m: Materialization) {
    forall skill :: skill in m.skills ==> exists i :: 0 <= i < |m.guidance.payload.entries|
                                                   && m.guidance.payload.entries[i].id == SkillEntry(skill.name)
  }

  ghost predicate ActivatedOnce(activated: seq<Activated>) {
    forall i, j :: 0 <= i < j < |activated| ==> activated[i].name != activated[j].name
  }

  ghost predicate ActivatedOk(m: Materialization) {
    && (forall a :: a in m.activatedSkills ==> BodyPinned(m.guidance.payload, a))
    && (ActivatedOnce(m.activatedSkills))
    && (forall a :: a in m.activatedSkills ==>
          FindSkill(m.skills, a.name).Some? && a.metadataIdentity == OfMetadata(FindSkill(m.skills, a.name).value))
  }

  ghost predicate Valid(m: Materialization) {
    && Composes(m) && EntriesUnique(m.guidance.payload.entries) && SkillsListed(m) && ActivatedOk(m)
    && m.guidance == MakeSnapshot(m.guidance.payload) && m.registration == MakeRegistration(m.guidance.payload)
    && m.guidance.payload.scope == m.guidanceScope
  }

  lemma {:induction false} FindRewritten(entries: seq<Entry>, name: string, body: string, capturedAt: string,
                                         id: EntryId)
    ensures var before, after := FindEntry(entries, id), FindEntry(Rewritten(entries, name, body, capturedAt), id);
            && (before.Some? <==> after.Some?)
            && (after.Some? && id != SkillEntry(name) ==> after == before)
            && (after.Some? && id == SkillEntry(name) ==> after.value.content == body)
  {
    if entries == [] {
    } else {
      var after := Rewritten(entries, name, body, capturedAt);
      assert after[1..] == Rewritten(entries[1..], name, body, capturedAt);
      FindRewritten(entries[1..], name, body, capturedAt, id);
    }
  }

  lemma FindsListed(entries: seq<Entry>, id: EntryId, i: nat)
    requires i < |entries| && entries[i].id == id
    ensures FindEntry(entries, id).Some?
  {
  }

  lemma SkillsAreListed(files: seq<File>, skills: seq<Metadata>, capturedAt: string, skill: Metadata)
    requires skill in skills
    ensures var entries := FileEntries(files, capturedAt) + SkillEntries(skills, capturedAt);
            exists i :: 0 <= i < |entries| && entries[i].id == SkillEntry(skill.name)
  {
    var entries := FileEntries(files, capturedAt) + SkillEntries(skills, capturedAt);
    var j :| 0 <= j < |skills| && skills[j] == skill;
    assert entries[|files| + j] == SkillEntries(skills, capturedAt)[j];
  }

  lemma DiscoveredUnique(files: seq<File>, skills: seq<Metadata>, capturedAt: string)
    requires UniqueNames(skills) && UniquePaths(files)
    ensures EntriesUnique(FileEntries(files, capturedAt) + SkillEntries(skills, capturedAt))
  {
  }

  lemma DiscoveredValid(sessionId: string, scope: string, binding: Binding, files: seq<File>, skills: seq<Metadata>,
                        model: Model, tools: seq<string>, capturedAt: string)
    requires !HoldsCredential(model.options) && UniqueNames(skills) && UniquePaths(files)
    ensures Valid(Discovered(sessionId, scope, binding, files, skills, model, tools, capturedAt))
  {
    var m := Discovered(sessionId, scope, binding, files, skills, model, tools, capturedAt);
    assert m.guidance.payload.entries == FileEntries(files, capturedAt) + SkillEntries(skills, capturedAt);
    hide HoldsCredential, UniqueNames, UniquePaths, FileEntries, SkillEntries, EntriesUnique;
    DiscoveredUnique(files, skills, capturedAt);
    forall skill | skill in skills
      ensures exists i :: 0 <= i < |m.guidance.payload.entries|
                          && m.guidance.payload.entries[i].id == SkillEntry(skill.name)
    {
      SkillsAreListed(files, skills, capturedAt, skill);
    }
  }

  /** What a discovery pins is within its limits, whatever the workspace and the caller gave. */
  ghost predicate WithinLimits(m: Materialization, limits: Limits) {
    && |m.skills| <= Max(0, limits.maxSkills)
    && (forall skill :: skill in m.skills ==> |skill.description| <= Max(1, limits.maxDescriptionChars))
    && 1 <= |m.guidanceScope| <= 512
    && (forall c :: c in m.guidanceScope ==> ScopeChar(c))
  }

  /** Only the listings that are kept can refuse a discovery: names are compared after the cut. */
  ghost predicate KeptNamesDiffer(listed: seq<Metadata>, limits: Limits) {
    forall i, j :: 0 <= i < j < |listed| && j < limits.maxSkills ==> listed[i].name != listed[j].name
  }

  lemma DiscoverValid(sessionId: string, scope: string, binding: Binding, files: seq<File>, listed: seq<Metadata>,
                      limits: Limits, model: Model, tools: seq<string>, capturedAt: string)
    ensures var m := Discover(sessionId, scope, binding, files, listed, limits, model, tools, capturedAt);
            && (m.Some? <==> (forall path :: !SecretAt(model.options, path)) && KeptNamesDiffer(listed, limits)
                             && UniquePaths(files))
            && (m.Some? ==> Valid(m.value) && WithinLimits(m.value, limits) && m.value.activatedSkills == []
                            && m.value.settingsRevision == 0 && m.value.workspace == binding)
  {
    var skills := Selected(listed, limits);
    CredentialCheckExactly(model.options);
    SelectedNames(listed, limits);
    ScopeIsCanonical(scope);
    if Discover(sessionId, scope, binding, files, listed, limits, model, tools, capturedAt).Some? {
      DiscoveredValid(sessionId, CanonicalScope(scope), binding, files, skills, model, tools, capturedAt);
    }
    hide Valid, CanonicalScope, Selected, UniqueNames, UniquePaths, KeptNamesDiffer, SecretAt, HoldsCredential, Max;
  }

  /** What a discovery pins: every guidance file with its content, every listing that was kept with its description
      cut to size, nothing else, and the model, tools and names it was given. */
  lemma DiscoverPins(sessionId: string, scope: string, binding: Binding, files: seq<File>, listed: seq<Metadata>,
                     limits: Limits, model: Model, tools: seq<string>, capturedAt: string)
    requires Discover(sessionId, scope, binding, files, listed, limits, model, tools, capturedAt).Some?
    ensures var m := Discover(sessionId, scope, binding, files, listed, limits, model, tools, capturedAt).value;
            var entries := m.guidance.payload.entries;
            && m.sessionId == sessionId && m.model == model && m.tools == tools && m.modelPin == OfModel(model)
            && |entries| == |files| + |m.skills| && m.skills == Selected(listed, limits)
            && (forall i :: 0 <= i < |files| ==>
                  entries[i] == Entry(WorkspaceEntry(files[i].path), files[i].path, files[i].content, capturedAt, 1)
                  && FindEntry(entries, WorkspaceEntry(files[i].path)) == Some(entries[i]))
            && (forall j :: 0 <= j < |m.skills| ==>
                  && m.skills[j] == listed[j].(description := m.skills[j].description)
                  && entries[|files| + j] == Entry(SkillEntry(listed[j].name), listed[j].name,
                                                   m.skills[j].description, capturedAt, 1)
                  && FindEntry(entries, SkillEntry(listed[j].name)) == Some(entries[|files| + j]))
  {
    DiscoverValid(sessionId, scope, binding, files, listed, limits, model, tools, capturedAt);
    var m := Discover(sessionId, scope, binding, files, listed, limits, model, tools, capturedAt).value;
    ValidEntries(m);
    KeptListings(listed, limits);
    hide Valid, WithinLimits, HoldsCredential, SecretAt, KeptNamesDiffer, CanonicalScope, UniqueNames, UniquePaths,
      FileEntries, SkillEntries, Selected, FindEntry;
    var files', skills' := FileEntries(files, capturedAt), SkillEntries(m.skills, capturedAt);
    assert m.guidance.payload.entries == files' + skills' && m.skills == Selected(listed, limits);
    hide Discover;
    EntriesOfBoth(files, m.skills, capturedAt);
  }

  lemma ValidEntries(m: Materialization)
    requires Valid(m)
    ensures EntriesUnique(m.guidance.payload.entries)
  {
    hide SkillsListed, ActivatedOk, Composes, EntriesUnique;
  }

  lemma KeptListings(listed: seq<Metadata>, limits: Limits)
    ensures var skills := Selected(listed, limits);
            |skills| <= |listed|
            && forall j :: 0 <= j < |skills| ==> skills[j] == listed[j].(description := skills[j].description)
  {
    hide Truncate;
  }

  lemma EntriesOfBoth(files: seq<File>, skills: seq<Metadata>, capturedAt: string)
    requires EntriesUnique(FileEntries(files, capturedAt) + SkillEntries(skills, capturedAt))
    ensures var entries := FileEntries(files, capturedAt) + SkillEntries(skills, capturedAt);
            && |entries| == |files| + |skills|
            && (forall i :: 0 <= i < |files| ==>
                  entries[i] == Entry(WorkspaceEntry(files[i].path), files[i].path, files[i].content, capturedAt, 1)
                  && FindEntry(entries, WorkspaceEntry(files[i].path)) == Some(entries[i]))
            && (forall j :: 0 <= j < |skills| ==>
                  entries[|files| + j] == Entry(SkillEntry(skills[j].name), skills[j].name, skills[j].description,
                                                capturedAt, 1)
                  && FindEntry(entries, SkillEntry(skills[j].name)) == Some(entries[|files| + j]))
  {
    var entries := FileEntries(files, capturedAt) + SkillEntries(skills, capturedAt);
    hide EntriesUnique, FindEntry;
    forall i | 0 <= i < |entries| ensures FindEntry(entries, entries[i].id) == Some(entries[i]) {
      FindsItself(entries, i);
    }
    assert forall i :: 0 <= i < |files| ==> entries[i] == FileEntries(files, capturedAt)[i];
    assert forall j :: 0 <= j < |skills| ==> entries[|files| + j] == SkillEntries(skills, capturedAt)[j];
  }

  lemma {:induction false} FindsItself(entries: seq<Entry>, i: nat)
    requires EntriesUnique(entries) && i < |entries|
    ensures FindEntry(entries, entries[i].id) == Some(entries[i])
  {
    if i == 0 {
    } else {
      assert entries[0].id != entries[i].id;
      FindsItself(entries[1..], i - 1);
    }
  }

  /** Cutting keeps what fits, and else all but the last character that would, with an ellipsis. */
  lemma TruncateExactly(value: string, max: nat)
    requires max > 0
    ensures |value| <= max ==> Truncate(value, max) == value
    ensures |value| > max ==>
              var cut := Truncate(value, max);
              |cut| == max && cut[..max - 1] == value[..max - 1] && cut[max - 1] == '\U{2026}'
  {
  }

  lemma SelectedNames(listed: seq<Metadata>, limits: Limits)
    ensures UniqueNames(Selected(listed, limits)) <==> KeptNamesDiffer(listed, limits)
    ensures |Selected(listed, limits)| <= Max(0, limits.maxSkills)
    ensures forall skill :: skill in Selected(listed, limits) ==>
              |skill.description| <= Max(1, limits.maxDescriptionChars)
  {
    var skills := Selected(listed, limits);
    assert forall i :: 0 <= i < |skills| ==> skills[i].name == listed[i].name;
    var max := Max(1, limits.maxDescriptionChars);
    forall skill | skill in skills ensures |skill.description| <= max {
      var i :| 0 <= i < |skills| && skills[i] == skill;
      assert skill.description == Truncate(listed[i].description, max);
    }
  }

  /** A canonical scope, exactly: the scope with a dash for each character that is not allowed, cut to 512, and
      `rika-context` for none. */
  lemma CanonicalExactly(scope: string)
    ensures var canonical := CanonicalScope(scope);
            && (scope == "" ==> canonical == "rika-context")
            && (scope != "" ==>
                  |canonical| == (if |scope| <= 512 then |scope| else 512)
                  && forall i :: 0 <= i < |canonical| ==>
                       canonical[i] == if ScopeChar(scope[i]) then scope[i] else '-')
  {
  }

  lemma ScopeIsCanonical(scope: string)
    ensures 1 <= |CanonicalScope(scope)| <= 512
    ensures forall c :: c in CanonicalScope(scope) ==> ScopeChar(c)
  {
  }

  lemma {:induction false} OthersUnique(activated: seq<Activated>, name: string)
    requires ActivatedOnce(activated)
    ensures ActivatedOnce(Others(activated, name))
  {
    if activated == [] {
    } else {
      OthersUnique(activated[1..], name);
      var rest := Others(activated[1..], name);
      forall j | 0 <= j < |rest| ensures rest[j].name != activated[0].name {
        assert rest[j] in rest && rest[j] in activated[1..];
        var k :| 0 <= k < |activated[1..]| && activated[1..][k] == rest[j];
        assert activated[k + 1] == rest[j];
      }
    }
  }

  lemma RewrittenListed(m: Materialization, skill: Metadata, body: string, capturedAt: string)
    requires EntriesUnique(m.guidance.payload.entries) && SkillsListed(m)
    ensures EntriesUnique(Activate(m, skill, body, capturedAt).guidance.payload.entries)
    ensures SkillsListed(Activate(m, skill, body, capturedAt))
  {
    var before := m.guidance.payload.entries;
    var next := Activate(m, skill, body, capturedAt);
    var after := next.guidance.payload.entries;
    assert after == Rewritten(before, skill.name, body, capturedAt);
    hide Rewritten, Activate;
    forall other | other in next.skills
      ensures exists i :: 0 <= i < |after| && after[i].id == SkillEntry(other.name)
    {
      assert other in m.skills by { hide *; SameSkills(m, skill, body, capturedAt); }
      var i :| 0 <= i < |before| && before[i].id == SkillEntry(other.name);
      assert after[i].id == SkillEntry(other.name);
    }
  }

  lemma SameSkills(m: Materialization, skill: Metadata, body: string, capturedAt: string)
    ensures Activate(m, skill, body, capturedAt).skills == m.skills
  {
  }

  lemma BodiesKeep(m: Materialization, skill: Metadata, body: string, capturedAt: string, a: Activated)
    requires SkillsListed(m) && skill in m.skills
    requires a == Activated(skill.name, OfMetadata(skill), OfBody(body), capturedAt)
             || (a.name != skill.name && BodyPinned(m.guidance.payload, a))
    ensures BodyPinned(Activate(m, skill, body, capturedAt).guidance.payload, a)
  {
    var entries := m.guidance.payload.entries;
    FindRewritten(entries, skill.name, body, capturedAt, SkillEntry(a.name));
    var i :| 0 <= i < |entries| && entries[i].id == SkillEntry(skill.name);
    FindsListed(entries, SkillEntry(skill.name), i);
    hide FindEntry, Rewritten;
  }

  lemma AppendedUnique(rest: seq<Activated>, last: Activated)
    requires ActivatedOnce(rest)
    requires forall a :: a in rest ==> a.name != last.name
    ensures ActivatedOnce(rest + [last])
  {
    forall k | 0 <= k < |rest| ensures rest[k].name != last.name { assert rest[k] in rest; }
  }

  lemma NamesKeep(m: Materialization, skill: Metadata, body: string, capturedAt: string)
    requires ActivatedOk(m)
    ensures var next := Activate(m, skill, body, capturedAt).activatedSkills;
            && ActivatedOnce(next)
            && (forall a :: a in next ==>
                  a == Activated(skill.name, OfMetadata(skill), OfBody(body), capturedAt)
                  || (a in m.activatedSkills && a.name != skill.name))
  {
    OthersUnique(m.activatedSkills, skill.name);
    AppendedUnique(Others(m.activatedSkills, skill.name),
                   Activated(skill.name, OfMetadata(skill), OfBody(body), capturedAt));
    hide FindSkill, BodyPinned;
  }

  lemma ActivatedKeeps(m: Materialization, skill: Metadata, body: string, capturedAt: string)
    requires Valid(m) && FindSkill(m.skills, skill.name) == Some(skill)
    ensures ActivatedOk(Activate(m, skill, body, capturedAt))
  {
    var next := Activate(m, skill, body, capturedAt);
    assert next.skills == m.skills && ActivatedOk(m) && SkillsListed(m);
    NamesKeep(m, skill, body, capturedAt);
    hide Activate, FindSkill, BodyPinned, Valid, SkillsListed;
    forall a | a in next.activatedSkills ensures BodyPinned(next.guidance.payload, a) {
      BodiesKeep(m, skill, body, capturedAt, a);
    }
  }

  lemma ActivatedAreListed(m: Materialization)
    requires ActivatedOk(m)
    ensures forall i :: 0 <= i < |m.activatedSkills| ==> BodyPinned(m.guidance.payload, m.activatedSkills[i])
  {
    hide FindSkill, BodyPinned;
  }

  lemma ActivateKeeps(m: Materialization, skill: Metadata, body: string, capturedAt: string)
    requires Valid(m) && FindSkill(m.skills, skill.name) == Some(skill)
    ensures Valid(Activate(m, skill, body, capturedAt))
  {
    var next := Activate(m, skill, body, capturedAt);
    assert next.guidance == MakeSnapshot(next.guidance.payload)
           && next.registration == MakeRegistration(next.guidance.payload)
        && next.guidance.payload.scope == next.guidanceScope && next.model == m.model && next.modelPin == m.modelPin;
    hide EntriesUnique, SkillsListed, Rewritten, FindSkill, Others, BodyPinned, ActivatedOk, Activate;
    RewrittenListed(m, skill, body, capturedAt);
    ActivatedKeeps(m, skill, body, capturedAt);
    ActivatedAreListed(next);
  }

  lemma StepKeeps(m: Materialization, command: Command)
    requires Valid(m)
    ensures Valid(After(m, command))
  {
    if command.ActivateSkill? {
      var skill := FindSkill(m.skills, command.name);
      if skill.Some? {
        ActivateKeeps(m, skill.value, command.body, command.capturedAt);
      }
    }
    hide Activate, FindSkill, BodyPinned, EntriesUnique;
  }

  /** Restore never fails: whatever commands a discovered Session has accepted, its guidance, activated bodies and model
      are still the ones pinned, and its context can be composed. */
  lemma {:induction false} RestoreNeverFails(m: Materialization, commands: seq<Command>)
    requires Valid(m)
    ensures Valid(Run(m, commands)) && Restores(Run(m, commands)) && Composes(Run(m, commands))
  {
    if commands == [] {
    } else {
      RestoreNeverFails(m, commands[..|commands| - 1]);
      StepKeeps(Run(m, commands[..|commands| - 1]), commands[|commands| - 1]);
    }
  }

  /** Whatever commands a Session has accepted, no key at any depth of its model's options is a secret's. */
  lemma NoSecretIsPinned(m: Materialization, commands: seq<Command>, path: seq<nat>)
    requires Valid(m)
    ensures !SecretAt(Run(m, commands).model.options, path)
  {
    RestoreNeverFails(m, commands);
    CredentialCheckExactly(Run(m, commands).model.options);
  }

  // ----- what commands change -----

  function Accepted(m: Materialization, commands: seq<Command>): seq<Command> {
    if commands == [] then []
    else
      var past := commands[..|commands| - 1];
      var last := commands[|commands| - 1];
      Accepted(m, past) + (if Transition(Run(m, past), last).Some? then [last] else [])
  }

  function SettingsChanges(commands: seq<Command>): nat {
    if commands == [] then 0
    else SettingsChanges(commands[..|commands| - 1]) + (if commands[|commands| - 1].ChangeSettings? then 1 else 0)
  }

  function Rebinds(commands: seq<Command>): nat {
    if commands == [] then 0
    else Rebinds(commands[..|commands| - 1]) + (if commands[|commands| - 1].RebindWorkspace? then 1 else 0)
  }

  lemma LastOne(m: Materialization, commands: seq<Command>, command: Command)
    ensures LastModel(m.model, commands + [command])
         == (if command.ChangeSettings? then command.model else LastModel(m.model, commands))
    ensures LastWorkspace(m.workspace, commands + [command])
         == (if command.RebindWorkspace? then command.workspace else LastWorkspace(m.workspace, commands))
  {
    assert (commands + [command])[..|commands|] == commands;
  }

  lemma CountOne(commands: seq<Command>, command: Command)
    ensures SettingsChanges(commands + [command]) == SettingsChanges(commands)
            + (if command.ChangeSettings? then 1 else 0)
    ensures Rebinds(commands + [command]) == Rebinds(commands) + (if command.RebindWorkspace? then 1 else 0)
  {
    assert (commands + [command])[..|commands|] == commands;
  }

  lemma StepCounts(m: Materialization, command: Command)
    ensures var next := After(m, command);
            var accepted := Transition(m, command).Some?;
            && next.settingsRevision == m.settingsRevision + (if accepted && command.ChangeSettings? then 1 else 0)
            && (if accepted && command.RebindWorkspace? then next.workspace.generation > m.workspace.generation
                                                              && SameWorkspacePolicy(m.workspace, next.workspace)
                else next.workspace == m.workspace)
            && next.model == (if accepted && command.ChangeSettings? then command.model else m.model)
            && next.workspace == (if accepted && command.RebindWorkspace? then command.workspace else m.workspace)
            && next.skills == m.skills && next.tools == m.tools && next.sessionId == m.sessionId
            && next.guidanceScope == m.guidanceScope
  {
    hide Rewritten, FindSkill, Others;
  }

  /** The model of the last accepted settings change, and the workspace of the last accepted rebind. */
  function LastModel(first: Model, accepted: seq<Command>): Model {
    if accepted == [] then first
    else
      var last := accepted[|accepted| - 1];
      if last.ChangeSettings? then last.model else LastModel(first, accepted[..|accepted| - 1])
  }

  function LastWorkspace(first: Binding, accepted: seq<Command>): Binding {
    if accepted == [] then first
    else
      var last := accepted[|accepted| - 1];
      if last.RebindWorkspace? then last.workspace else LastWorkspace(first, accepted[..|accepted| - 1])
  }

  /** What the accepted commands have changed, and all they have changed besides guidance. */
  ghost predicate Counted(m: Materialization, after: Materialization, accepted: seq<Command>) {
    && after.settingsRevision == m.settingsRevision + SettingsChanges(accepted)
    && after.workspace.generation >= m.workspace.generation + Rebinds(accepted)
    && (after.workspace == m.workspace || SameWorkspacePolicy(m.workspace, after.workspace))
    && after.model == LastModel(m.model, accepted) && after.workspace == LastWorkspace(m.workspace, accepted)
    && after.skills == m.skills && after.tools == m.tools && after.guidanceScope == m.guidanceScope
  }

  lemma PolicyTransitive(a: Binding, b: Binding, c: Binding)
    requires a == b || SameWorkspacePolicy(a, b)
    requires SameWorkspacePolicy(b, c)
    ensures SameWorkspacePolicy(a, c)
  {
  }

  lemma CountedStep(m: Materialization, before: Materialization, accepted: seq<Command>, command: Command)
    requires Counted(m, before, accepted)
    ensures Counted(m, After(before, command),
                    if Transition(before, command).Some? then accepted + [command] else accepted)
  {
    StepCounts(before, command);
    CountOne(accepted, command);
    LastOne(m, accepted, command);
    hide Transition, After, SettingsChanges, Rebinds, SameWorkspacePolicy, LastModel, LastWorkspace;
    var after := After(before, command);
    if after.workspace != before.workspace { PolicyTransitive(m.workspace, before.workspace, after.workspace); }
  }

  /** The settings revision counts the accepted settings changes; every accepted rebind raises the generation; the
      model and workspace in force are those last accepted; the workspace policy, the skills offered and the tools
      granted never change. */
  lemma {:induction false} RevisionsCount(m: Materialization, commands: seq<Command>)
    ensures Counted(m, Run(m, commands), Accepted(m, commands))
  {
    if commands == [] {
    } else {
      var past, command := commands[..|commands| - 1], commands[|commands| - 1];
      RevisionsCount(m, past);
      var accepted := Accepted(m, past);
      assert accepted + [] == accepted;
      CountedStep(m, Run(m, past), accepted, command);
      hide Counted, Transition, After;
    }
  }

  /** Reading a skill's body and activating it is the command with that very body, and nothing else. */
  lemma ReaderActivationIsTheCommand(m: Materialization, name: string, bodies: map<string, Option<string>>,
                                     capturedAt: string)
    ensures var read := ActivateWithReader(m, name, bodies, capturedAt);
            && (name in bodies && bodies[name].Some? ==>
                  var body := bodies[name].value;
                  read == Transition(m, ActivateSkill(name, body, OfBody(body), capturedAt)))
            && (read.Some? ==> name in bodies && bodies[name].Some?)
  {
  }

  /** An activation replaces the text of its own skill and of no other entry. */
  lemma ActivationReplacesOneBody(m: Materialization, name: string, body: string, capturedAt: string, id: EntryId)
    requires Valid(m)
    ensures var next := Transition(m, ActivateSkill(name, body, OfBody(body), capturedAt));
            && (next.Some? <==> FindSkill(m.skills, name).Some? && FindSkill(m.skills, name).value.modelInvocable)
            && (next.Some? ==>
                  var before := FindEntry(m.guidance.payload.entries, id);
                  var after := FindEntry(next.value.guidance.payload.entries, id);
                  if id == SkillEntry(name) then after.Some? && after.value.content == body else after == before)
  {
    var skill := FindSkill(m.skills, name);
    if skill.Some? {
      FindRewritten(m.guidance.payload.entries, name, body, capturedAt, id);
      var i :| 0 <= i < |m.guidance.payload.entries| && m.guidance.payload.entries[i].id == SkillEntry(name);
      FindsListed(m.guidance.payload.entries, SkillEntry(name), i);
    }
  }

  /** An activation is on record once, with the body it pinned; the records of other skills stay. */
  lemma ActivationIsRecorded(m: Materialization, name: string, body: string, capturedAt: string)
    requires Valid(m)
    ensures var next := Transition(m, ActivateSkill(name, body, OfBody(body), capturedAt));
            next.Some? ==>
              && ActivatedOnce(next.value.activatedSkills)
              && (forall a :: a in next.value.activatedSkills && a.name == name ==> a.bodyIdentity == OfBody(body))
              && (exists a :: a in next.value.activatedSkills && a.name == name)
              && (forall a: Activated :: a.name != name ==>
                  (a in next.value.activatedSkills <==> a in m.activatedSkills))
  {
    var skill := FindSkill(m.skills, name);
    if skill.Some? {
      var record := Activated(name, OfMetadata(skill.value), OfBody(body), capturedAt);
      NamesKeep(m, skill.value, body, capturedAt);
      assert record in Activate(m, skill.value, body, capturedAt).activatedSkills;
      hide Rewritten, BodyPinned;
    }
  }

  /** A Session whose binding contradicts its own placement can never be rebound. */
  lemma InconsistentNeverRebinds(m: Materialization, expected: Binding, workspace: Binding)
    requires !PlacementMatchesWorkspace(m.workspace)
    ensures Transition(m, RebindWorkspace(expected, workspace)).None?
  {
  }

  // ----- children -----

  datatype Grant = Grant(tools: seq<string>, models: seq<Digest>, credentials: seq<string>)

  predicate Subset<T(==, !new)>(some: seq<T>, all: seq<T>) {
    forall v :: v in some ==> v in all
  }

  function Keep<T(==, !new)>(values: seq<T>, allowed: seq<T>): (r: seq<T>)
    ensures forall v :: v in r <==> v in values && v in allowed
  {
    if values == [] then []
    else
      assert values == [values[0]] + values[1..];
      (if values[0] in allowed then [values[0]] else []) + Keep(values[1..], allowed)
  }

  /** `effectiveAuthorization`: what remains of the Session's grants, and whether it can go on. */
  function EffectiveAuthorization(m: Materialization, authorization: Grant): (Grant, bool) {
    var credentials := Keep(m.model.credentialRefs, authorization.credentials);
    var models := if m.modelPin in authorization.models then [m.modelPin] else [];
    (Grant(Keep(m.tools, authorization.tools), models, credentials),
     models != [] && Subset(m.model.credentialRefs, credentials))
  }

  predicate Attenuates(m: Materialization, requested: Grant) {
    Subset(requested.tools, m.tools) && Subset(requested.models, [m.modelPin])
    && Subset(requested.credentials, m.model.credentialRefs)
  }

  /** `authorizeChildWithAuthorization`, check by check. */
  predicate AuthorizesChild(m: Materialization, authorization: Grant, requested: Grant) {
    var (current, canResume) := EffectiveAuthorization(m, authorization);
    && canResume
    && Attenuates(m, requested)
    && Subset(m.model.credentialRefs, requested.credentials)
    && Subset(requested.tools, current.tools)
    && Subset(requested.models, current.models)
    && Subset(requested.credentials, current.credentials)
  }

  /** A child is admitted exactly when the model and all its credentials are still authorized, and it asks for
      granted and authorized tools only, for no other model, and for just the credentials that model needs. */
  lemma ChildAuthorizedExactly(m: Materialization, authorization: Grant, requested: Grant)
    ensures AuthorizesChild(m, authorization, requested) <==>
              && m.modelPin in authorization.models && Subset(m.model.credentialRefs, authorization.credentials)
              && Subset(requested.tools, m.tools) && Subset(requested.tools, authorization.tools)
              && (forall pin :: pin in requested.models ==> pin == m.modelPin)
              && (forall c :: c in requested.credentials <==> c in m.model.credentialRefs)
  {
    var (current, canResume) := EffectiveAuthorization(m, authorization);
    hide Keep;
    assert canResume <==>
           m.modelPin in authorization.models && Subset(m.model.credentialRefs, authorization.credentials);
  }

  // ----- commands and restores, exactly -----

  /** Rebinding, exactly: to the binding now expected, consistent, under the same policy and with a higher
      generation. */
  lemma RebindsExactly(m: Materialization, expected: Binding, workspace: Binding)
    ensures var next := Transition(m, RebindWorkspace(expected, workspace));
            && (next.Some? <==>
                  && expected == m.workspace && PlacementMatchesWorkspace(m.workspace)
                  && workspace == m.workspace.(assignmentId := workspace.assignmentId,
                                               generation := workspace.generation)
                  && workspace.generation > m.workspace.generation)
            && (next.Some? ==> next.value == m.(workspace := workspace))
  {
    FencesAreIdentity(m.workspace, expected, ToEvidence(expected));
    assert PlacementEqual(m.workspace.placement, workspace.placement) <==> m.workspace.placement == workspace.placement;
    hide SameBinding;
  }

  /** A settings change, exactly: at the revision expected, for a model without a secret key anywhere, under its own
      pin. */
  lemma ChangesSettingsExactly(m: Materialization, expectedRevision: int, model: Model, pin: Digest)
    ensures var next := Transition(m, ChangeSettings(expectedRevision, model, pin));
            && (next.Some? <==>
                  && expectedRevision == m.settingsRevision && pin == OfModel(model)
                  && forall path :: !SecretAt(model.options, path))
            && (next.Some? ==>
                  next.value == m.(model := model, modelPin := pin, settingsRevision := m.settingsRevision + 1))
  {
    CredentialCheckExactly(model.options);
    hide SecretAt, HoldsCredential;
  }

  /** An activation, exactly: of a skill that is pinned and may be invoked, with the identity of the body given. */
  lemma ActivatesExactly(m: Materialization, name: string, body: string, bodyIdentity: Digest, capturedAt: string)
    ensures Transition(m, ActivateSkill(name, body, bodyIdentity, capturedAt)).Some? <==>
              FindSkill(m.skills, name).Some? && FindSkill(m.skills, name).value.modelInvocable
              && bodyIdentity == OfBody(body)
  {
  }

  /** Restoring, exactly: it succeeds if and only if guidance and registration stand for one and the same payload,
      of the Session's scope, in which every activated skill has the body it was activated with, and the model is
      the one pinned. Any other change is found out. */
  lemma RestoresExactly(m: Materialization)
    ensures Restores(m) <==>
              && m.guidance == MakeSnapshot(m.guidance.payload)
                 && m.registration == MakeRegistration(m.guidance.payload)
              && m.guidance.payload.scope == m.guidanceScope && m.modelPin == OfModel(m.model)
              && forall activated :: activated in m.activatedSkills ==>
                   exists entry :: FindEntry(m.guidance.payload.entries, SkillEntry(activated.name)) == Some(entry)
                                   && activated.bodyIdentity == OfBody(entry.content)
  {
    var payload := m.guidance.payload;
    forall activated ensures BodyPinned(payload, activated) <==>
      exists entry :: FindEntry(payload.entries, SkillEntry(activated.name)) == Some(entry)
                      && activated.bodyIdentity == OfBody(entry.content)
    {
      var found := FindEntry(payload.entries, SkillEntry(activated.name));
      if found.Some? { assert found == Some(found.value); }
    }
    assert (forall activated :: activated in m.activatedSkills ==> BodyPinned(payload, activated))
        <==> forall i :: 0 <= i < |m.activatedSkills| ==> BodyPinned(payload, m.activatedSkills[i]);
    hide BodyPinned, FindEntry;
  }
}
