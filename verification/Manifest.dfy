/**
The unsigned manifest of a policy bundle: everything a signature covers, as one JSON value
that depends only on the bundle.
*/
module Manifest {
  import opened Text
  import opened Json
  import opened Options

  /** What the process provides: the hash, the signing key pair, and fixed configuration. */
  datatype Env = Env(
    sha256: Text -> Text,
    sign: Text -> Text,
    verify: (Text, Text, Text) -> bool,
    publicKeyPem: Text,
    publicKeyRaw: Text,
    keyId: Text,
    retired: seq<RetiredKey>,
    cloudVersion: Text,
    publicUrl: Text)

  /** A previous signing key inside its rotation overlap. Its id is computed unlike the current key's. */
  datatype RetiredKey = RetiredKey(keyid: Text, raw: Text)

  /** Absent strings are empty texts: the source reads every one of them through `||`. */
  datatype Approval = Approval(
    id: Text, tenantId: Text, status: Text, approvedBy: Text, approvedAt: Text, source: Text, reason: Text)

  const NO_PATCH := Approval([], [], [], [], [], [], [])

  /** The fields of a bundle that signing never writes. */
  datatype Content = Content(
    id: Text, revision: Text, createdAt: Text, approvedAt: Text, approvalId: Text, controlLevel: Text,
    complianceBundleId: Text, draftId: Text, policies: seq<Json>, artifacts: seq<Json>,
    hotReload: Option<bool>, data: Option<Json>, testFixtures: nat)

  /** A detached signature with its evidence. */
  datatype SigRecord = SigRecord(
    id: Text, tenantId: Text, bundleId: Text, revision: Text, generation: Option<int>, alg: Text,
    keyid: Text, keyId: Text, sig: Text, legacySig: Text, payloadHash: Text,
    publicKeyPem: Text, publicKeyRaw: Text, signedBy: Text, signedAt: Text,
    approvalId: Text, approvalSource: Text, verificationStatus: Text)

  /** The part of a bundle that its manifest is built from. */
  datatype Core = Core(content: Content, tenantId: Text, approval: Option<Approval>, generation: Option<int>)

  /** A bundle document. `signatures` is None when the bundle has no such array. */
  datatype Bundle = Bundle(
    core: Core, signed: bool, signatureStatus: Text, manifestHash: Text,
    signature: Option<SigRecord>, signatures: Option<seq<SigRecord>>)

  function TenantId(b: Core): Text {
    Or(b.tenantId, Or(if b.approval.Some? then b.approval.value.tenantId else [], L("local")))
  }

  function BundleId(b: Core): Text { Or(b.content.id, L("bnd_local_dev_baseline")) }
  function Revision(b: Core): Text { Or(b.content.revision, L("2026.06.29.001")) }
  function CreatedAt(b: Core): Text { Or(b.content.createdAt, L("2026-06-29T00:00:00.000Z")) }

  /** The generation the manifest states: a missing or negative one counts as zero. */
  function StatedGeneration(b: Core): nat {
    if b.generation.Some? && b.generation.value > 0 then b.generation.value else 0
  }

  function DataDocument(b: Core): Json {
    if b.content.data.Some? && (b.content.data.value.Obj? || b.content.data.value.Arr?) then b.content.data.value
    else Obj(map[])
  }

  /** `defaultApprovalRecordForBundle`: the patch wins, then the stored record, then defaults. */
  function DefaultApproval(b: Core, patch: Approval): Approval {
    var stored := if b.approval.Some? then b.approval.value else NO_PATCH;
    Approval(
      Or(patch.id,
        Or(stored.id, Or(b.content.approvalId, L("approval_") + Or(b.content.id, L("bundle")) + L("_local_dev")))),
      Or(patch.tenantId, TenantId(b)),
      Or(patch.status, Or(stored.status, L("approved"))),
      Or(patch.approvedBy, Or(stored.approvedBy, L("local-dev-security-admin"))),
      Or(patch.approvedAt, Or(b.content.approvedAt, CreatedAt(b))),
      Or(patch.source, Or(stored.source,
        if b.content.complianceBundleId != [] then L("enterprise_compliance_bundle")
        else if b.content.draftId != [] then L("policy_draft_approval")
        else L("seed_policy_bundle"))),
      Or(patch.reason, Or(stored.reason,
        L("Approved for local-dev signed bundle protocol compatibility testing."))))
  }

  function Hash(env: Env, v: Json): Text {
    (env.sha256)(StableJson(v))
  }

  function S(s: string): Json { Str(L(s)) }

  /* ---- evidence ---- */

  function BundleUri(b: Core): Text { L("pollek-bundle://") + BundleId(b) }
  function Builder(env: Env): Text { L("https://pollek.cloud/builders/contract-hub@") + env.cloudVersion }

  function ProvenanceFields(env: Env, b: Core): seq<(string, Json)> {
    [("schema_version", S("pollek.trust.bundle-provenance.v1")),
     ("slsa_level", Nat(2)),
     ("build_type", S("https://pollek.cloud/buildtypes/policy-bundle@v1")),
     ("builder", Object([
       ("id", Str(Builder(env))),
       ("version", Object([("cloud", Str(env.cloudVersion))]))])),
     ("invocation", Invocation(env, b)),
     ("materials", Arr([
       Material(env, BundleUri(b) + L("/policies"), Arr(b.content.policies)),
       Material(env, BundleUri(b) + L("/artifacts"), Arr(b.content.artifacts)),
       Material(env, BundleUri(b) + L("/data.json"), DataDocument(b))])),
     ("metadata", Object([
       ("build_finished_on", Str(CreatedAt(b))),
       ("reproducible", Bool(true)),
       ("completeness", Object([
         ("parameters", Bool(true)), ("environment", Bool(false)), ("materials", Bool(true))]))]))]
  }

  function Invocation(env: Env, b: Core): Json {
    Object([
      ("config_source", Object([
        ("uri", Str(BundleUri(b))),
        ("digest", Object([("sha256", Str(Hash(env, Object([
          ("id", Str(BundleId(b))), ("revision", Str(Revision(b))), ("policies", Arr(b.content.policies))]))))])),
        ("entry_point", S("signPolicyBundle"))])),
      ("parameters", Object([("revision", Str(Revision(b))), ("tenant_id", Str(TenantId(b)))])),
      ("environment", Object([("builder_kind", S("cloud-contract-hub"))]))])
  }

  function Provenance(env: Env, b: Core): Json {
    Object(ProvenanceFields(env, b))
  }

  function Material(env: Env, uri: Text, v: Json): Json {
    Object([("uri", Str(uri)), ("digest", Object([("sha256", Str(Hash(env, v)))]))])
  }

  function Member(v: Json, k: string): Option<Json> {
    if v.Obj? && L(k) in v.members then Some(v.members[L(k)]) else None
  }

  function Truthy(v: Option<Json>): bool {
    v.Some? && v.value != Null && v.value != Bool(false) && v.value != Str([]) && v.value != Num([0x30])
  }

  /** The texts of an engine field, which is one name or a list of names. */
  function Names(v: Json): seq<Text> {
    if v.Str? then [v.text] else if v.Arr? then Texts(v.items) else []
  }

  function Texts(items: seq<Json>): seq<Text> {
    if items == [] then []
    else
      var front, last := Texts(items[..|items| - 1]), items[|items| - 1];
      if last.Str? then front + [last.text] else front
  }

  function EngineNames(policies: seq<Json>): seq<Text> {
    if policies == [] then []
    else
      var front, p := EngineNames(policies[..|policies| - 1]), policies[|policies| - 1];
      if Truthy(Member(p, "engines")) then front + Names(Member(p, "engines").value)
      else if Truthy(Member(p, "engine")) then front + Names(Member(p, "engine").value)
      else front
  }

  /** A list through `new Set`: each name once, in order of first appearance. */
  function FirstOnly(names: seq<Text>): (r: seq<Text>)
    ensures Distinct(r) && forall t :: t in r <==> t in names
  {
    if names == [] then []
    else
      var front, last := FirstOnly(names[..|names| - 1]), names[|names| - 1];
      assert names == names[..|names| - 1] + [last];
      if last in front then front else front + [last]
  }

  function Engines(policies: seq<Json>): seq<Text> {
    FirstOnly(EngineNames(policies))
  }

  function MainComponent(env: Env, b: Core): Json {
    Object([
      ("type", S("application")),
      ("bom-ref", Str(L("pkg:pollek/policy-bundle/") + BundleId(b) + L("@") + Revision(b))),
      ("name", S("pollek-policy-bundle")),
      ("version", Str(Revision(b))),
      ("hashes", Arr([Object([
        ("alg", S("SHA-256")),
        ("content", Str(Hash(env, Object([
          ("policies", Arr(b.content.policies)), ("artifacts", Arr(b.content.artifacts))]))))])]))])
  }

  function EngineComponent(engine: Text): Json {
    Object([
      ("type", S("library")),
      ("bom-ref", Str(L("pkg:pollek/policy-engine/") + engine)),
      ("name", Str(L("policy-engine-") + engine)),
      ("version", S("runtime"))])
  }

  function Components(env: Env, b: Core): seq<Json> {
    var engines := Ascending(set e | e in Engines(b.content.policies));  // sorted
    [MainComponent(env, b)] + seq(|engines|, i requires 0 <= i < |engines| => EngineComponent(engines[i]))
  }

  /** `text.slice(from, to)`, which clips to the text. */
  function Slice(t: Text, from: nat, to: nat): Text
    requires from <= to
  {
    var hi := if to <= |t| then to else |t|;
    if from <= hi then t[from..hi] else []
  }

  /** The serial number of an SBOM is cut from the hash of what it lists. */
  function SerialNumber(env: Env, b: Core): Text {
    var seed := Hash(env, Object([
      ("bundleId", Str(BundleId(b))), ("revision", Str(Revision(b))), ("components", Arr(Components(env, b)))]));
    var dash := L("-");
    L("urn:uuid:") + Slice(seed, 0, 8) + dash + Slice(seed, 8, 12) + dash
      + Slice(seed, 12, 16) + dash + Slice(seed, 16, 20) + dash + Slice(seed, 20, 32)
  }

  function SbomFields(env: Env, b: Core): seq<(string, Json)> {
    [("bomFormat", S("CycloneDX")),
     ("specVersion", S("1.5")),
     ("serialNumber", Str(SerialNumber(env, b))),
     ("version", Nat(1)),
     ("metadata", Object([
       ("timestamp", Str(CreatedAt(b))),
       ("tools", Arr([Object([
         ("vendor", S("Pollek")), ("name", S("cloud-contract-hub")), ("version", Str(env.cloudVersion))])])),
       ("component", Object([
         ("type", S("application")), ("name", S("pollek-policy-bundle")), ("version", Str(Revision(b)))]))])),
     ("components", Arr(Components(env, b)))]
  }

  function Sbom(env: Env, b: Core): Json {
    Object(SbomFields(env, b))
  }

  function AttestationFields(env: Env, b: Core): seq<(string, Json)> {
    [("schema_version", S("pollek.trust.test-attestation.v1")),
     ("predicate_type", S("https://pollek.cloud/attestations/policy-tests@v1")),
     ("subject", Arr([Object([
       ("name", Str(L("pollek-policy-bundle/") + BundleId(b))),
       ("digest", Object([("sha256", Str(Hash(env, Object([
         ("id", Str(BundleId(b))), ("revision", Str(Revision(b)))]))))]))])])),
     ("predicate", Object([
       ("suite", S("policy-bundle-simulation")),
       ("result", S("passed")),
       ("tests_total", Nat(|b.content.policies| + b.content.testFixtures)),
       ("failures", Nat(0)),
       ("attested_at", Str(CreatedAt(b))),
       ("attestor", Str(Builder(env)))]))]
  }

  function Attestation(env: Env, b: Core): Json {
    Object(AttestationFields(env, b))
  }

  /* ---- the manifest ---- */

  /** Keys of a served manifest. The last four are added after signing. */
  datatype Field =
    | ManifestVersion | SchemaVersion | BundleIdField | TenantIdField | RevisionField | CreatedAtField
    | Target | Policies | Artifacts | ComplianceBundleId | HotReload | ApprovalField | SignedFields
    | Generation | Data | DataSha256 | ProvenanceField | SbomField | SbomSha256 | AttestationField | SourceHashes
    | PayloadHash | Signatures | Verification | SigningAction

  predicate Added(f: Field) {
    f in {PayloadHash, Signatures, Verification, SigningAction}
  }

  function Name(f: Field): string {
    match f
    case ManifestVersion => "manifest_version"
    case SchemaVersion => "schema_version"
    case BundleIdField => "bundle_id"
    case TenantIdField => "tenant_id"
    case RevisionField => "revision"
    case CreatedAtField => "created_at"
    case Target => "target"
    case Policies => "policies"
    case Artifacts => "artifacts"
    case ComplianceBundleId => "compliance_bundle_id"
    case HotReload => "hot_reload"
    case _ => LateName(f)
  }

  function LateName(f: Field): string {
    match f
    case ApprovalField => "approval"
    case SignedFields => "signed_fields"
    case Generation => "generation"
    case Data => "data"
    case DataSha256 => "data_sha256"
    case ProvenanceField => "provenance"
    case SbomField => "sbom"
    case SbomSha256 => "sbom_sha256"
    case AttestationField => "attestation"
    case SourceHashes => "source_hashes"
    case PayloadHash => "payload_hash"
    case Signatures => "signatures"
    case Verification => "verification"
    case _ => "signing_action"
  }

  function Key(f: Field): Text {
    L(Name(f))
  }

  function Tag(f: Field): int {
    match f
    case ManifestVersion => 1800037
    case SchemaVersion => 1898349
    case BundleIdField => 1618532
    case TenantIdField => 1913441
    case RevisionField => 1881974
    case CreatedAtField => 1636961
    case Target => 1915506
    case Policies => 1849836
    case Artifacts => 1604073
    case ComplianceBundleId => 1634913
    case HotReload => 1716831
    case ApprovalField => 1603184
    case SignedFields => 1898981
    case Generation => 1701733
    case Data => 1650913
    case DataSha256 => 1645409
    case ProvenanceField => 1848054
    case SbomField => 1898210
    case SbomSha256 => 1891181
    case AttestationField => 1603429
    case SourceHashes => 1898979
    case PayloadHash => 1848431
    case Signatures => 1898990
    case Verification => 1947494
    case SigningAction => 1898345
  }

  /** Fields that the manifest lists before the approval. */
  predicate Early(f: Field) {
    f in {ManifestVersion, SchemaVersion, BundleIdField, TenantIdField, RevisionField, CreatedAtField, Target, Policies,
      Artifacts, ComplianceBundleId, HotReload}
  }

  lemma EarlyTag(f: Field)
    requires Early(f)
    ensures Key(f) != [] && Fingerprint(Key(f)) == Tag(f)
  {
    hide LateName;
  }

  lemma LateTag(f: Field)
    requires !Early(f)
    ensures Key(f) != [] && Fingerprint(Key(f)) == Tag(f)
  {
    assert Name(f) == LateName(f);
    hide Name;
  }

  lemma KeyTag(f: Field)
    ensures Key(f) != [] && Fingerprint(Key(f)) == Tag(f)
  {
    hide Key, Tag;
    if Early(f) { EarlyTag(f); } else { LateTag(f); }
  }

  lemma TagsDistinct(f: Field, g: Field)
    requires Tag(f) == Tag(g)
    ensures f == g
  {}

  /** No two fields share a key. */
  lemma KeysDistinct(f: Field, g: Field)
    requires Key(f) == Key(g)
    ensures f == g
  {
    hide Key, Tag;
    KeyTag(f);
    KeyTag(g);
    TagsDistinct(f, g);
  }

  function ApprovalBlock(a: Approval): Json {
    Object([
      ("approval_id", Str(a.id)), ("status", Str(a.status)), ("approved_by", Str(a.approvedBy)),
      ("approved_at", Str(a.approvedAt)), ("source", Str(a.source))])
  }

  function ControlLevel(b: Core): Text { Or(b.content.controlLevel, L("Observe")) }
  function HotReloads(b: Core): bool { b.content.hotReload.None? || b.content.hotReload.value }

  function TargetFields(level: Text): seq<(string, Json)> {
    [("control_level", Str(level)),
     ("pep_capabilities", Arr([S("mcp-stdio"), S("http-proxy")])),
     ("agent_selectors", Arr([Object([("kind", S("label")), ("value", S("managed=true"))])]))]
  }

  function TargetBlock(level: Text): Json {
    Object(TargetFields(level))
  }

  /** The composite members of a manifest. */
  datatype Parts = Parts(
    target: Json, approval: Json, signedFields: Json, provenance: Json, sbom: Json, attestation: Json,
    sbomHash: Text, dataHash: Text, sourceHashes: Json)

  function PartsOf(env: Env, b: Core): Parts {
    var provenance, sbom, attestation := Provenance(env, b), Sbom(env, b), Attestation(env, b);
    var sbomHash, dataHash := Hash(env, sbom), Hash(env, DataDocument(b));
    Parts(
      TargetBlock(ControlLevel(b)),
      ApprovalBlock(DefaultApproval(b, NO_PATCH)),
      Arr([S("policy.wasm"), S("data.json")]),
      provenance, sbom, attestation, sbomHash, dataHash,
      Object(SourceHashFields(env, b, provenance, sbom, attestation)))
  }

  function SourceHashFields(env: Env, b: Core, provenance: Json, sbom: Json, attestation: Json): seq<(string, Json)> {
    [("policies_sha256", Str(Hash(env, Arr(b.content.policies)))),
     ("artifacts_sha256", Str(Hash(env, Arr(b.content.artifacts)))),
     ("data_sha256", Str(Hash(env, DataDocument(b)))),
     ("sbom_sha256", Str(Hash(env, sbom))),
     ("provenance_sha256", Str(Hash(env, provenance))),
     ("attestation_sha256", Str(Hash(env, attestation)))]
  }

  function FieldValue(b: Core, p: Parts, f: Field): Json
    requires !Added(f)
  {
    match f
    case ManifestVersion => S("1.0")
    case SchemaVersion => S("bundle-manifest.v2")
    case BundleIdField => Str(BundleId(b))
    case TenantIdField => Str(TenantId(b))
    case RevisionField => Str(Revision(b))
    case CreatedAtField => Str(CreatedAt(b))
    case Target => p.target
    case Policies => Arr(b.content.policies)
    case Artifacts => Arr(b.content.artifacts)
    case ComplianceBundleId => if b.content.complianceBundleId == [] then Null else Str(b.content.complianceBundleId)
    case HotReload => Bool(HotReloads(b))
    case ApprovalField => p.approval
    case SignedFields => p.signedFields
    case Generation => Nat(StatedGeneration(b))
    case Data => DataDocument(b)
    case DataSha256 => Str(p.dataHash)
    case ProvenanceField => p.provenance
    case SbomField => p.sbom
    case SbomSha256 => Str(p.sbomHash)
    case AttestationField => p.attestation
    case SourceHashes => p.sourceHashes
  }

  function SignedFieldSet(): (s: set<Field>)
    ensures forall f: Field :: f in s <==> !Added(f)
  {
    set f: Field | !Added(f)
  }

  /** One member for every signed field. */
  function ByField(value: Field --> Json): (m: map<Text, Json>)
    requires forall f: Field | !Added(f) :: value.requires(f)
    ensures forall f: Field | !Added(f) :: Key(f) in m && m[Key(f)] == value(f)
    ensures forall f: Field | Added(f) :: Key(f) !in m
    ensures forall k | k in m :: exists f: Field :: !Added(f) && Key(f) == k
  {
    assert forall f: Field, g: Field | Key(f) == Key(g) :: f == g by {
      forall f: Field, g: Field | Key(f) == Key(g) ensures f == g { KeysDistinct(f, g); }
    }
    map f | f in SignedFieldSet() :: Key(f) := value(f)
  }

  function ManifestWith(b: Core, p: Parts): Json {
    Obj(ByField(f requires !Added(f) => FieldValue(b, p, f)))
  }

  /** `unsignedPolicyBundleManifest`. */
  function Unsigned(env: Env, b: Core): Json {
    ManifestWith(b, PartsOf(env, b))
  }

  lemma {:induction false} MembersLast(fields: seq<(string, Json)>, i: nat)
    requires i < |fields| && forall j | i < j < |fields| :: L(fields[j].0) != L(fields[i].0)
    ensures L(fields[i].0) in Members(fields) && Members(fields)[L(fields[i].0)] == fields[i].1
  {
    if i < |fields| - 1 { MembersLast(fields[..|fields| - 1], i); }
  }

  /** The approval block shows its record's decision and approver. */
  lemma ApprovalBlockShows(a: Approval)
    ensures Member(ApprovalBlock(a), "status") == Some(Str(a.status))
    ensures Member(ApprovalBlock(a), "approved_by") == Some(Str(a.approvedBy))
    ensures Member(ApprovalBlock(a), "approval_id") == Some(Str(a.id))
    ensures Member(ApprovalBlock(a), "approved_at") == Some(Str(a.approvedAt))
    ensures Member(ApprovalBlock(a), "source") == Some(Str(a.source))
  {
    var fields := [
      ("approval_id", Str(a.id)), ("status", Str(a.status)), ("approved_by", Str(a.approvedBy)),
      ("approved_at", Str(a.approvedAt)), ("source", Str(a.source))];
    assert forall i, j | 0 <= i < j < 5 :: L(fields[j].0) != L(fields[i].0) by {
      assert L("approved_by")[9] != L("approved_at")[9] && L("approval_id")[6] != L("approved_by")[6]
        && L("approval_id")[6] != L("approved_at")[6] && L("status")[1] != L("source")[1];
    }
    MembersLast(fields, 0); MembersLast(fields, 1); MembersLast(fields, 2);
    MembersLast(fields, 3); MembersLast(fields, 4);
  }

  lemma MemberIs(b: Core, p: Parts, f: Field)
    requires !Added(f)
    ensures ManifestWith(b, p).Obj? && Key(f) in ManifestWith(b, p).members
    ensures ManifestWith(b, p).members[Key(f)] == FieldValue(b, p, f)
  {}

  ghost predicate SameFields(b: Core, d: Core, p: Parts, q: Parts) {
    forall f: Field | !Added(f) :: FieldValue(b, p, f) == FieldValue(d, q, f)
  }

  lemma EqualFields(b: Core, d: Core, p: Parts, q: Parts)
    requires ManifestWith(b, p) == ManifestWith(d, q)
    ensures SameFields(b, d, p, q)
  {
    forall f: Field | !Added(f) ensures FieldValue(b, p, f) == FieldValue(d, q, f) {
      MemberIs(b, p, f);
      MemberIs(d, q, f);
    }
  }

  lemma EqualApprovals(x: Approval, y: Approval)
    requires ApprovalBlock(x) == ApprovalBlock(y)
    ensures x.(tenantId := y.tenantId, reason := y.reason) == y
  {
    ApprovalBlockShows(x);
    ApprovalBlockShows(y);
  }

  lemma EqualContents(b: Core, d: Core, p: Parts, q: Parts)
    requires SameFields(b, d, p, q)
    ensures TenantId(b) == TenantId(d) && BundleId(b) == BundleId(d) && Revision(b) == Revision(d)
    ensures DataDocument(b) == DataDocument(d) && StatedGeneration(b) == StatedGeneration(d)
    ensures b.content.policies == d.content.policies && b.content.artifacts == d.content.artifacts
    ensures CreatedAt(b) == CreatedAt(d) && b.content.complianceBundleId == d.content.complianceBundleId &&
      HotReloads(b) == HotReloads(d)
  {
    hide TenantId, BundleId, Revision, DataDocument, StatedGeneration, CreatedAt, HotReloads, Nat;
    assert FieldValue(b, p, TenantIdField) == FieldValue(d, q, TenantIdField);
    assert FieldValue(b, p, BundleIdField) == FieldValue(d, q, BundleIdField);
    assert FieldValue(b, p, RevisionField) == FieldValue(d, q, RevisionField);
    assert FieldValue(b, p, CreatedAtField) == FieldValue(d, q, CreatedAtField);
    assert FieldValue(b, p, ComplianceBundleId) == FieldValue(d, q, ComplianceBundleId);
    assert FieldValue(b, p, HotReload) == FieldValue(d, q, HotReload);
    assert FieldValue(b, p, Data) == FieldValue(d, q, Data);
    assert FieldValue(b, p, Policies) == FieldValue(d, q, Policies);
    assert FieldValue(b, p, Artifacts) == FieldValue(d, q, Artifacts);
    assert FieldValue(b, p, Generation) == FieldValue(d, q, Generation);
    NatInjective(StatedGeneration(b), StatedGeneration(d));
  }

  lemma NatInjective(m: nat, n: nat)
    requires Nat(m) == Nat(n)
    ensures m == n
  {
    DigitsInjective(m, n);
  }

  lemma EqualEvidence(b: Core, d: Core, p: Parts, q: Parts)
    requires SameFields(b, d, p, q)
    ensures p.provenance == q.provenance && p.sbom == q.sbom && p.attestation == q.attestation
    ensures p.target == q.target && p.approval == q.approval
  {
    assert FieldValue(b, p, Target) == FieldValue(d, q, Target);
    assert FieldValue(b, p, ApprovalField) == FieldValue(d, q, ApprovalField);
    assert FieldValue(b, p, ProvenanceField) == FieldValue(d, q, ProvenanceField);
    assert FieldValue(b, p, SbomField) == FieldValue(d, q, SbomField);
    assert FieldValue(b, p, AttestationField) == FieldValue(d, q, AttestationField);
  }

  lemma EqualTargets(x: Text, y: Text)
    requires TargetBlock(x) == TargetBlock(y)
    ensures x == y
  {
    hide Object;
    assert |L("control_level")| != |L("pep_capabilities")| && |L("control_level")| != |L("agent_selectors")|;
    MembersLast(TargetFields(x), 0);
    MembersLast(TargetFields(y), 0);
    assert TargetBlock(x) == Obj(Members(TargetFields(x))) && TargetBlock(y) == Obj(Members(TargetFields(y))) by {
      ObjectMembers(TargetFields(x));
      ObjectMembers(TargetFields(y));
    }
  }

  lemma ObjectMembers(fields: seq<(string, Json)>)
    ensures Object(fields) == Obj(Members(fields))
  {}

  /** Two bundles that a verifier of their manifests cannot tell apart. */
  ghost predicate Agree(env: Env, b: Core, env': Env, d: Core) {
    && TenantId(b) == TenantId(d) && BundleId(b) == BundleId(d) && Revision(b) == Revision(d)
    && CreatedAt(b) == CreatedAt(d) && ControlLevel(b) == ControlLevel(d)
    && b.content.complianceBundleId == d.content.complianceBundleId && HotReloads(b) == HotReloads(d)
    && StatedGeneration(b) == StatedGeneration(d)
    && DataDocument(b) == DataDocument(d)
    && b.content.policies == d.content.policies && b.content.artifacts == d.content.artifacts
    && Provenance(env, b) == Provenance(env', d) && Sbom(env, b) == Sbom(env', d)
    && Attestation(env, b) == Attestation(env', d)
    && var x, y := DefaultApproval(b, NO_PATCH), DefaultApproval(d, NO_PATCH);
       x.(tenantId := y.tenantId, reason := y.reason) == y
  }

  /**
  Equal manifests mean equal tenant, generation, data, policies, evidence and approval. The two
  may have been built by different processes, with different keys or versions.
  */
  lemma ManifestDetermines(env: Env, b: Core, env': Env, d: Core)
    requires Unsigned(env, b) == Unsigned(env', d)
    ensures Agree(env, b, env', d)
  {
    hide ManifestWith, FieldValue, Provenance, Sbom, Attestation, ApprovalBlock, TargetBlock, DefaultApproval;
    hide TenantId, BundleId, Revision, CreatedAt, StatedGeneration, DataDocument, HotReloads, ControlLevel;
    var p, q := PartsOf(env, b), PartsOf(env', d);
    EqualFields(b, d, p, q);
    EqualContents(b, d, p, q);
    EqualEvidence(b, d, p, q);
    EqualApprovals(DefaultApproval(b, NO_PATCH), DefaultApproval(d, NO_PATCH));
    EqualTargets(ControlLevel(b), ControlLevel(d));
  }

  /** Under one hash this is exact: bundles that agree on these have the same manifest. */
  lemma ManifestExactly(env: Env, b: Core, env': Env, d: Core)
    requires env.sha256 == env'.sha256
    ensures Unsigned(env, b) == Unsigned(env', d) <==> Agree(env, b, env', d)
  {
    hide Unsigned, Agree;
    if Unsigned(env, b) == Unsigned(env', d) { ManifestDetermines(env, b, env', d); }
    if Agree(env, b, env', d) { AgreedManifest(env, b, env', d); }
  }

  lemma AgreedManifest(env: Env, b: Core, env': Env, d: Core)
    requires env.sha256 == env'.sha256 && Agree(env, b, env', d)
    ensures Unsigned(env, b) == Unsigned(env', d)
  {
    hide Provenance, Sbom, Attestation, DefaultApproval, TargetBlock, Object, FieldValue, ByField;
    hide TenantId, BundleId, Revision, CreatedAt, StatedGeneration, DataDocument, HotReloads, ControlLevel;
    var p, q := PartsOf(env, b), PartsOf(env', d);
    assert p == q;
    AgreedFields(b, d, p);
    SameByField(f requires !Added(f) => FieldValue(b, p, f), f requires !Added(f) => FieldValue(d, p, f));
  }

  lemma AgreedFields(b: Core, d: Core, p: Parts)
    requires TenantId(b) == TenantId(d) && BundleId(b) == BundleId(d) && Revision(b) == Revision(d)
    requires CreatedAt(b) == CreatedAt(d) && b.content.complianceBundleId == d.content.complianceBundleId &&
      HotReloads(b) == HotReloads(d)
    requires StatedGeneration(b) == StatedGeneration(d) && DataDocument(b) == DataDocument(d)
    requires b.content.policies == d.content.policies && b.content.artifacts == d.content.artifacts
    ensures SameFields(b, d, p, p)
  {
    hide TenantId, BundleId, Revision, CreatedAt, StatedGeneration, DataDocument, HotReloads, Nat;
  }

  lemma SameByField(v: Field --> Json, w: Field --> Json)
    requires forall f: Field | !Added(f) :: v.requires(f) && w.requires(f) && v(f) == w(f)
    ensures ByField(v) == ByField(w)
  {
    hide ByField;
    CoveredByField(v, w);
    CoveredByField(w, v);
    assert ByField(v).Keys == ByField(w).Keys;
  }

  lemma CoveredByField(v: Field --> Json, w: Field --> Json)
    requires forall f: Field | !Added(f) :: v.requires(f) && w.requires(f) && v(f) == w(f)
    ensures forall k | k in ByField(v) :: k in ByField(w) && ByField(v)[k] == ByField(w)[k]
  {
    hide Key;
    var m, n := ByField(v), ByField(w);
    forall k | k in m ensures k in n && m[k] == n[k] {
      var f: Field :| !Added(f) && Key(f) == k;
    }
  }

  /** The approval that a manifest shows, in terms of the record the bundle stores. */
  ghost predicate ShowsStored(block: Json, b: Core) {
    var stored := if b.approval.Some? then b.approval.value else NO_PATCH;
    && (stored.id != [] ==> Member(block, "approval_id") == Some(Str(stored.id)))
    && Member(block, "status") == Some(Str(Or(stored.status, L("approved"))))
    && Member(block, "approved_by") == Some(Str(Or(stored.approvedBy, L("local-dev-security-admin"))))
    && (stored.source != [] ==> Member(block, "source") == Some(Str(stored.source)))
    && Member(block, "approved_at") == Some(Str(Or(b.content.approvedAt, CreatedAt(b))))
  }

  /**
  The manifest shows the stored record's id, status, approver and source, with defaults where they
  are missing; its approval time is the bundle's own, never the record's.
  */
  lemma ManifestShowsStored(env: Env, b: Core)
    ensures var m := Unsigned(env, b);
      m.Obj? && Key(ApprovalField) in m.members && ShowsStored(m.members[Key(ApprovalField)], b)
  {
    hide Provenance, Sbom, Attestation, Member, Members, Hash, ManifestWith, CreatedAt, Object;
    MemberIs(b, PartsOf(env, b), ApprovalField);
    ApprovalBlockShows(DefaultApproval(b, NO_PATCH));
  }

  /** So the stored record's time and reason are not covered: changing them leaves the manifest as it is. */
  lemma StoredTimeNotCovered(env: Env, b: Core, at: Text, reason: Text)
    requires b.approval.Some?
    ensures Unsigned(env, b.(approval := Some(b.approval.value.(approvedAt := at, reason := reason)))) ==
      Unsigned(env, b)
  {
    var a := b.approval.value.(approvedAt := at, reason := reason);
    var d := b.(approval := Some(a));
    ShownApart(b, a);
    AgreeOnContent(env, d, b);
    hide Agree, Unsigned, DefaultApproval, TenantId;
    ManifestExactly(env, d, env, b);
  }

  lemma ShownApart(b: Core, a: Approval)
    requires b.approval.Some? &&
      a.(approvedAt := b.approval.value.approvedAt, reason := b.approval.value.reason) == b.approval.value
    ensures var d := b.(approval := Some(a));
      && TenantId(d) == TenantId(b)
      && DefaultApproval(d, NO_PATCH).(reason := DefaultApproval(b, NO_PATCH).reason) == DefaultApproval(b, NO_PATCH)
  {
    hide BundleId, Revision, DataDocument;
  }

  lemma AgreeOnContent(env: Env, b: Core, d: Core)
    requires b.content == d.content && b.generation == d.generation && TenantId(b) == TenantId(d)
    requires DefaultApproval(b, NO_PATCH).(reason := DefaultApproval(d, NO_PATCH).reason) ==
      DefaultApproval(d, NO_PATCH)
    ensures Agree(env, b, env, d)
  {
    hide Provenance, Sbom, Attestation, TenantId, DefaultApproval, NO_PATCH;
    SameEvidence(env, b, d);
    SameReadings(b, d);
    hide BundleId, Revision, CreatedAt, ControlLevel, HotReloads, StatedGeneration, DataDocument;
  }

  lemma SameReadings(b: Core, d: Core)
    requires b.content == d.content && b.generation == d.generation
    ensures BundleId(b) == BundleId(d) && Revision(b) == Revision(d) && CreatedAt(b) == CreatedAt(d)
    ensures ControlLevel(b) == ControlLevel(d) && HotReloads(b) == HotReloads(d)
    ensures StatedGeneration(b) == StatedGeneration(d) && DataDocument(b) == DataDocument(d)
  {}

  /** Provenance, SBOM and attestation do not depend on the approval once the tenant is the same. */
  lemma SameEvidence(env: Env, b: Core, d: Core)
    requires b.content == d.content && TenantId(b) == TenantId(d)
    ensures Provenance(env, b) == Provenance(env, d) && Sbom(env, b) == Sbom(env, d) &&
      Attestation(env, b) == Attestation(env, d)
  {
    hide Object, Hash, TenantId, Ascending, Engines;
  }

  /** A manifest depends on the process only through the hash and the version. */
  lemma SameVersionManifest(env: Env, env': Env, b: Core)
    requires env.sha256 == env'.sha256 && env.cloudVersion == env'.cloudVersion
    ensures Unsigned(env, b) == Unsigned(env', b)
  {
    SameVersionEvidence(env, env', b);
    hide Unsigned, Provenance, Sbom, Attestation;
    ManifestExactly(env, b, env', b);
  }

  lemma SameVersionEvidence(env: Env, env': Env, b: Core)
    requires env.sha256 == env'.sha256 && env.cloudVersion == env'.cloudVersion
    ensures Provenance(env, b) == Provenance(env', b) && Sbom(env, b) == Sbom(env', b) &&
      Attestation(env, b) == Attestation(env', b)
  {
    hide Object, TenantId, BundleId, Revision, CreatedAt, DataDocument, Engines, Ascending, Slice;
  }
}
