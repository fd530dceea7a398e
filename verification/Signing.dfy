/**
Signing, verifying and serving a policy bundle, as functions on bundle documents. Every one of
them returns the bundle as it is left behind, including the array that each look at the
signatures grows.
*/
module Signing {
  import opened Text
  import opened Json
  import opened JsMap
  import opened Options
  import opened Manifest
  import Ledger

  /** Verify accepts what sign made, with either form of the current key; neither form is empty, nor is a signature. */
  ghost predicate Sound(env: Env) {
    && (forall payload :: (env.sign)(payload) != []
         && (env.verify)(env.publicKeyPem, payload, (env.sign)(payload))
         && (env.verify)(env.publicKeyRaw, payload, (env.sign)(payload)))
    && env.publicKeyPem != [] && env.publicKeyRaw != []
  }

  /* ---- the signature list ---- */

  predicate HasSig(r: SigRecord) {
    r.sig != [] || r.legacySig != []
  }

  function RecordKey(r: SigRecord): Text {
    Or(r.id, Or(r.keyId, L("unknown")) + L(":") + Or(r.payloadHash, L("no-hash")) + L(":") + Or(r.sig, r.legacySig))
  }

  /** The array after `bundle.signature` was pushed onto it. */
  function Pushed(b: Bundle): seq<SigRecord> {
    (if b.signatures.Some? then b.signatures.value else []) +
    (if b.signature.Some? && HasSig(b.signature.value) then [b.signature.value] else [])
  }

  /** What looking at the signatures does to the bundle: its own array, if any, grows. */
  function Grown(b: Bundle): Bundle {
    if b.signatures.Some? then b.(signatures := Some(Pushed(b))) else b
  }

  function Keyed(rs: seq<SigRecord>): seq<Entry<Text, SigRecord>> {
    seq(|rs|, i requires 0 <= i < |rs| => Entry(RecordKey(rs[i]), rs[i]))
  }

  /** `normalizePolicyBundleSignatures`: one record per key, the last one, in order of first appearance. */
  function Normalized(b: Bundle): seq<SigRecord> {
    Values(FromEntries(Keyed(Pushed(b))))
  }

  /* ---- verification ---- */

  /** `verifyAgainstKeys`: id of the first key that verifies, empty when none does. */
  function VerifiedBy(env: Env, payload: Text, sig: Text, keys: seq<(Text, Text)>): Text {
    if keys == [] || sig == [] then []
    else if (env.verify)(keys[0].1, payload, sig) then keys[0].0
    else VerifiedBy(env, payload, sig, keys[1..])
  }

  /** The current key, then every retired key still in its overlap. */
  function VerificationKeys(env: Env): seq<(Text, Text)> {
    [(env.keyId, env.publicKeyPem)] +
    seq(|env.retired|, i requires 0 <= i < |env.retired| => (env.retired[i].keyid, env.retired[i].raw))
  }

  /** A pinned key decides alone; without one, any current or retired key may verify. */
  predicate SignatureVerifies(env: Env, payload: Text, r: SigRecord) {
    var sig := Or(r.sig, r.legacySig);
    sig != [] &&
    if r.publicKeyPem != [] then (env.verify)(r.publicKeyPem, payload, sig)
    else VerifiedBy(env, payload, sig, VerificationKeys(env)) != []
  }

  datatype Check = Check(id: Text, keyId: Text, alg: Text, payloadHash: Text, hashMatches: bool, signatureValid: bool) {
    predicate Valid() { hashMatches && signatureValid }
  }

  datatype Status = StatusValid | StatusInvalid | StatusUnsigned

  datatype Verdict = Verdict(tenantId: Text, bundleId: Text, revision: Text, payloadHash: Text, status: Status,
    results: seq<Check>)

  function CheckRecord(env: Env, payload: Text, r: SigRecord): Check {
    Check(r.id, r.keyId, r.alg, r.payloadHash, r.payloadHash == (env.sha256)(payload),
      SignatureVerifies(env, payload, r))
  }

  function Judge(results: seq<Check>): Status {
    if results == [] then StatusUnsigned
    else if forall i | 0 <= i < |results| :: results[i].Valid() then StatusValid
    else StatusInvalid
  }

  /** `verifyPolicyBundle` for a given manifest; it leaves Grown(b) behind. */
  function VerifyAs(env: Env, b: Bundle, manifest: Json): Verdict {
    var payload := StableJson(manifest);
    var rs := Normalized(b);
    var results := seq(|rs|, i requires 0 <= i < |rs| => CheckRecord(env, payload, rs[i]));
    Verdict(TenantId(b.core), b.core.content.id, b.core.content.revision, (env.sha256)(payload), Judge(results),
      results)
  }

  function Verify(env: Env, b: Bundle): Verdict {
    VerifyAs(env, b, Unsigned(env, b.core))
  }

  /* ---- ledgers and signing ---- */

  datatype ArtifactRecord = ArtifactRecord(
    id: Text, tenantId: Text, bundleId: Text, revision: Text, artifactHash: Text, storageUri: Text,
    sizeBytes: nat, createdAt: Text)

  /** The part of the fleet state that signing updates. */
  datatype Fleet = Fleet(bundleGeneration: int, signatures: seq<SigRecord>, artifacts: seq<ArtifactRecord>)

  predicate SameSignature(x: SigRecord, y: SigRecord) {
    x.id == y.id || (x.bundleId == y.bundleId && x.payloadHash == y.payloadHash && x.keyId == y.keyId)
  }

  predicate SameArtifact(x: ArtifactRecord, y: ArtifactRecord) {
    x.artifactHash == y.artifactHash
  }

  function Upsert(f: Fleet, r: SigRecord): Fleet {
    f.(signatures := Ledger.Touch(f.signatures, r, SameSignature))
  }

  function UpsertAll(f: Fleet, rs: seq<SigRecord>): Fleet
    decreases rs
  {
    if rs == [] then f else UpsertAll(Upsert(f, rs[0]), rs[1..])
  }

  datatype SignError = ApprovalRecordRequired | ApprovedRecordRequired | ApprovalRecordMissingApprover

  /** `enforceApprovalRecord`. */
  function EnforceApproval(a: Option<Approval>): Option<SignError> {
    if a.None? then Some(ApprovalRecordRequired)
    else if a.value.status != L("approved") then Some(ApprovedRecordRequired)
    else if a.value.approvedBy == [] then Some(ApprovalRecordMissingApprover)
    else None
  }

  datatype SignResult =
    | SignFailed(error: SignError)
    | Signed(fleet: Fleet, bundle: Bundle, record: SigRecord)

  function NextGeneration(f: Fleet): int {
    (if f.bundleGeneration > 0 then f.bundleGeneration else 0) + 1
  }

  /** The bundle whose manifest is signed: tenant, approval and generation are written first. */
  function Prepared(f: Fleet, b: Bundle, a: Approval): Bundle {
    b.(core := Core(
      b.core.content,
      Or(a.tenantId, TenantId(b.core)),
      Some(a),
      if b.core.generation.Some? then b.core.generation else Some(NextGeneration(f))))
  }

  function NewRecord(env: Env, p: Core, a: Approval, id: Text, signedAt: Text): SigRecord {
    var payload := StableJson(Unsigned(env, p));
    SigRecord(
      id, p.tenantId, p.content.id, p.content.revision, p.generation, L("Ed25519"), env.keyId, env.keyId,
      (env.sign)(payload), [], (env.sha256)(payload), env.publicKeyPem, env.publicKeyRaw,
      Or(a.approvedBy, L("local-dev-security-admin")), signedAt, a.id, a.source, L("valid"))
  }

  /** `signPolicyBundle`. The record id and the time come from the caller or the platform. */
  function Sign(env: Env, f: Fleet, b: Bundle, a: Option<Approval>, id: Text, signedAt: Text): SignResult {
    var refused := EnforceApproval(a);
    if refused.Some? then SignFailed(refused.value)
    else
      var p := Prepared(f, b, a.value);
      var r := NewRecord(env, p.core, a.value, id, signedAt);
      var f' := if b.core.generation.Some? then f else f.(bundleGeneration := NextGeneration(f));
      Signed(
        Upsert(f', r),
        p.(signed := true, signatureStatus := L("signed"), manifestHash := r.payloadHash,
           signature := Some(r), signatures := Some([r])),
        r)
  }

  /* ---- serving ---- */

  datatype Ensured =
    | EnsureFailed(error: SignError, bundle: Bundle)
    | Reused(fleet: Fleet, bundle: Bundle)
    | NewlySigned(fleet: Fleet, bundle: Bundle, record: SigRecord)

  /** `ensurePolicyBundleSignature`. */
  function Ensure(env: Env, f: Fleet, b: Bundle, id: Text, signedAt: Text): Ensured {
    var looked := Grown(b);
    if Verify(env, b).status == StatusValid then Reused(UpsertAll(f, Normalized(looked)), Grown(looked))
    else
      match Sign(env, f, looked, Some(DefaultApproval(looked.core, NO_PATCH)), id, signedAt)
      case SignFailed(e) => EnsureFailed(e, looked)
      case Signed(f', b', r) => NewlySigned(f', Grown(b'), r)
  }

  datatype Served =
    | ServeFailed(error: SignError, bundle: Bundle)
    | Serving(fleet: Fleet, bundle: Bundle, manifest: Json, payloadHash: Text, signatures: seq<SigRecord>,
        verdict: Verdict, reused: bool)

  /** `signedPolicyBundleManifest`. */
  function Serve(env: Env, f: Fleet, b: Bundle, id: Text, signedAt: Text): Served {
    match Ensure(env, f, b, id, signedAt)
    case EnsureFailed(e, b') => ServeFailed(e, b')
    case Reused(f', b') => Present(env, f', b', true)
    case NewlySigned(f', b', r) => Present(env, f', b', false)
  }

  function Present(env: Env, f: Fleet, b: Bundle, reused: bool): Served {
    var manifest := Unsigned(env, b.core);
    var verdict := VerifyAs(env, b, manifest);
    var looked := Grown(b);
    Serving(f, Grown(looked), manifest, verdict.payloadHash, Normalized(looked), verdict, reused)
  }

  function StatusText(s: Status): Json {
    match s
    case StatusValid => Str(L("valid"))
    case StatusInvalid => Str(L("invalid"))
    case StatusUnsigned => Str(L("unsigned"))
  }

  /** A record as it is stored and served. A missing generation or older signature field is no member. */
  function RecordFields(r: SigRecord): seq<(string, Json)> {
    [("id", Str(r.id)), ("tenant_id", Str(r.tenantId)), ("bundle_id", Str(r.bundleId)), ("revision", Str(r.revision)),
     ("alg", Str(r.alg)), ("keyid", Str(r.keyid)), ("key_id", Str(r.keyId)), ("sig", Str(r.sig)),
     ("payload_hash", Str(r.payloadHash)), ("public_key_pem", Str(r.publicKeyPem)),
     ("public_key_raw_base64url", Str(r.publicKeyRaw)), ("signed_by", Str(r.signedBy)), ("signed_at", Str(r.signedAt)),
     ("approval_id", Str(r.approvalId)), ("approval_source", Str(r.approvalSource)),
     ("verification_status", Str(r.verificationStatus))] +
    (if r.legacySig != [] then [("signature", Str(r.legacySig))] else []) +
    (if r.generation.Some? then [("generation", Int(r.generation.value))] else [])
  }

  function RecordJson(r: SigRecord): Json {
    Object(RecordFields(r))
  }

  /** The `t || null` of the source. */
  function OrNull(t: Text): Json {
    if t == [] then Null else Str(t)
  }

  function CheckFields(c: Check): seq<(string, Json)> {
    [("id", OrNull(c.id)), ("key_id", OrNull(c.keyId)), ("alg", OrNull(c.alg)), ("payload_hash", OrNull(c.payloadHash)),
     ("payload_hash_matches", Bool(c.hashMatches)), ("signature_valid", Bool(c.signatureValid)),
     ("status", StatusText(if c.Valid() then StatusValid else StatusInvalid))]
  }

  /** The verdict as it is served. */
  function VerdictFields(v: Verdict): seq<(string, Json)> {
    [("schema_version", S("pollek.cloud.policy-bundle-verification.v1")), ("tenant_id", Str(v.tenantId)),
     ("bundle_id", OrNull(v.bundleId)), ("revision", OrNull(v.revision)), ("payload_hash", Str(v.payloadHash)),
     ("signature_count", Nat(|v.results|)), ("status", StatusText(v.status)),
     ("results", Arr(seq(|v.results|, i requires 0 <= i < |v.results| => Object(CheckFields(v.results[i])))))]
  }

  /** The document sent to the client: the manifest and the four members added after signing. */
  function Document(s: Served): map<Text, Json>
    requires s.Serving? && s.manifest.Obj?
  {
    s.manifest.members[Key(PayloadHash) := Str(s.payloadHash)]
      [Key(Signatures) := Arr(seq(|s.signatures|, i requires 0 <= i < |s.signatures| => RecordJson(s.signatures[i])))]
      [Key(Verification) := Object(VerdictFields(s.verdict))]
      [Key(SigningAction) := Str(if s.reused then L("reused_valid_signature") else L("signed"))]
  }

  /* ---- artifacts ---- */

  function SummaryFields(r: SigRecord): seq<(string, Json)> {
    [("keyid", Str(Or(r.keyid, r.keyId))), ("key_id", Str(r.keyId)), ("alg", Str(r.alg)),
     ("payload_hash", Str(r.payloadHash)), ("sig", Str(r.sig)), ("signed_at", Str(r.signedAt))]
  }

  function SignatureSummary(r: SigRecord): Json {
    Object(SummaryFields(r))
  }

  /** The immutable artifact built from a served manifest. */
  function Artifact(env: Env, s: Served): Json
    requires s.Serving?
  {
    Object(ArtifactFields(env, s))
  }

  function ArtifactFields(env: Env, s: Served): seq<(string, Json)>
    requires s.Serving?
  {
    hide Provenance, Sbom, Attestation, Engines;
    var c := s.bundle.core;
    var engines := Engines(c.content.policies);
    [("schema_version", S("pollek.cloud.policy-bundle-artifact.v1")),
     ("tenant_id", Str(TenantId(c))),
     ("bundle_id", Str(c.content.id)),
     ("revision", Str(c.content.revision)),
     ("manifest_hash", Str(s.payloadHash)),
     ("manifest_url", Str(env.publicUrl + L("/v1/policy-bundles/") + c.content.id + L("/manifest"))),
     ("media_type", S("application/vnd.pollek.policy-bundle+json")),
     ("immutable", Bool(true)),
     ("generation", Nat(StatedGeneration(c))),
     ("signed_fields", Arr([S("policy.wasm"), S("data.json")])),
     ("engines", Arr(seq(|engines|, i requires 0 <= i < |engines| => Str(engines[i])))),
     ("policies", Arr(c.content.policies)),
     ("artifacts", Arr(c.content.artifacts)),
     ("data_sha256", Str(Hash(env, DataDocument(c)))),
     ("provenance", Provenance(env, c)),
     ("sbom", Sbom(env, c)),
     ("attestation", Attestation(env, c)),
     ("compliance_bundle_id", if c.content.complianceBundleId == [] then Null else Str(c.content.complianceBundleId)),
     ("signatures",
       Arr(seq(|s.signatures|, i requires 0 <= i < |s.signatures| => SignatureSummary(s.signatures[i]))))]
  }

  function NewArtifactRecord(env: Env, s: Served, size: nat, at: Text): ArtifactRecord
    requires s.Serving?
  {
    hide Artifact, Slice;
    var c := s.bundle.core;
    var hash := Hash(env, Artifact(env, s));
    ArtifactRecord(L("artifact_") + Slice(hash, 0, 24), TenantId(c), c.content.id, c.content.revision, hash,
      L("sha256:") + hash, size, at)
  }

  /* ---- looking at signatures does not change what is seen ---- */

  lemma FromEntriesPushAgain(es: seq<Entry<Text, SigRecord>>, e: Entry<Text, SigRecord>)
    ensures FromEntries(es + [e] + [e]) == FromEntries(es + [e])
  {
    assert (es + [e] + [e])[..|es| + 1] == es + [e] && (es + [e])[..|es|] == es;
    SetAgain(FromEntries(es), e.key, e.value);
  }

  /** Growing the array never changes the normalized list, so it never changes a verdict. */
  lemma GrownSame(env: Env, b: Bundle)
    ensures Normalized(Grown(b)) == Normalized(b)
    ensures Verify(env, Grown(b)) == Verify(env, b)
  {
    if b.signatures.Some? && b.signature.Some? && HasSig(b.signature.value) {
      var r := b.signature.value;
      var e := Entry(RecordKey(r), r);
      var base := Keyed(b.signatures.value);
      assert Keyed(Pushed(b)) == base + [e];
      assert Keyed(Pushed(Grown(b))) == base + [e] + [e];
      FromEntriesPushAgain(base, e);
    } else {
      assert Pushed(Grown(b)) == Pushed(b);
    }
  }
}
