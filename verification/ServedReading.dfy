/**
What a client finds in a served manifest document, in an artifact, and in a signature record made by signing.
*/
module ServedReading {
  import opened Text
  import opened Json
  import opened JsMap
  import opened Options
  import opened Manifest
  import opened ManifestReading
  import opened Signing
  import opened Serving

  /* ---- records ---- */

  /** A served record, member by member. */
  ghost predicate ShowsRecord(x: Json, r: SigRecord) {
    ShowsSignature(x, r) && ShowsSigner(x, r)
  }

  ghost predicate ShowsSignature(x: Json, r: SigRecord) {
    && Under(x, "id") == Str(r.id) && Under(x, "tenant_id") == Str(r.tenantId)
    && Under(x, "bundle_id") == Str(r.bundleId) && Under(x, "revision") == Str(r.revision)
    && Under(x, "alg") == Str(r.alg) && Under(x, "keyid") == Str(r.keyid) && Under(x, "key_id") == Str(r.keyId)
    && Under(x, "sig") == Str(r.sig) && (r.legacySig != [] ==> Under(x, "signature") == Str(r.legacySig))
    && Under(x, "payload_hash") == Str(r.payloadHash)
  }

  ghost predicate ShowsSigner(x: Json, r: SigRecord) {
    && Under(x, "public_key_pem") == Str(r.publicKeyPem)
    && Under(x, "public_key_raw_base64url") == Str(r.publicKeyRaw)
    && Under(x, "signed_by") == Str(r.signedBy) && Under(x, "signed_at") == Str(r.signedAt)
    && Under(x, "approval_id") == Str(r.approvalId) && Under(x, "approval_source") == Str(r.approvalSource)
    && Under(x, "verification_status") == Str(r.verificationStatus)
    && (r.generation.Some? ==> Under(x, "generation") == Int(r.generation.value))
  }

  lemma RecordApart(r: SigRecord)
    ensures AllApart(RecordFields(r))
  {
    hide Int;
  }

  lemma SignatureRead(r: SigRecord)
    ensures ShowsSignature(RecordJson(r), r)
  {
    hide Under, Object, L, AllApart, Int;
    RecordApart(r);
    var fs := RecordFields(r);
    FieldAt(fs, 0); FieldAt(fs, 1); FieldAt(fs, 2); FieldAt(fs, 3); FieldAt(fs, 4);
    FieldAt(fs, 5); FieldAt(fs, 6); FieldAt(fs, 7); FieldAt(fs, 8);
    if r.legacySig != [] { FieldAt(fs, 16); }
  }

  lemma SignerRead(r: SigRecord)
    ensures ShowsSigner(RecordJson(r), r)
  {
    hide Under, Object, L, AllApart, Int;
    RecordApart(r);
    var fs := RecordFields(r);
    FieldAt(fs, 9); FieldAt(fs, 10); FieldAt(fs, 11); FieldAt(fs, 12);
    FieldAt(fs, 13); FieldAt(fs, 14); FieldAt(fs, 15);
    if r.generation.Some? { FieldAt(fs, |fs| - 1); }
  }

  /* ---- the signatures that are looked at ---- */

  /** The name that tells records apart: the id or, without one, key id, payload hash and signature. */
  function Slot(r: SigRecord): Text {
    if r.id != [] then r.id
    else
      TextOr(r.keyId, "unknown") + L(":") + TextOr(r.payloadHash, "no-hash") + L(":") +
      if r.sig != [] then r.sig else r.legacySig
  }

  function Slots(rs: seq<SigRecord>): seq<Entry<Text, SigRecord>> {
    seq(|rs|, i requires 0 <= i < |rs| => Entry(Slot(rs[i]), rs[i]))
  }

  /** The records of the bundle: its array, then its own signature if that has signature bytes. */
  function RecordsOf(b: Bundle): seq<SigRecord> {
    match (b.signatures, b.signature)
    case (Some(rs), Some(r)) => if r.sig != [] || r.legacySig != [] then rs + [r] else rs
    case (None, Some(r)) => if r.sig != [] || r.legacySig != [] then [r] else []
    case (Some(rs), None) => rs
    case (None, None) => []
  }

  lemma SlotIsKey(r: SigRecord)
    ensures Slot(r) == RecordKey(r)
  {
    hide L;
  }

  lemma SlotsAreKeyed(rs: seq<SigRecord>)
    ensures Slots(rs) == Keyed(rs)
  {
    hide Slot, RecordKey;
    forall i | 0 <= i < |rs| ensures Slots(rs)[i] == Keyed(rs)[i] { SlotIsKey(rs[i]); }
  }

  /** Verification looks at one record for every slot, the last one, in order of first appearance. */
  lemma NormalizedExactly(b: Bundle)
    ensures LastPerKey(Slots(RecordsOf(b)), Slots(Normalized(b)))
  {
    hide Slot, RecordKey, FromEntries;
    assert Pushed(b) == RecordsOf(b);
    var es := Keyed(RecordsOf(b));
    var m := FromEntries(es);
    SlotsAreKeyed(RecordsOf(b));
    SlotsAreKeyed(Normalized(b));
    FilledExactly(es);
    forall i | 0 <= i < |m| ensures m[i] == Keyed(Normalized(b))[i] {
      assert IsLast(es, m[i]);
      var k: nat :| LastAt(es, m[i], k);
    }
    assert m == Keyed(Normalized(b));
  }

  /* ---- verdicts ---- */

  /** A text, or null for the empty one. */
  function TextOrNull(t: Text): Json {
    if t != [] then Str(t) else Null
  }

  ghost predicate ShowsCheck(x: Json, r: SigRecord, hashMatches: bool, verifies: bool) {
    && Under(x, "id") == TextOrNull(r.id) && Under(x, "key_id") == TextOrNull(r.keyId) &&
      Under(x, "alg") == TextOrNull(r.alg)
    && Under(x, "payload_hash") == TextOrNull(r.payloadHash)
    && Under(x, "payload_hash_matches") == Bool(hashMatches) && Under(x, "signature_valid") == Bool(verifies)
    && Under(x, "status") == Str(L(if hashMatches && verifies then "valid" else "invalid"))
  }

  lemma CheckRead(env: Env, payload: Text, r: SigRecord)
    ensures ShowsCheck(Object(CheckFields(CheckRecord(env, payload, r))), r, r.payloadHash == (env.sha256)(payload),
      SignatureVerifies(env, payload, r))
  {
    hide Under, Object, L, AllApart, SignatureVerifies;
    var c := CheckRecord(env, payload, r);
    var fs := CheckFields(c);
    ChecksApart(c);
    FieldAt(fs, 0); FieldAt(fs, 1); FieldAt(fs, 2); FieldAt(fs, 3); FieldAt(fs, 4); FieldAt(fs, 5); FieldAt(fs, 6);
  }

  lemma ChecksApart(c: Check)
    ensures AllApart(CheckFields(c))
  {
    hide L;
  }

  /** The served verdict on a bundle: one result for each of its signatures, in order. */
  ghost predicate ShowsVerdict(env: Env, x: Json, b: Core, payload: Text, rs: seq<SigRecord>) {
    var results := Under(x, "results");
    && Under(x, "schema_version") == Str(L("pollek.cloud.policy-bundle-verification.v1"))
    && Under(x, "tenant_id") == Str(Tenant(b)) && Under(x, "bundle_id") == TextOrNull(b.content.id)
    && Under(x, "revision") == TextOrNull(b.content.revision)
    && Under(x, "payload_hash") == Str((env.sha256)(payload)) && Under(x, "signature_count") == Number(|rs|)
    && results.Arr? && |results.items| == |rs|
    && forall i | 0 <= i < |rs| :: ShowsCheck(results.items[i], rs[i],
         rs[i].payloadHash == (env.sha256)(payload), SignatureVerifies(env, payload, rs[i]))
  }

  ghost predicate AllVerify(env: Env, payload: Text, rs: seq<SigRecord>) {
    forall r | r in rs :: r.payloadHash == (env.sha256)(payload) && SignatureVerifies(env, payload, r)
  }

  lemma VerdictApart(v: Verdict)
    ensures AllApart(VerdictFields(v))
  {
    hide L, CheckFields, Object, Digits;
  }

  lemma VerdictRead(env: Env, b: Bundle, manifest: Json)
    ensures var x, payload, rs := Object(VerdictFields(VerifyAs(env, b, manifest))), StableJson(manifest),
      Normalized(b);
      && ShowsVerdict(env, x, b.core, payload, rs)
      && Under(x, "status") ==
           Str(L(if rs == [] then "unsigned" else if AllVerify(env, payload, rs) then "valid" else "invalid"))
  {
    hide Under, Object, L, AllApart, CheckFields, CheckRecord, Normalized, StableJson, ShowsCheck, SignatureVerifies,
      Digits;
    var payload, rs, v := StableJson(manifest), Normalized(b), VerifyAs(env, b, manifest);
    var fs := VerdictFields(v);
    VerdictApart(v);
    FieldAt(fs, 0); FieldAt(fs, 1); FieldAt(fs, 2); FieldAt(fs, 3); FieldAt(fs, 4); FieldAt(fs, 5); FieldAt(fs, 6);
    FieldAt(fs, 7);
    ReadingsAre(b.core);
    hide TenantId, Tenant;
    forall i | 0 <= i < |rs| ensures ShowsCheck(Object(CheckFields(v.results[i])), rs[i],
      rs[i].payloadHash == (env.sha256)(payload),
        SignatureVerifies(env, payload, rs[i])) { CheckRead(env, payload, rs[i]); }
    JudgeExactly(env, payload, rs, v.results);
    hide Judge, AllVerify;
  }

  lemma JudgeExactly(env: Env, payload: Text, rs: seq<SigRecord>, results: seq<Check>)
    requires |results| == |rs| && forall i | 0 <= i < |rs| :: results[i] == CheckRecord(env, payload, rs[i])
    ensures Judge(results) ==
      if rs == [] then StatusUnsigned else if AllVerify(env, payload, rs) then StatusValid else StatusInvalid
  {
    hide SignatureVerifies;
    if forall i | 0 <= i < |results| :: results[i].Valid() {
      forall r | r in rs ensures r.payloadHash == (env.sha256)(payload) && SignatureVerifies(env, payload, r) {
        var i :| 0 <= i < |rs| && rs[i] == r;
        assert results[i].Valid();
      }
    } else {
      var i :| 0 <= i < |results| && !results[i].Valid();
      assert rs[i] in rs;
    }
  }

  /* ---- the served document ---- */

  lemma AddedKeys(f: Field)
    requires !Added(f)
    ensures Key(f) !in {Key(PayloadHash), Key(Signatures), Key(Verification), Key(SigningAction)}
  {
    hide Key;
    if Key(f) == Key(PayloadHash) { KeysDistinct(f, PayloadHash); }
    if Key(f) == Key(Signatures) { KeysDistinct(f, Signatures); }
    if Key(f) == Key(Verification) { KeysDistinct(f, Verification); }
    if Key(f) == Key(SigningAction) { KeysDistinct(f, SigningAction); }
  }

  lemma AddedApart()
    ensures L("payload_hash") != L("signatures") && L("payload_hash") != L("verification")
    ensures L("payload_hash") != L("signing_action") && L("signatures") != L("verification")
    ensures L("signatures") != L("signing_action") && L("verification") != L("signing_action")
  {
    LApart("payload_hash", "verification");
    assert |"signatures"| == 10 && |"payload_hash"| == 12 && |"signing_action"| == 14;
  }

  ghost predicate ShowsAdded(d: Json, s: Served)
    requires s.Serving?
  {
    hide RecordJson, VerdictFields, Object, Under;
    var x := Under(d, "signatures");
    && Under(d, "payload_hash") == Str(s.payloadHash)
    && Under(d, "verification") == Object(VerdictFields(s.verdict))
    && Under(d, "signing_action") == Str(L(if s.reused then "reused_valid_signature" else "signed"))
    && x.Arr? && |x.items| == |s.signatures|
    && forall i | 0 <= i < |x.items| :: x.items[i] == RecordJson(s.signatures[i])
  }

  lemma DocumentRead(env: Env, s: Served)
    requires s.Serving? && s.manifest == Unsigned(env, s.bundle.core)
    ensures s.manifest.Obj? && ShowsAdded(Obj(Document(s)), s)
  {
    hide Unsigned, KEYS, L, RecordJson, VerdictFields, Object;
    KeysShown(env, s.bundle.core);
    AddedApart();
  }

  lemma ManifestKept(env: Env, s: Served, i: nat)
    requires s.Serving? && s.manifest == Unsigned(env, s.bundle.core) && i < |KEYS|
    ensures s.manifest.Obj? && Under(Obj(Document(s)), KEYS[i]) == Under(s.manifest, KEYS[i])
  {
    hide Unsigned, L, RecordJson, VerdictFields, Object, KEYS, Name;
    KeysShown(env, s.bundle.core);
    FieldOf(i);
    var f: Field :| !Added(f) && Name(f) == KEYS[i];
    AddedKeys(f);
    assert L(KEYS[i]) == Key(f);
  }

  /** A record made by signing the manifest of a bundle, at a given time and with a given id. */
  ghost predicate MadeFor(env: Env, r: SigRecord, b: Core, id: Text, at: Text) {
    hide Unsigned;
    var payload := StableJson(Unsigned(env, b));
    && r.id == id && r.signedAt == at && r.tenantId == b.tenantId
    && r.bundleId == b.content.id && r.revision == b.content.revision && r.generation == b.generation
    && r.alg == L("Ed25519") && r.keyid == env.keyId && r.keyId == env.keyId
    && r.sig == (env.sign)(payload) && r.legacySig == [] && r.payloadHash == (env.sha256)(payload)
    && r.publicKeyPem == env.publicKeyPem && r.publicKeyRaw == env.publicKeyRaw
    && b.approval.Some? && r.signedBy == b.approval.value.approvedBy && r.approvalId == b.approval.value.id
    && r.approvalSource == b.approval.value.source && r.verificationStatus == L("valid")
  }

  /** What signing writes to the bundle and to the counter. */
  ghost predicate SignedOnto(f: Fleet, b: Bundle, a: Approval, f': Fleet, b': Bundle, r: SigRecord) {
    var counted := if f.bundleGeneration > 0 then f.bundleGeneration + 1 else 1;
    && b'.signed && b'.signatureStatus == L("signed") && b'.manifestHash == r.payloadHash
    && b'.signature == Some(r) && b'.signatures == Some([r])
    && b'.core.content == b.core.content && b'.core.approval == Some(a)
    && b'.core.tenantId == (if a.tenantId != [] then a.tenantId else Tenant(b.core))
    && (if b.core.generation.Some? then b'.core.generation == b.core.generation &&
      f'.bundleGeneration == f.bundleGeneration
        else b'.core.generation == Some(counted) && f'.bundleGeneration == counted)
  }

  /**
  Signing is refused in the order no record, not approved, no approver; otherwise it writes this to the bundle and the
  counter, and makes this record.
  */
  lemma SignedExactly(env: Env, f: Fleet, b: Bundle, a: Option<Approval>, id: Text, at: Text)
    ensures var s := Sign(env, f, b, a, id, at);
      if a.None? then s == SignFailed(ApprovalRecordRequired)
      else if a.value.status != L("approved") then s == SignFailed(ApprovedRecordRequired)
      else if a.value.approvedBy == [] then s == SignFailed(ApprovalRecordMissingApprover)
      else
        && s.Signed? && MadeFor(env, s.record, s.bundle.core, id, at)
        && SignedOnto(f, b, a.value, s.fleet, s.bundle, s.record)
  {
    hide Unsigned, StableJson, Ledger.Touch, L;
    ReadingsAre(b.core);
    hide TenantId, Tenant;
  }

  /** A client's view of a served document: the manifest m of the bundle b, and what was added to it. */
  ghost predicate ClientSees(env: Env, d: Json, m: Json, b: Core, rs: seq<SigRecord>, wasValid: bool) {
    hide ShowsVerdict;
    && Under(d, "payload_hash") == Digest(env, m)
    && Under(d, "signing_action") == Str(L(if wasValid then "reused_valid_signature" else "signed"))
    && (forall i | 0 <= i < |KEYS| :: Under(d, KEYS[i]) == Under(m, KEYS[i]))
    && ShowsVerdict(env, Under(d, "verification"), b, StableJson(m), rs)
    && Under(Under(d, "verification"), "status") == Str(L("valid"))
    && ShowsRecords(Under(d, "signatures"), rs)
  }

  ghost predicate ShowsRecords(x: Json, rs: seq<SigRecord>) {
    x.Arr? && |x.items| == |rs| > 0 && forall i | 0 <= i < |rs| :: ShowsRecord(x.items[i], rs[i])
  }

  /** The served verdict is that on the bundle as it is left. */
  lemma VerdictServed(env: Env, f: Fleet, b: Bundle, id: Text, at: Text)
    ensures var s := Serve(env, f, b, id, at);
      s.Serving? && s.manifest == Unsigned(env, s.bundle.core) ==> s.verdict == Verify(env, s.bundle)
  {
    hide Unsigned, Verify, VerifyAs, Sign, Normalized, DefaultApproval, UpsertAll;
    match Ensure(env, f, b, id, at)
    case EnsureFailed(_, _) =>
    case Reused(f', b') => PresentVerdict(env, f', b', true);
    case NewlySigned(f', b', _) => PresentVerdict(env, f', b', false);
  }

  lemma PresentVerdict(env: Env, f: Fleet, b: Bundle, reused: bool)
    ensures var s := Present(env, f, b, reused); s.Serving? && s.verdict == Verify(env, s.bundle)
  {
    hide Unsigned, VerifyAs, Normalized, Grown;
    GrownSame(env, b);
    GrownSame(env, Grown(b));
  }

  /** A client's view of a serve whose verdict is on the bundle it leaves. */
  lemma ClientView(env: Env, s: Served)
    requires s.Serving? && GoodServe(env, s) && s.verdict == Verify(env, s.bundle)
    ensures s.manifest.Obj? && ClientSees(env, Obj(Document(s)), s.manifest, s.bundle.core, s.signatures, s.reused)
  {
    hide Unsigned, Under, Document, ShowsSignature, ShowsSigner, RecordJson, L, StableJson, ShowsVerdict, Normalized;
    hide VerdictFields, Object, KEYS, SignatureVerifies, VerifyAs;
    DocumentRead(env, s);
    forall i | 0 <= i < |KEYS| ensures Under(Obj(Document(s)), KEYS[i]) == Under(s.manifest, KEYS[i]) {
      ManifestKept(env, s, i);
    }
    forall i | 0 <= i < |s.signatures| ensures ShowsRecord(RecordJson(s.signatures[i]), s.signatures[i]) {
      SignatureRead(s.signatures[i]);
      SignerRead(s.signatures[i]);
    }
    VerdictRead(env, s.bundle, s.manifest);
    assert AllVerify(env, StableJson(s.manifest), s.signatures);
  }

  ghost predicate ServeSeen(env: Env, s: Served, wasValid: bool)
    requires s.Serving?
  {
    hide Unsigned, ClientSees, Document, Normalized;
    && s.manifest == Unsigned(env, s.bundle.core) && s.manifest.Obj? && s.signatures == Normalized(s.bundle)
    && ClientSees(env, Obj(Document(s)), s.manifest, s.bundle.core, s.signatures, wasValid)
  }

  /**
  What a client reads in the document it is served: the manifest member by member, its hash, the signatures, and a
  verdict that says valid for each of them.
  */
  lemma ServedDocument(env: Env, f: Fleet, b: Bundle, id: Text, at: Text)
    requires Sound(env)
    ensures var s := Serve(env, f, b, id, at); s.Serving? ==> ServeSeen(env, s, Verify(env, b).status == StatusValid)
  {
    hide Sound, Serve, Verify, Unsigned, Document, ClientSees, Attests, Normalized;
    ServeAlwaysValid(env, f, b, id, at);
    var s := Serve(env, f, b, id, at);
    if s.Serving? {
      VerdictServed(env, f, b, id, at);
      ClientView(env, s);
    }
  }

  /** A serve that signs: one signature, made now for the bundle as it is left. */
  ghost predicate NewlyServed(env: Env, f: Fleet, b: Bundle, s: Served, id: Text, at: Text)
    requires s.Serving?
  {
    var counted := if f.bundleGeneration > 0 then f.bundleGeneration + 1 else 1;
    && |s.signatures| == 1 && MadeFor(env, s.signatures[0], s.bundle.core, id, at)
    && s.bundle.core.content == b.core.content && s.bundle.core.tenantId == Tenant(b.core)
    && s.bundle.core.generation == (if b.core.generation.Some? then b.core.generation else Some(counted))
  }

  lemma FreshServe(env: Env, f: Fleet, b: Bundle, id: Text, at: Text)
    requires Sound(env) && Verify(env, b).status != StatusValid && Approvable(b.core)
    ensures var s := Serve(env, f, b, id, at); s.Serving? && NewlyServed(env, f, b, s, id, at)
  {
    hide Unsigned, Verify, VerifyAs, Sign, Normalized, DefaultApproval, UpsertAll, Sound, MadeFor, Approvable, Present;
    var a := DefaultApproval(b.core, NO_PATCH);
    DefaultApprovalAccepted(b.core);
    SignedExactly(env, f, Grown(b), Some(a), id, at);
    FreshlySigned(env, f, Grown(b), Some(a), id, at);
    var s := Sign(env, f, Grown(b), Some(a), id, at);
    GrownSame(env, s.bundle);
    SignaturesShown(env, s.fleet, Grown(s.bundle));
    DefaultTenant(b.core);
    hide Tenant;
  }

  lemma DefaultTenant(b: Core)
    ensures DefaultApproval(b, NO_PATCH).tenantId == Tenant(b) != []
  {}

  lemma SignaturesShown(env: Env, f: Fleet, b: Bundle)
    ensures var s := Present(env, f, b, false);
      s.Serving? && s.signatures == Normalized(b) && s.bundle.core == b.core
  {
    hide Unsigned, VerifyAs, Normalized;
    GrownSame(env, b);
  }

  /* ---- artifacts ---- */

  ghost predicate ShowsSummary(x: Json, r: SigRecord) {
    && Under(x, "keyid") == Str(if r.keyid != [] then r.keyid else r.keyId) && Under(x, "key_id") == Str(r.keyId)
    && Under(x, "alg") == Str(r.alg) && Under(x, "payload_hash") == Str(r.payloadHash)
    && Under(x, "sig") == Str(r.sig) && Under(x, "signed_at") == Str(r.signedAt)
  }

  lemma SummaryRead(r: SigRecord)
    ensures ShowsSummary(SignatureSummary(r), r)
  {
    hide Under, Object, L, AllApart;
    var fs := SummaryFields(r);
    SummaryApart(r);
    FieldAt(fs, 0); FieldAt(fs, 1); FieldAt(fs, 2); FieldAt(fs, 3); FieldAt(fs, 4); FieldAt(fs, 5);
  }

  lemma SummaryApart(r: SigRecord)
    ensures AllApart(SummaryFields(r))
  {}

  /** What an artifact says of itself. */
  ghost predicate ShowsHead(env: Env, x: Json, c: Core, manifestHash: Text) {
    && Under(x, "schema_version") == Str(L("pollek.cloud.policy-bundle-artifact.v1"))
    && Under(x, "tenant_id") == Str(Tenant(c)) && Under(x, "bundle_id") == Str(c.content.id)
    && Under(x, "revision") == Str(c.content.revision) && Under(x, "manifest_hash") == Str(manifestHash)
    && Under(x, "manifest_url") == Str(env.publicUrl + L("/v1/policy-bundles/") + c.content.id + L("/manifest"))
    && Under(x, "media_type") == Str(L("application/vnd.pollek.policy-bundle+json"))
    && Under(x, "immutable") == Bool(true)
  }

  /** What it takes from the manifest. */
  ghost predicate SharesWith(x: Json, m: Json) {
    forall k | k in ["generation", "signed_fields", "policies", "artifacts", "data_sha256", "provenance", "sbom",
      "attestation", "compliance_bundle_id"] :: Under(x, k) == Under(m, k)
  }

  /** The engines that the policies name, each once, and a summary of every signature. */
  ghost predicate ShowsLists(x: Json, policies: seq<Json>, rs: seq<SigRecord>) {
    var engines, summaries := Under(x, "engines"), Under(x, "signatures");
    && engines.Arr? && Distinct(engines.items) && (forall v | v in engines.items :: v.Str?)
    && (forall e: Text :: Str(e) in engines.items <==> Named(policies, e))
    && summaries.Arr? && |summaries.items| == |rs|
    && forall i | 0 <= i < |rs| :: ShowsSummary(summaries.items[i], rs[i])
  }

  lemma ArtifactApart(env: Env, s: Served)
    requires s.Serving?
    ensures AllApart(ArtifactFields(env, s))
  {
    hide Provenance, Sbom, Attestation, Engines, SignatureSummary, L, Hash, TenantId, StatedGeneration, DataDocument;
  }

  lemma HeadRead(env: Env, s: Served)
    requires s.Serving?
    ensures ShowsHead(env, Artifact(env, s), s.bundle.core, s.payloadHash)
  {
    hide Under, Object, L, AllApart, Provenance, Sbom, Attestation, Engines, SignatureSummary, Hash, DataDocument;
    hide StatedGeneration;
    ArtifactApart(env, s);
    var fs := ArtifactFields(env, s);
    FieldAt(fs, 0); FieldAt(fs, 1); FieldAt(fs, 2); FieldAt(fs, 3);
    FieldAt(fs, 4); FieldAt(fs, 5); FieldAt(fs, 6); FieldAt(fs, 7);
    ReadingsAre(s.bundle.core);
  }

  lemma SharedRead(env: Env, s: Served)
    requires s.Serving?
    ensures SharesWith(Artifact(env, s), Unsigned(env, s.bundle.core))
  {
    hide Under, L, Artifact, Unsigned;
    FlagsRead(env, s);
    DocumentsRead(env, s);
    EvidenceRead(env, s);
  }

  lemma FlagsRead(env: Env, s: Served)
    requires s.Serving?
    ensures var x, m := Artifact(env, s), Unsigned(env, s.bundle.core);
      && Under(x, "generation") == Under(m, "generation") && Under(x, "signed_fields") == Under(m, "signed_fields")
      && Under(x, "compliance_bundle_id") == Under(m, "compliance_bundle_id")
  {
    hide Under, Object, L, AllApart, Provenance, Sbom, Attestation, Engines, SignatureSummary, Hash, Unsigned, Digits;
    hide DataDocument, TenantId;
    ArtifactApart(env, s);
    var fs, c := ArtifactFields(env, s), s.bundle.core;
    FieldAt(fs, 8); FieldAt(fs, 9); FieldAt(fs, 17);
    FlagsAt(env, c);
    GenerationAt(env, c);
  }

  lemma DocumentsRead(env: Env, s: Served)
    requires s.Serving?
    ensures var x, m := Artifact(env, s), Unsigned(env, s.bundle.core);
      Under(x, "policies") == Under(m, "policies") && Under(x, "artifacts") == Under(m, "artifacts")
  {
    hide Under, Object, L, AllApart, Provenance, Sbom, Attestation, Engines, SignatureSummary, Hash, Unsigned;
    hide StatedGeneration, DataDocument, TenantId;
    ArtifactApart(env, s);
    var fs, c := ArtifactFields(env, s), s.bundle.core;
    FieldAt(fs, 11); FieldAt(fs, 12);
    ListsAt(env, c);
  }

  lemma EvidenceRead(env: Env, s: Served)
    requires s.Serving?
    ensures var x, m := Artifact(env, s), Unsigned(env, s.bundle.core);
      && Under(x, "data_sha256") == Under(m, "data_sha256") && Under(x, "provenance") == Under(m, "provenance")
      && Under(x, "sbom") == Under(m, "sbom") && Under(x, "attestation") == Under(m, "attestation")
  {
    hide Under, Object, L, AllApart, Provenance, Sbom, Attestation, Engines, SignatureSummary, StableJson, Unsigned;
    hide Digits, SourceHashFields, TargetBlock;
    ArtifactApart(env, s);
    var fs, c := ArtifactFields(env, s), s.bundle.core;
    FieldAt(fs, 13); FieldAt(fs, 14); FieldAt(fs, 15); FieldAt(fs, 16);
    EvidenceAt(env, c);
    HashesAt(env, c);
  }

  lemma ListsRead(env: Env, s: Served)
    requires s.Serving?
    ensures ShowsLists(Artifact(env, s), s.bundle.core.content.policies, s.signatures)
  {
    hide Under, Object, L, AllApart, Provenance, Sbom, Attestation, EngineNames, Named, SignatureSummary, Hash;
    hide ShowsSummary, DataDocument, StatedGeneration, TenantId;
    ArtifactApart(env, s);
    var fs, policies := ArtifactFields(env, s), s.bundle.core.content.policies;
    FieldAt(fs, 10); FieldAt(fs, 18);
    forall i | 0 <= i < |s.signatures| ensures ShowsSummary(SignatureSummary(s.signatures[i]), s.signatures[i]) {
      SummaryRead(s.signatures[i]);
    }
    var engines := Engines(policies);
    forall e: Text ensures Str(e) in Under(Artifact(env, s), "engines").items <==> Named(policies, e) {
      EnginesNamed(policies, e);
      if e in engines {
        var i :| 0 <= i < |engines| && engines[i] == e;
        assert Under(Artifact(env, s), "engines").items[i] == Str(e);
      }
    }
  }

  /**
  An artifact describes the served bundle, shares its evidence with the manifest, and lists engines and
  signatures.
  */
  lemma ArtifactShown(env: Env, s: Served)
    requires s.Serving?
    ensures var x, c := Artifact(env, s), s.bundle.core;
      ShowsHead(env, x, c, s.payloadHash) && SharesWith(x, Unsigned(env, c)) &&
        ShowsLists(x, c.content.policies, s.signatures)
  {
    hide Artifact, ShowsHead, SharesWith, ShowsLists, Unsigned;
    HeadRead(env, s);
    SharedRead(env, s);
    ListsRead(env, s);
  }

  /** The ledger record of an artifact: its hash, and the names made from it. */
  lemma ArtifactRecordShown(env: Env, s: Served, size: nat, at: Text)
    requires s.Serving?
    ensures var r, c, h := NewArtifactRecord(env, s, size, at), s.bundle.core,
      (env.sha256)(StableJson(Artifact(env, s)));
      && r.artifactHash == h && r.storageUri == L("sha256:") + h && r.sizeBytes == size && r.createdAt == at
      && r.tenantId == Tenant(c) && r.bundleId == c.content.id && r.revision == c.content.revision
      && (|h| >= 24 ==> r.id == L("artifact_") + h[..24])
  {
    hide Artifact, L, StableJson;
    ReadingsAre(s.bundle.core);
    hide Tenant, TenantId;
  }
}
