/**
What a stored document holds under each key, and under which tenant a stored bundle is filed.
*/
module StoredReading {
  import opened Text
  import opened Json
  import opened Options
  import opened Manifest
  import opened ManifestReading
  import opened Signing
  import opened ServedReading
  import opened PropertyNames
  import opened BundleDocuments
  import TenantFiling

  lemma UnderName(v: Attrs, a: Attr, name: string)
    requires Called(a, name)
    ensures Under(Doc(v), name) == if v(a).Some? then v(a).value else Null
  {
    hide Spelling;
    assert L(name) == PropertyName(a);
  }

  /* ---- records ---- */

  lemma SignatureStored(r: SigRecord)
    ensures ShowsSignature(Doc(RecordAttrs(r)), r)
  {
    hide Under, Doc, RecordAttrs, L, OptInt, Called;
    AllNames();
    var v := RecordAttrs(r);
    RecordNamed(r);
    RecordSigned(r);
    RecordKeyed(r);
    UnderName(v, Attr.Id, "id");
    UnderName(v, Attr.TenantId, "tenant_id");
    UnderName(v, Attr.BundleId, "bundle_id");
    UnderName(v, Attr.Revision, "revision");
    UnderName(v, Attr.Alg, "alg");
    UnderName(v, Attr.DetachedKeyId, "keyid");
    UnderName(v, Attr.KeyId, "key_id");
    UnderName(v, Attr.Sig, "sig");
    UnderName(v, Attr.Signature, "signature");
    UnderName(v, Attr.PayloadHash, "payload_hash");
  }

  lemma SignerStored(r: SigRecord)
    ensures ShowsSigner(Doc(RecordAttrs(r)), r)
  {
    hide Under, Doc, RecordAttrs, L, Int, Called;
    AllNames();
    var v := RecordAttrs(r);
    RecordNamed(r);
    RecordKeyed(r);
    RecordApproved(r);
    UnderName(v, Attr.PublicKeyPem, "public_key_pem");
    UnderName(v, Attr.PublicKeyRaw, "public_key_raw_base64url");
    UnderName(v, Attr.SignedBy, "signed_by");
    UnderName(v, Attr.SignedAt, "signed_at");
    UnderName(v, Attr.ApprovalId, "approval_id");
    UnderName(v, Attr.ApprovalSource, "approval_source");
    UnderName(v, Attr.VerificationStatus, "verification_status");
    UnderName(v, Attr.Generation, "generation");
  }

  /* ---- approvals and artifact records ---- */

  ghost predicate StoresApproval(x: Json, a: Approval) {
    && Under(x, "id") == Str(a.id) && Under(x, "tenant_id") == Str(a.tenantId) && Under(x, "status") == Str(a.status)
    && Under(x, "approved_by") == Str(a.approvedBy) && Under(x, "approved_at") == Str(a.approvedAt)
    && Under(x, "source") == Str(a.source) && Under(x, "reason") == Str(a.reason)
  }

  lemma ApprovalStored(a: Approval)
    ensures StoresApproval(Doc(ApprovalAttrs(a)), a)
  {
    hide Under, Doc, L, Called;
    AllNames();
    var v := ApprovalAttrs(a);
    UnderName(v, Attr.Id, "id");
    UnderName(v, Attr.TenantId, "tenant_id");
    UnderName(v, Attr.Status, "status");
    UnderName(v, Attr.ApprovedBy, "approved_by");
    UnderName(v, Attr.ApprovedAt, "approved_at");
    UnderName(v, Attr.Source, "source");
    UnderName(v, Attr.Reason, "reason");
  }

  lemma ArtifactAttrsAre(r: ArtifactRecord)
    ensures ArtifactAttrs(r)(Attr.Id) == Some(Str(r.id)) && ArtifactAttrs(r)(Attr.TenantId) == Some(Str(r.tenantId))
    ensures ArtifactAttrs(r)(Attr.BundleId) == Some(Str(r.bundleId))
    ensures ArtifactAttrs(r)(Attr.Revision) == Some(Str(r.revision))
  {
    hide Digits;
  }

  lemma ArtifactMoreAttrs(r: ArtifactRecord)
    ensures ArtifactAttrs(r)(Attr.ArtifactHash) == Some(Str(r.artifactHash))
  {
    hide Int;
  }

  lemma ArtifactSized(r: ArtifactRecord)
    ensures ArtifactAttrs(r)(Attr.StorageUri) == Some(Str(r.storageUri))
    ensures ArtifactAttrs(r)(Attr.SizeBytes) == Some(Int(r.sizeBytes))
    ensures ArtifactAttrs(r)(Attr.CreatedAt) == Some(Str(r.createdAt))
  {
    hide Int;
  }

  lemma IntIsNumber(n: nat)
    ensures Int(n) == Number(n)
  {
    hide Digits;
  }

  /** The ledger record of an artifact as it is stored. */
  lemma ArtifactStored(r: ArtifactRecord)
    ensures var x := Doc(ArtifactAttrs(r));
      && Under(x, "id") == Str(r.id) && Under(x, "tenant_id") == Str(r.tenantId)
      && Under(x, "bundle_id") == Str(r.bundleId) && Under(x, "revision") == Str(r.revision)
      && Under(x, "artifact_hash") == Str(r.artifactHash) && Under(x, "storage_uri") == Str(r.storageUri)
      && Under(x, "size_bytes") == Number(r.sizeBytes) && Under(x, "created_at") == Str(r.createdAt)
  {
    hide Under, Doc, L, Called, Number, Int, ArtifactAttrs;
    AllNames();
    ArtifactAttrsAre(r);
    ArtifactMoreAttrs(r);
    ArtifactSized(r);
    IntIsNumber(r.sizeBytes);
    var v := ArtifactAttrs(r);
    UnderName(v, Attr.Id, "id");
    UnderName(v, Attr.TenantId, "tenant_id");
    UnderName(v, Attr.BundleId, "bundle_id");
    UnderName(v, Attr.Revision, "revision");
    UnderName(v, Attr.ArtifactHash, "artifact_hash");
    UnderName(v, Attr.StorageUri, "storage_uri");
    UnderName(v, Attr.SizeBytes, "size_bytes");
    UnderName(v, Attr.CreatedAt, "created_at");
  }

  /* ---- bundles ---- */

  ghost predicate StoresContent(x: Json, c: Content) {
    && Under(x, "id") == Str(c.id) && Under(x, "revision") == Str(c.revision)
    && Under(x, "created_at") == Str(c.createdAt) && Under(x, "approved_at") == Str(c.approvedAt)
    && Under(x, "approval_id") == Str(c.approvalId) && Under(x, "control_level") == Str(c.controlLevel)
    && Under(x, "compliance_bundle_id") == Str(c.complianceBundleId) && Under(x, "draft_id") == Str(c.draftId)
    && Under(x, "policies") == Arr(c.policies) && Under(x, "artifacts") == Arr(c.artifacts)
    && (c.hotReload.Some? ==> Under(x, "hot_reload") == Bool(c.hotReload.value))
    && (c.data.Some? ==> Under(x, "data") == c.data.value)
  }

  ghost predicate StoresRecord(x: Json, r: SigRecord) {
    ShowsSignature(x, r) && ShowsSigner(x, r)
  }

  /** What signing writes to a bundle: every part of it stands under its own key. */
  ghost predicate StoresState(x: Json, b: Bundle) {
    && Under(x, "tenant_id") == Str(b.core.tenantId) && Under(x, "signed") == Bool(b.signed)
    && Under(x, "signature_status") == Str(b.signatureStatus) && Under(x, "manifest_hash") == Str(b.manifestHash)
    && (b.core.generation.Some? ==> Under(x, "generation") == Int(b.core.generation.value))
    && (b.core.approval.Some? ==> StoresApproval(Under(x, "approval_record"), b.core.approval.value))
    && (b.signature.Some? ==> StoresRecord(Under(x, "signature"), b.signature.value))
    && (b.signatures.Some? ==> StoresRecords(Under(x, "signatures"), b.signatures.value))
  }

  ghost predicate StoresRecords(x: Json, rs: seq<SigRecord>) {
    x.Arr? && |x.items| == |rs| && forall i | 0 <= i < |rs| :: StoresRecord(x.items[i], rs[i])
  }

  lemma ContentStored(b: Bundle)
    ensures StoresContent(Doc(BundleAttrs(b)), b.core.content)
  {
    hide Under, Doc, L, Called, BundleAttrs, ContentAttrs, Fixtures;
    AllNames();
    ContentAttrsPass(b);
    ContentAttrsAre(b.core.content);
    var v := BundleAttrs(b);
    UnderName(v, Attr.Id, "id");
    UnderName(v, Attr.Revision, "revision");
    UnderName(v, Attr.CreatedAt, "created_at");
    UnderName(v, Attr.ApprovedAt, "approved_at");
    UnderName(v, Attr.ApprovalId, "approval_id");
    UnderName(v, Attr.ControlLevel, "control_level");
    UnderName(v, Attr.ComplianceBundleId, "compliance_bundle_id");
    UnderName(v, Attr.DraftId, "draft_id");
    UnderName(v, Attr.Policies, "policies");
    UnderName(v, Attr.Artifacts, "artifacts");
    UnderName(v, Attr.HotReload, "hot_reload");
    UnderName(v, Attr.Data, "data");
  }

  lemma StateStored(b: Bundle)
    ensures StoresState(Doc(BundleAttrs(b)), b)
  {
    hide Under, Doc, L, Called, BundleAttrs, ContentAttrs, RecordAttrs, ApprovalAttrs, Int;
    hide ShowsSignature, ShowsSigner, StoresApproval;
    AllNames();
    StateAttrsAre(b);
    var v := BundleAttrs(b);
    UnderName(v, Attr.TenantId, "tenant_id");
    UnderName(v, Attr.Signed, "signed");
    UnderName(v, Attr.SignatureStatus, "signature_status");
    UnderName(v, Attr.ManifestHash, "manifest_hash");
    UnderName(v, Attr.Generation, "generation");
    UnderName(v, Attr.ApprovalRecord, "approval_record");
    UnderName(v, Attr.Signature, "signature");
    UnderName(v, Attr.Signatures, "signatures");
    if b.core.approval.Some? { ApprovalStored(b.core.approval.value); }
    forall r: SigRecord ensures StoresRecord(Doc(RecordAttrs(r)), r) { SignatureStored(r); SignerStored(r); }
  }

  /** A stored bundle is filed under the tenant it was signed for; one without a tenant is shared. */
  lemma BundleFiled(b: Bundle, t: Text)
    ensures TenantFiling.BelongsTo(Doc(BundleAttrs(b)), t) <==> t == b.core.tenantId && t != []
  {
    hide BundleAttrs, L, Called, Properties;
    AllNames();
    StateAttrsAre(b);
    UnderName(BundleAttrs(b), Attr.TenantId, "tenant_id");
  }
}
