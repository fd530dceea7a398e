/**
The property names of stored bundles, approvals and ledger records, and that they are all different.
*/
module PropertyNames {
  import opened Text

  datatype Attr =
    | Id | Revision | CreatedAt | ApprovedAt | ApprovalId | ControlLevel | ComplianceBundleId | DraftId
    | Policies | Artifacts | HotReload | Data | TestFixtures | TenantId | ApprovalRecord | Generation
    | Signed | SignatureStatus | ManifestHash | Signature | Signatures | BundleId | Alg | DetachedKeyId | KeyId
    | Sig | PayloadHash | PublicKeyPem | PublicKeyRaw | SignedBy | SignedAt | ApprovalSource
    | VerificationStatus | Status | ApprovedBy | Source | Reason | ArtifactHash | StorageUri | SizeBytes

  /** Property names, a few at a time. */
  function Spelling(a: Attr): string {
    match a
    case Id => "id"
    case Revision => "revision"
    case CreatedAt => "created_at"
    case ApprovedAt => "approved_at"
    case ApprovalId => "approval_id"
    case ControlLevel => "control_level"
    case ComplianceBundleId => "compliance_bundle_id"
    case DraftId => "draft_id"
    case _ => Spelling1(a)
  }

  function Spelling1(a: Attr): string {
    match a
    case Policies => "policies"
    case Artifacts => "artifacts"
    case HotReload => "hot_reload"
    case Data => "data"
    case TestFixtures => "policyTestFixtures"
    case BundleId => "bundle_id"
    case Alg => "alg"
    case DetachedKeyId => "keyid"
    case _ => Spelling2(a)
  }

  function Spelling2(a: Attr): string {
    match a
    case KeyId => "key_id"
    case Sig => "sig"
    case PayloadHash => "payload_hash"
    case PublicKeyPem => "public_key_pem"
    case PublicKeyRaw => "public_key_raw_base64url"
    case SignedBy => "signed_by"
    case SignedAt => "signed_at"
    case ApprovalSource => "approval_source"
    case _ => Spelling3(a)
  }

  function Spelling3(a: Attr): string {
    match a
    case VerificationStatus => "verification_status"
    case Generation => "generation"
    case Signature => "signature"
    case TenantId => "tenant_id"
    case ApprovalRecord => "approval_record"
    case Signed => "signed"
    case SignatureStatus => "signature_status"
    case ManifestHash => "manifest_hash"
    case _ => Spelling4(a)
  }

  function Spelling4(a: Attr): string {
    match a
    case Signatures => "signatures"
    case Status => "status"
    case ApprovedBy => "approved_by"
    case Source => "source"
    case Reason => "reason"
    case ArtifactHash => "artifact_hash"
    case StorageUri => "storage_uri"
    case SizeBytes => "size_bytes"
    case _ => "?"
  }

  function Tag(a: Attr): int {
    match a
    case Id => 1733225
    case Revision => 1881974
    case CreatedAt => 1636961
    case ApprovedAt => 1604210
    case ApprovalId => 1602162
    case ControlLevel => 1635954
    case ComplianceBundleId => 1634913
    case DraftId => 1651297
    case Policies => 1849836
    case Artifacts => 1604073
    case HotReload => 1716831
    case Data => 1650913
    case TestFixtures => 1849812
    case TenantId => 1913441
    case ApprovalRecord => 1602166
    case Generation => 1701733
    case Signed => 1897063
    case SignatureStatus => 1898996
    case ManifestHash => 1799270
    case Signature => 1897198
    case Signatures => 1898990
    case BundleId => 1618532
    case Alg => 1602540
    case DetachedKeyId => 1765989
    case KeyId => 1766009
    case Sig => 1897449
    case PayloadHash => 1848431
    case PublicKeyPem => 1849065
    case PublicKeyRaw => 1848933
    case SignedBy => 1899758
    case SignedAt => 1899118
    case ApprovalSource => 1602294
    case VerificationStatus => 1948131
    case Status => 1898977
    case ApprovedBy => 1604850
    case Source => 1897205
    case Reason => 1881953
    case ArtifactHash => 1602662
    case StorageUri => 1897714
    case SizeBytes => 1898981
  }

  /** A name with this fingerprint. */
  ghost predicate Spelled(s: string, tag: int) {
    s != "" && Fingerprint(L(s)) == tag
  }

  /** Which of the functions above spells a name. */
  function Part(a: Attr): nat {
    match a
    case Id | Revision | CreatedAt | ApprovedAt => 0
    case ApprovalId | ControlLevel | ComplianceBundleId | DraftId => 0
    case Policies | Artifacts | HotReload | Data => 1
    case TestFixtures | BundleId | Alg | DetachedKeyId => 1
    case KeyId | Sig | PayloadHash | PublicKeyPem => 2
    case PublicKeyRaw | SignedBy | SignedAt | ApprovalSource => 2
    case VerificationStatus | Generation | Signature | TenantId => 3
    case ApprovalRecord | Signed | SignatureStatus | ManifestHash => 3
    case _ => 4
  }

  lemma Spelled4(a: Attr)
    requires Part(a) == 4
    ensures Spelled(Spelling4(a), Tag(a))
  {}

  lemma Spelled3(a: Attr)
    requires Part(a) == 3
    ensures Spelled(Spelling3(a), Tag(a))
  {
    hide Spelling4;
  }

  lemma Spelled2(a: Attr)
    requires Part(a) == 2
    ensures Spelled(Spelling2(a), Tag(a))
  {
    hide Spelling3;
  }

  lemma Spelled1(a: Attr)
    requires Part(a) == 1
    ensures Spelled(Spelling1(a), Tag(a))
  {
    hide Spelling2;
  }

  lemma Spelled0(a: Attr)
    requires Part(a) == 0
    ensures Spelled(Spelling(a), Tag(a))
  {
    hide Spelling1;
  }

  lemma AllSpelled(a: Attr)
    ensures Spelled(Spelling(a), Tag(a))
  {
    hide Spelled, Tag;
    if Part(a) == 0 {
      Spelled0(a);
    } else if Part(a) == 1 {
      Spelled1(a);
    } else if Part(a) == 2 {
      Spelled2(a);
    } else if Part(a) == 3 {
      Spelled3(a);
    } else {
      Spelled4(a);
    }
  }

  lemma EarlyTagsDiffer(a: Attr, b: Attr)
    requires Tag(a) == Tag(b) && Part(a) <= 1
    ensures a == b
  {}

  lemma MiddleTagsDiffer(a: Attr, b: Attr)
    requires Tag(a) == Tag(b) && 2 <= Part(a) <= 3
    ensures a == b
  {}

  lemma LateTagsDiffer(a: Attr, b: Attr)
    requires Tag(a) == Tag(b) && 4 <= Part(a)
    ensures a == b
  {}

  lemma TagsDiffer(a: Attr, b: Attr)
    requires Tag(a) == Tag(b)
    ensures a == b
  {
    hide Tag, Part;
    if Part(a) <= 1 {
      EarlyTagsDiffer(a, b);
    } else if Part(a) <= 3 {
      MiddleTagsDiffer(a, b);
    } else {
      LateTagsDiffer(a, b);
    }
  }

  function PropertyName(a: Attr): Text {
    L(Spelling(a))
  }

  /** No two properties share a name. */
  lemma NamesDiffer(a: Attr, b: Attr)
    requires PropertyName(a) == PropertyName(b)
    ensures a == b
  {
    hide Spelling, L, Tag, Fingerprint;
    AllSpelled(a);
    AllSpelled(b);
    TagsDiffer(a, b);
  }

  /* ---- the names, one by one ---- */

  /** The property has this name. */
  predicate Called(a: Attr, name: string) {
    Spelling(a) == name
  }

  lemma Names0()
    ensures Called(Id, "id") && Called(Revision, "revision")
    ensures Called(CreatedAt, "created_at") && Called(ApprovedAt, "approved_at")
    ensures Called(ApprovalId, "approval_id") && Called(ControlLevel, "control_level")
    ensures Called(ComplianceBundleId, "compliance_bundle_id") && Called(DraftId, "draft_id")
  {
    hide Spelling1;
  }

  lemma Call1(a: Attr, name: string)
    requires a.Policies? || a.Artifacts? || a.HotReload? || a.Data? ||
      a.TestFixtures? || a.BundleId? || a.Alg? || a.DetachedKeyId?
    requires Spelling1(a) == name
    ensures Called(a, name)
  {
    hide Spelling1;
  }

  lemma Names1()
    ensures Called(Policies, "policies") && Called(Artifacts, "artifacts")
    ensures Called(HotReload, "hot_reload") && Called(Data, "data")
  {
    hide Called, Spelling2;
    Call1(Policies, "policies"); Call1(Artifacts, "artifacts");
    Call1(HotReload, "hot_reload"); Call1(Data, "data");
  }

  lemma MoreNames1()
    ensures Called(TestFixtures, "policyTestFixtures") && Called(BundleId, "bundle_id")
    ensures Called(Alg, "alg") && Called(DetachedKeyId, "keyid")
  {
    hide Called, Spelling2;
    Call1(TestFixtures, "policyTestFixtures"); Call1(BundleId, "bundle_id");
    Call1(Alg, "alg"); Call1(DetachedKeyId, "keyid");
  }

  lemma Call2(a: Attr, name: string)
    requires a.KeyId? || a.Sig? || a.PayloadHash? || a.PublicKeyPem? ||
      a.PublicKeyRaw? || a.SignedBy? || a.SignedAt? || a.ApprovalSource?
    requires Spelling2(a) == name
    ensures Called(a, name)
  {
    hide Spelling2;
  }

  lemma Names2()
    ensures Called(KeyId, "key_id") && Called(Sig, "sig")
    ensures Called(PayloadHash, "payload_hash") && Called(PublicKeyPem, "public_key_pem")
  {
    hide Called, Spelling3;
    Call2(KeyId, "key_id"); Call2(Sig, "sig");
    Call2(PayloadHash, "payload_hash"); Call2(PublicKeyPem, "public_key_pem");
  }

  lemma MoreNames2()
    ensures Called(PublicKeyRaw, "public_key_raw_base64url") && Called(SignedBy, "signed_by")
    ensures Called(SignedAt, "signed_at") && Called(ApprovalSource, "approval_source")
  {
    hide Called, Spelling3;
    Call2(PublicKeyRaw, "public_key_raw_base64url"); Call2(SignedBy, "signed_by");
    Call2(SignedAt, "signed_at"); Call2(ApprovalSource, "approval_source");
  }

  lemma Call3(a: Attr, name: string)
    requires a.VerificationStatus? || a.Generation? || a.Signature? || a.TenantId? ||
      a.ApprovalRecord? || a.Signed? || a.SignatureStatus? || a.ManifestHash?
    requires Spelling3(a) == name
    ensures Called(a, name)
  {
    hide Spelling3;
  }

  lemma Names3()
    ensures Called(VerificationStatus, "verification_status") && Called(Generation, "generation")
    ensures Called(Signature, "signature") && Called(TenantId, "tenant_id")
  {
    hide Called, Spelling4;
    Call3(VerificationStatus, "verification_status"); Call3(Generation, "generation");
    Call3(Signature, "signature"); Call3(TenantId, "tenant_id");
  }

  lemma MoreNames3()
    ensures Called(ApprovalRecord, "approval_record") && Called(Signed, "signed")
    ensures Called(SignatureStatus, "signature_status") && Called(ManifestHash, "manifest_hash")
  {
    hide Called, Spelling4;
    Call3(ApprovalRecord, "approval_record"); Call3(Signed, "signed");
    Call3(SignatureStatus, "signature_status"); Call3(ManifestHash, "manifest_hash");
  }

  lemma Call4(a: Attr, name: string)
    requires a.Signatures? || a.Status? || a.ApprovedBy? || a.Source? ||
      a.Reason? || a.ArtifactHash? || a.StorageUri? || a.SizeBytes?
    requires Spelling4(a) == name
    ensures Called(a, name)
  {
    hide Spelling4;
  }

  lemma Names4()
    ensures Called(Signatures, "signatures") && Called(Status, "status")
    ensures Called(ApprovedBy, "approved_by") && Called(Source, "source")
  {
    hide Called;
    Call4(Signatures, "signatures"); Call4(Status, "status");
    Call4(ApprovedBy, "approved_by"); Call4(Source, "source");
  }

  lemma MoreNames4()
    ensures Called(Reason, "reason") && Called(ArtifactHash, "artifact_hash")
    ensures Called(StorageUri, "storage_uri") && Called(SizeBytes, "size_bytes")
  {
    hide Called;
    Call4(Reason, "reason"); Call4(ArtifactHash, "artifact_hash");
    Call4(StorageUri, "storage_uri"); Call4(SizeBytes, "size_bytes");
  }

  lemma AllNames()
    ensures Called(Id, "id") && Called(Revision, "revision")
    ensures Called(CreatedAt, "created_at") && Called(ApprovedAt, "approved_at")
    ensures Called(ApprovalId, "approval_id") && Called(ControlLevel, "control_level")
    ensures Called(ComplianceBundleId, "compliance_bundle_id") && Called(DraftId, "draft_id")
    ensures Called(Policies, "policies") && Called(Artifacts, "artifacts")
    ensures Called(HotReload, "hot_reload") && Called(Data, "data")
    ensures Called(TestFixtures, "policyTestFixtures") && Called(BundleId, "bundle_id")
    ensures Called(Alg, "alg") && Called(DetachedKeyId, "keyid")
    ensures Called(KeyId, "key_id") && Called(Sig, "sig")
    ensures Called(PayloadHash, "payload_hash") && Called(PublicKeyPem, "public_key_pem")
    ensures Called(PublicKeyRaw, "public_key_raw_base64url") && Called(SignedBy, "signed_by")
    ensures Called(SignedAt, "signed_at") && Called(ApprovalSource, "approval_source")
    ensures Called(VerificationStatus, "verification_status") && Called(Generation, "generation")
    ensures Called(Signature, "signature") && Called(TenantId, "tenant_id")
    ensures Called(ApprovalRecord, "approval_record") && Called(Signed, "signed")
    ensures Called(SignatureStatus, "signature_status") && Called(ManifestHash, "manifest_hash")
    ensures Called(Signatures, "signatures") && Called(Status, "status")
    ensures Called(ApprovedBy, "approved_by") && Called(Source, "source")
    ensures Called(Reason, "reason") && Called(ArtifactHash, "artifact_hash")
    ensures Called(StorageUri, "storage_uri") && Called(SizeBytes, "size_bytes")
  {
    hide Called;
    Names0();
    Names1(); MoreNames1();
    Names2(); MoreNames2();
    Names3(); MoreNames3();
    Names4(); MoreNames4();
  }
}
