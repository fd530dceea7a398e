/**
Bundles and ledger records as the documents a snapshot stores, and read back; so that a restart
through the row store brings back the state that the runs of the signing spine continue from.
*/
module BundleDocuments {
  import opened Text
  import opened Json
  import opened Options
  import opened Manifest
  import opened Signing
  import opened SigningRuns
  import opened PropertyNames
  import opened RowStore
  import Restart

  /* ---- objects by attribute ---- */

  /** The value of each property, if it has one. */
  type Attrs = Attr -> Option<Json>

  function Present(v: Attrs): (s: set<Attr>)
    ensures forall a: Attr :: a in s <==> v(a).Some?
  {
    set a: Attr | v(a).Some?
  }

  /** One member for every property that has a value. */
  function Properties(v: Attrs): (m: map<Text, Json>)
    ensures forall a: Attr | v(a).Some? :: PropertyName(a) in m && m[PropertyName(a)] == v(a).value
    ensures forall a: Attr | v(a).None? :: PropertyName(a) !in m
  {
    hide PropertyName;
    assert forall a: Attr, b: Attr | PropertyName(a) == PropertyName(b) :: a == b by {
      forall a: Attr, b: Attr | PropertyName(a) == PropertyName(b) ensures a == b { NamesDiffer(a, b); }
    }
    map a | a in Present(v) :: PropertyName(a) := v(a).value
  }

  function Doc(v: Attrs): Json {
    Obj(Properties(v))
  }

  /** The properties of a document. */
  function Read(doc: Json): Attrs {
    (a: Attr) => if doc.Obj? && PropertyName(a) in doc.members then Some(doc.members[PropertyName(a)]) else None
  }

  lemma ReadDoc(v: Attrs)
    ensures forall a :: Read(Doc(v))(a) == v(a)
  {
    hide PropertyName, Properties;
    assert forall a: Attr | v(a).None? :: PropertyName(a) !in Properties(v);
    forall a: Attr ensures Read(Doc(v))(a) == v(a) { if v(a).Some? { assert PropertyName(a) in Properties(v); } }
  }

  function TextIn(v: Option<Json>): Text {
    if v.Some? && v.value.Str? then v.value.text else []
  }

  lemma TextsBack()
    ensures forall t: Text :: TextIn(Some(Str(t))) == t
  {}

  function ItemsIn(v: Option<Json>): seq<Json> {
    if v.Some? && v.value.Arr? then v.value.items else []
  }

  function IntIn(v: Option<Json>): Option<int> {
    if v.None? || !v.value.Num? then None
    else if v.value.numeral[0] == 0x2D then
      var n := Restart.Natural(v.value.numeral[1..]);
      if n.None? then None else (var i: int := n.value; Some(-i))
    else
      var n := Restart.Natural(v.value.numeral);
      if n.None? then None else (var i: int := n.value; Some(i))
  }

  lemma IntBack(n: int)
    ensures IntIn(Some(Int(n))) == Some(n)
  {
    if n >= 0 {
      Restart.ParseDigitsOfNat(n);
      assert Digits(n)[0] >= 0x30;
    } else {
      Restart.ParseDigitsOfNat(-n);
      assert ([0x2D] + Digits(-n))[1..] == Digits(-n);
    }
  }

  function OptInt(n: Option<int>): Option<Json> {
    if n.Some? then Some(Int(n.value)) else None
  }

  lemma OptIntBack(n: Option<int>)
    ensures IntIn(OptInt(n)) == n
  {
    hide Int;
    if n.Some? { IntBack(n.value); }
  }

  /* ---- approvals and ledger records ---- */

  function ApprovalAttrs(p: Approval): Attrs {
    (a: Attr) =>
      match a
      case Id => Some(Str(p.id))
      case TenantId => Some(Str(p.tenantId))
      case Status => Some(Str(p.status))
      case ApprovedBy => Some(Str(p.approvedBy))
      case ApprovedAt => Some(Str(p.approvedAt))
      case Source => Some(Str(p.source))
      case Reason => Some(Str(p.reason))
      case _ => None
  }

  function ApprovalFrom(v: Attrs): Approval {
    Approval(TextIn(v(Attr.Id)), TextIn(v(Attr.TenantId)), TextIn(v(Attr.Status)), TextIn(v(Attr.ApprovedBy)),
      TextIn(v(Attr.ApprovedAt)),
      TextIn(v(Attr.Source)), TextIn(v(Attr.Reason)))
  }

  lemma ApprovalBack(p: Approval)
    ensures ApprovalFrom(Read(Doc(ApprovalAttrs(p)))) == p
  {
    hide Read, Doc;
    ReadDoc(ApprovalAttrs(p));
  }

  function RecordAttrs(r: SigRecord): Attrs {
    (a: Attr) =>
      match a
      case Id => Some(Str(r.id))
      case TenantId => Some(Str(r.tenantId))
      case BundleId => Some(Str(r.bundleId))
      case Revision => Some(Str(r.revision))
      case Generation => OptInt(r.generation)
      case Alg => Some(Str(r.alg))
      case DetachedKeyId => Some(Str(r.keyid))
      case KeyId => Some(Str(r.keyId))
      case Sig => Some(Str(r.sig))
      case Signature => Some(Str(r.legacySig))
      case PayloadHash => Some(Str(r.payloadHash))
      case PublicKeyPem => Some(Str(r.publicKeyPem))
      case PublicKeyRaw => Some(Str(r.publicKeyRaw))
      case SignedBy => Some(Str(r.signedBy))
      case SignedAt => Some(Str(r.signedAt))
      case ApprovalId => Some(Str(r.approvalId))
      case ApprovalSource => Some(Str(r.approvalSource))
      case VerificationStatus => Some(Str(r.verificationStatus))
      case _ => None
  }

  function RecordFrom(v: Attrs): SigRecord {
    SigRecord(TextIn(v(Attr.Id)), TextIn(v(Attr.TenantId)), TextIn(v(Attr.BundleId)), TextIn(v(Attr.Revision)),
      IntIn(v(Attr.Generation)),
      TextIn(v(Attr.Alg)), TextIn(v(Attr.DetachedKeyId)), TextIn(v(Attr.KeyId)), TextIn(v(Attr.Sig)),
      TextIn(v(Attr.Signature)), TextIn(v(Attr.PayloadHash)), TextIn(v(Attr.PublicKeyPem)),
      TextIn(v(Attr.PublicKeyRaw)), TextIn(v(Attr.SignedBy)), TextIn(v(Attr.SignedAt)),
      TextIn(v(Attr.ApprovalId)), TextIn(v(Attr.ApprovalSource)), TextIn(v(Attr.VerificationStatus)))
  }

  lemma RecordNamed(r: SigRecord)
    ensures RecordAttrs(r)(Attr.Id) == Some(Str(r.id))
    ensures RecordAttrs(r)(Attr.TenantId) == Some(Str(r.tenantId))
    ensures RecordAttrs(r)(Attr.BundleId) == Some(Str(r.bundleId))
    ensures RecordAttrs(r)(Attr.Revision) == Some(Str(r.revision))
    ensures RecordAttrs(r)(Attr.Generation) == OptInt(r.generation)
  {
    hide OptInt;
  }

  lemma RecordSigned(r: SigRecord)
    ensures RecordAttrs(r)(Attr.Alg) == Some(Str(r.alg))
    ensures RecordAttrs(r)(Attr.DetachedKeyId) == Some(Str(r.keyid))
    ensures RecordAttrs(r)(Attr.KeyId) == Some(Str(r.keyId))
    ensures RecordAttrs(r)(Attr.Sig) == Some(Str(r.sig))
    ensures RecordAttrs(r)(Attr.Signature) == Some(Str(r.legacySig))
  {
    hide OptInt;
  }

  lemma RecordKeyed(r: SigRecord)
    ensures RecordAttrs(r)(Attr.PayloadHash) == Some(Str(r.payloadHash))
    ensures RecordAttrs(r)(Attr.PublicKeyPem) == Some(Str(r.publicKeyPem))
    ensures RecordAttrs(r)(Attr.PublicKeyRaw) == Some(Str(r.publicKeyRaw))
    ensures RecordAttrs(r)(Attr.SignedBy) == Some(Str(r.signedBy))
  {
    hide OptInt;
  }

  lemma RecordApproved(r: SigRecord)
    ensures RecordAttrs(r)(Attr.SignedAt) == Some(Str(r.signedAt))
    ensures RecordAttrs(r)(Attr.ApprovalId) == Some(Str(r.approvalId))
    ensures RecordAttrs(r)(Attr.ApprovalSource) == Some(Str(r.approvalSource))
    ensures RecordAttrs(r)(Attr.VerificationStatus) == Some(Str(r.verificationStatus))
  {
    hide OptInt;
  }

  lemma RecordBack(r: SigRecord)
    ensures RecordFrom(Read(Doc(RecordAttrs(r)))) == r
  {
    hide Read, Doc, IntIn, OptInt, TextIn, RecordAttrs;
    ReadDoc(RecordAttrs(r));
    RecordNamed(r);
    RecordSigned(r);
    RecordKeyed(r);
    RecordApproved(r);
    OptIntBack(r.generation);
    TextsBack();
  }

  function RecordDocs(rs: seq<SigRecord>): seq<Json> {
    seq(|rs|, i requires 0 <= i < |rs| => Doc(RecordAttrs(rs[i])))
  }

  function RecordsFrom(docs: seq<Json>): seq<SigRecord> {
    seq(|docs|, i requires 0 <= i < |docs| => RecordFrom(Read(docs[i])))
  }

  lemma RecordsBack(rs: seq<SigRecord>)
    ensures RecordsFrom(RecordDocs(rs)) == rs
  {
    hide Doc, Read, RecordAttrs, RecordFrom;
    forall i | 0 <= i < |rs| ensures RecordsFrom(RecordDocs(rs))[i] == rs[i] { RecordBack(rs[i]); }
  }

  function ArtifactAttrs(r: ArtifactRecord): Attrs {
    (a: Attr) =>
      match a
      case Id => Some(Str(r.id))
      case TenantId => Some(Str(r.tenantId))
      case BundleId => Some(Str(r.bundleId))
      case Revision => Some(Str(r.revision))
      case ArtifactHash => Some(Str(r.artifactHash))
      case StorageUri => Some(Str(r.storageUri))
      case SizeBytes => Some(Int(r.sizeBytes))
      case CreatedAt => Some(Str(r.createdAt))
      case _ => None
  }

  function ArtifactFrom(v: Attrs): ArtifactRecord {
    var size := IntIn(v(Attr.SizeBytes));
    ArtifactRecord(TextIn(v(Attr.Id)), TextIn(v(Attr.TenantId)), TextIn(v(Attr.BundleId)), TextIn(v(Attr.Revision)),
      TextIn(v(Attr.ArtifactHash)),
      TextIn(v(Attr.StorageUri)), if size.Some? && size.value >= 0 then size.value else 0, TextIn(v(Attr.CreatedAt)))
  }

  lemma ArtifactBack(r: ArtifactRecord)
    ensures ArtifactFrom(Read(Doc(ArtifactAttrs(r)))) == r
  {
    hide Read, Doc, Int, IntIn;
    ReadDoc(ArtifactAttrs(r));
    IntBack(r.sizeBytes);
  }

  function ArtifactDocs(rs: seq<ArtifactRecord>): seq<Json> {
    seq(|rs|, i requires 0 <= i < |rs| => Doc(ArtifactAttrs(rs[i])))
  }

  function ArtifactsFrom(docs: seq<Json>): seq<ArtifactRecord> {
    seq(|docs|, i requires 0 <= i < |docs| => ArtifactFrom(Read(docs[i])))
  }

  lemma ArtifactsBack(rs: seq<ArtifactRecord>)
    ensures ArtifactsFrom(ArtifactDocs(rs)) == rs
  {
    hide Doc, Read, ArtifactAttrs, ArtifactFrom;
    forall i | 0 <= i < |rs| ensures ArtifactsFrom(ArtifactDocs(rs))[i] == rs[i] { ArtifactBack(rs[i]); }
  }

  /* ---- bundles ---- */

  /** Only the number of test fixtures is part of a bundle here, so each stands as null. */
  function Fixtures(n: nat): Json {
    Arr(seq(n, i => Null))
  }

  function ContentAttrs(c: Content): Attrs {
    (a: Attr) =>
      match a
      case Id => Some(Str(c.id))
      case Revision => Some(Str(c.revision))
      case CreatedAt => Some(Str(c.createdAt))
      case ApprovedAt => Some(Str(c.approvedAt))
      case ApprovalId => Some(Str(c.approvalId))
      case ControlLevel => Some(Str(c.controlLevel))
      case ComplianceBundleId => Some(Str(c.complianceBundleId))
      case DraftId => Some(Str(c.draftId))
      case Policies => Some(Arr(c.policies))
      case Artifacts => Some(Arr(c.artifacts))
      case HotReload => if c.hotReload.Some? then Some(Bool(c.hotReload.value)) else None
      case Data => c.data
      case TestFixtures => Some(Fixtures(c.testFixtures))
      case _ => None
  }

  function ContentFrom(v: Attrs): Content {
    Content(TextIn(v(Attr.Id)), TextIn(v(Attr.Revision)), TextIn(v(Attr.CreatedAt)), TextIn(v(Attr.ApprovedAt)),
      TextIn(v(Attr.ApprovalId)),
      TextIn(v(Attr.ControlLevel)), TextIn(v(Attr.ComplianceBundleId)), TextIn(v(Attr.DraftId)),
      ItemsIn(v(Attr.Policies)),
      ItemsIn(v(Attr.Artifacts)),
      if v(Attr.HotReload).Some? && v(Attr.HotReload).value.Bool? then Some(v(Attr.HotReload).value.b) else None,
      v(Attr.Data), |ItemsIn(v(Attr.TestFixtures))|)
  }

  lemma ContentAttrsAre(c: Content)
    ensures ContentAttrs(c)(Attr.Id) == Some(Str(c.id))
    ensures ContentAttrs(c)(Attr.Revision) == Some(Str(c.revision))
    ensures ContentAttrs(c)(Attr.CreatedAt) == Some(Str(c.createdAt))
    ensures ContentAttrs(c)(Attr.ApprovedAt) == Some(Str(c.approvedAt))
    ensures ContentAttrs(c)(Attr.ApprovalId) == Some(Str(c.approvalId))
    ensures ContentAttrs(c)(Attr.ControlLevel) == Some(Str(c.controlLevel))
    ensures ContentAttrs(c)(Attr.ComplianceBundleId) == Some(Str(c.complianceBundleId))
    ensures ContentAttrs(c)(Attr.DraftId) == Some(Str(c.draftId))
    ensures ContentAttrs(c)(Attr.Policies) == Some(Arr(c.policies))
    ensures ContentAttrs(c)(Attr.Artifacts) == Some(Arr(c.artifacts))
    ensures ContentAttrs(c)(Attr.HotReload) == if c.hotReload.Some? then Some(Bool(c.hotReload.value)) else None
    ensures ContentAttrs(c)(Attr.Data) == c.data
    ensures ContentAttrs(c)(Attr.TestFixtures) == Some(Fixtures(c.testFixtures))
  {
    hide Fixtures;
  }

  /** The properties of a bundle: those that signing writes, and its content. */
  function BundleAttrs(b: Bundle): Attrs {
    (a: Attr) =>
      match a
      case TenantId => Some(Str(b.core.tenantId))
      case ApprovalRecord => if b.core.approval.Some? then Some(Doc(ApprovalAttrs(b.core.approval.value))) else None
      case Generation => OptInt(b.core.generation)
      case Signed => Some(Bool(b.signed))
      case SignatureStatus => Some(Str(b.signatureStatus))
      case ManifestHash => Some(Str(b.manifestHash))
      case Signature => if b.signature.Some? then Some(Doc(RecordAttrs(b.signature.value))) else None
      case Signatures => if b.signatures.Some? then Some(Arr(RecordDocs(b.signatures.value))) else None
      case _ => ContentAttrs(b.core.content)(a)
  }

  function BundleFrom(v: Attrs): Bundle {
    Bundle(
      Core(ContentFrom(v), TextIn(v(Attr.TenantId)),
        if v(Attr.ApprovalRecord).Some? then Some(ApprovalFrom(Read(v(Attr.ApprovalRecord).value))) else None,
        IntIn(v(Attr.Generation))),
      v(Attr.Signed) == Some(Bool(true)), TextIn(v(Attr.SignatureStatus)), TextIn(v(Attr.ManifestHash)),
      if v(Attr.Signature).Some? then Some(RecordFrom(Read(v(Attr.Signature).value))) else None,
      if v(Attr.Signatures).Some? && v(Attr.Signatures).value.Arr?
        then Some(RecordsFrom(v(Attr.Signatures).value.items)) else None)
  }

  lemma StateAttrsAre(b: Bundle)
    ensures BundleAttrs(b)(Attr.TenantId) == Some(Str(b.core.tenantId))
    ensures BundleAttrs(b)(Attr.ApprovalRecord) ==
      if b.core.approval.Some? then Some(Doc(ApprovalAttrs(b.core.approval.value))) else None
    ensures BundleAttrs(b)(Attr.Generation) == OptInt(b.core.generation)
    ensures BundleAttrs(b)(Attr.Signed) == Some(Bool(b.signed))
    ensures BundleAttrs(b)(Attr.SignatureStatus) == Some(Str(b.signatureStatus))
    ensures BundleAttrs(b)(Attr.ManifestHash) == Some(Str(b.manifestHash))
    ensures BundleAttrs(b)(Attr.Signature) ==
      if b.signature.Some? then Some(Doc(RecordAttrs(b.signature.value))) else None
    ensures BundleAttrs(b)(Attr.Signatures) ==
      if b.signatures.Some? then Some(Arr(RecordDocs(b.signatures.value))) else None
  {
    hide Doc, RecordAttrs, RecordDocs, ApprovalAttrs, OptInt, ContentAttrs;
  }

  lemma ContentAttrsPass(b: Bundle)
    ensures BundleAttrs(b)(Attr.Id) == ContentAttrs(b.core.content)(Attr.Id)
    ensures BundleAttrs(b)(Attr.Revision) == ContentAttrs(b.core.content)(Attr.Revision)
    ensures BundleAttrs(b)(Attr.CreatedAt) == ContentAttrs(b.core.content)(Attr.CreatedAt)
    ensures BundleAttrs(b)(Attr.ApprovedAt) == ContentAttrs(b.core.content)(Attr.ApprovedAt)
    ensures BundleAttrs(b)(Attr.ApprovalId) == ContentAttrs(b.core.content)(Attr.ApprovalId)
    ensures BundleAttrs(b)(Attr.ControlLevel) == ContentAttrs(b.core.content)(Attr.ControlLevel)
    ensures BundleAttrs(b)(Attr.ComplianceBundleId) == ContentAttrs(b.core.content)(Attr.ComplianceBundleId)
    ensures BundleAttrs(b)(Attr.DraftId) == ContentAttrs(b.core.content)(Attr.DraftId)
    ensures BundleAttrs(b)(Attr.Policies) == ContentAttrs(b.core.content)(Attr.Policies)
    ensures BundleAttrs(b)(Attr.Artifacts) == ContentAttrs(b.core.content)(Attr.Artifacts)
    ensures BundleAttrs(b)(Attr.HotReload) == ContentAttrs(b.core.content)(Attr.HotReload)
    ensures BundleAttrs(b)(Attr.Data) == ContentAttrs(b.core.content)(Attr.Data)
    ensures BundleAttrs(b)(Attr.TestFixtures) == ContentAttrs(b.core.content)(Attr.TestFixtures)
  {
    hide Doc, RecordAttrs, RecordDocs, ApprovalAttrs, OptInt, ContentAttrs;
  }

  lemma ContentBack(b: Bundle, v: Attrs)
    requires forall a :: v(a) == BundleAttrs(b)(a)
    ensures ContentFrom(v) == b.core.content
  {
    hide BundleAttrs, ContentAttrs, TextIn, Fixtures;
    ContentAttrsPass(b);
    ContentAttrsAre(b.core.content);
    TextsBack();
    assert |ItemsIn(Some(Fixtures(b.core.content.testFixtures)))| == b.core.content.testFixtures by {
      FixturesBack(b.core.content.testFixtures);
    }
  }

  lemma FixturesBack(n: nat)
    ensures |ItemsIn(Some(Fixtures(n)))| == n
  {}

  lemma StateBack(b: Bundle, v: Attrs)
    requires forall a :: v(a) == BundleAttrs(b)(a)
    ensures BundleFrom(v) == b.(core := b.core.(content := ContentFrom(v)))
  {
    hide BundleAttrs, Doc, Read, RecordAttrs, RecordFrom, ApprovalAttrs, ApprovalFrom, OptInt, IntIn, RecordDocs,
      RecordsFrom;
    hide ContentFrom, TextIn;
    StateAttrsAre(b);
    TextsBack();
    if b.core.approval.Some? { ApprovalBack(b.core.approval.value); }
    OptIntBack(b.core.generation);
    if b.signature.Some? { RecordBack(b.signature.value); }
    if b.signatures.Some? { RecordsBack(b.signatures.value); }
  }

  /** A stored bundle reads back as itself. */
  lemma BundleBack(b: Bundle)
    ensures BundleFrom(Read(Doc(BundleAttrs(b)))) == b
  {
    hide Doc, Read, BundleAttrs, BundleFrom, ContentFrom;
    ReadDoc(BundleAttrs(b));
    ContentBack(b, Read(Doc(BundleAttrs(b))));
    StateBack(b, Read(Doc(BundleAttrs(b))));
  }

  function BundleDocs(bs: seq<Bundle>): seq<Json> {
    seq(|bs|, i requires 0 <= i < |bs| => Doc(BundleAttrs(bs[i])))
  }

  function BundlesFrom(docs: seq<Json>): seq<Bundle> {
    seq(|docs|, i requires 0 <= i < |docs| => BundleFrom(Read(docs[i])))
  }

  lemma BundlesBack(bs: seq<Bundle>)
    ensures BundlesFrom(BundleDocs(bs)) == bs
  {
    hide Doc, Read, BundleAttrs, BundleFrom;
    forall i | 0 <= i < |bs| ensures BundlesFrom(BundleDocs(bs))[i] == bs[i] { BundleBack(bs[i]); }
  }

  /* ---- restart ---- */

  ghost predicate HasLists(st: Restart.State) {
    "policyBundles" in st.fleet && "policyBundleSignatures" in st.fleet && "policyBundleArtifacts" in st.fleet
  }

  /** The runtime state holds these bundles and this fleet. */
  ghost predicate Holds(st: Restart.State, saved: Saved) {
    && HasLists(st)
    && st.fleet["policyBundles"] == BundleDocs(saved.bundles)
    && st.fleet["policyBundleSignatures"] == RecordDocs(saved.fleet.signatures)
    && st.fleet["policyBundleArtifacts"] == ArtifactDocs(saved.fleet.artifacts)
    && st.bundleGeneration == saved.fleet.bundleGeneration
  }

  /** The bundles and the fleet that a process works with, read from its runtime state. */
  function Loaded(st: Restart.State): Saved
    requires HasLists(st)
  {
    Saved(BundlesFrom(st.fleet["policyBundles"]),
      Fleet(st.bundleGeneration, RecordsFrom(st.fleet["policyBundleSignatures"]),
        ArtifactsFrom(st.fleet["policyBundleArtifacts"])))
  }

  lemma HeldIsLoaded(st: Restart.State, saved: Saved)
    requires Holds(st, saved)
    ensures Loaded(st) == saved
  {
    hide BundleDocs, BundlesFrom, RecordDocs, RecordsFrom, ArtifactDocs, ArtifactsFrom;
    BundlesBack(saved.bundles);
    RecordsBack(saved.fleet.signatures);
    ArtifactsBack(saved.fleet.artifacts);
  }

  /** Where a crash of a run leaves the signing state, as a restarted process reads it. */
  ghost predicate Resumes(st: Restart.State, w: World, env: Env, n: nat) {
    var w' := Exec(w, Crash(env, n));
    HasLists(st) && Loaded(st) == Saved(w'.bundles, w'.fleet)
  }

  /**
  A restart through the row store, whatever order the rows come back in, resumes in the state that the
  runs of the signing spine continue from after a crash to the n-th snapshot.
  */
  lemma RestartResumes(boot: Restart.State, st: Restart.State, keys: seq<string>, window: nat, rows: seq<Row>,
                       w: World, env: Env, n: nat)
    requires Restart.KeyList(keys) && Restart.FreshBoot(boot, keys) && Restart.Live(st, keys)
    requires n < |w.saved| && Holds(st, w.saved[n])
    requires multiset(rows) == multiset(SnapshotToRows(Restart.SnapshotOf(st, keys), Restart.Persisted(keys)))
    ensures Resumes(Restart.Apply(boot, RowsToSnapshot(rows), keys, window), w, env, n)
  {
    hide BundleDocs, BundlesFrom, RecordDocs, RecordsFrom, ArtifactDocs, ArtifactsFrom, RowsToSnapshot, SnapshotToRows;
    hide Restart.SnapshotOf, Restart.Apply, Restart.Persisted, Restart.First, Restart.Last, Restart.FreshBoot;
    Restart.RestartFromRows(boot, st, keys, window, rows);
    HeldIsLoaded(st, w.saved[n]);
  }

  /** So does a restart through the snapshot file. */
  lemma FileRestartResumes(boot: Restart.State, st: Restart.State, keys: seq<string>, window: nat,
                           w: World, env: Env, n: nat)
    requires Restart.KeyList(keys) && Restart.FreshBoot(boot, keys) && Restart.Live(st, keys)
    requires n < |w.saved| && Holds(st, w.saved[n])
    ensures Resumes(Restart.Apply(boot, Restart.SnapshotOf(st, keys), keys, window), w, env, n)
  {
    hide BundleDocs, BundlesFrom, RecordDocs, RecordsFrom, ArtifactDocs, ArtifactsFrom;
    hide Restart.SnapshotOf, Restart.Apply, Restart.Persisted, Restart.First, Restart.Last, Restart.FreshBoot;
    Restart.RestartFromFile(boot, st, keys, window);
    HeldIsLoaded(st, w.saved[n]);
  }
}
