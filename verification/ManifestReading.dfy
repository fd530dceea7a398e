/**
What a reader of a manifest finds under each key, in terms of the bundle; and that every digest in it is the
hash of the canonical text of what it names.
*/
module ManifestReading {
  import opened Text
  import opened Json
  import opened Options
  import opened Manifest

  /** The value under a key, null when there is none. */
  function Under(v: Json, k: string): Json {
    if v.Obj? && L(k) in v.members then v.members[L(k)] else Null
  }

  function Item(v: Json, i: nat): Json {
    if v.Arr? && i < |v.items| then v.items[i] else Null
  }

  /** The hash of the canonical text of a value. */
  function Digest(env: Env, v: Json): Json {
    Str((env.sha256)(StableJson(v)))
  }

  /** A text of the bundle, with a default where it is missing. */
  function TextOr(t: Text, fallback: string): Text {
    if t != [] then t else L(fallback)
  }

  /* ---- objects with few members ---- */

  /** Names that differ in length, or in their first or eighth character. */
  predicate Apart(a: string, b: string) {
    |a| != |b| || DifferAt(a, b, 0) || DifferAt(a, b, 7)
  }

  predicate DifferAt(a: string, b: string, i: nat) {
    i < |a| && i < |b| && a[i] != b[i] && a[i] as int < 128 && b[i] as int < 128
  }

  predicate AllApart(fields: seq<(string, Json)>) {
    forall i, j | 0 <= i < j < |fields| :: Apart(fields[i].0, fields[j].0)
  }

  lemma FieldAt(fields: seq<(string, Json)>, i: nat)
    requires AllApart(fields) && i < |fields|
    ensures Under(Object(fields), fields[i].0) == fields[i].1 && L(fields[i].0) in Object(fields).members
  {
    hide Members;
    forall j | i < j < |fields| ensures L(fields[j].0) != L(fields[i].0) { LApart(fields[i].0, fields[j].0); }
    MembersLast(fields, i);
  }

  lemma LApart(a: string, b: string)
    requires Apart(a, b)
    ensures L(a) != L(b)
  {
    if DifferAt(a, b, 0) { assert L(a)[0] != L(b)[0]; }
    if DifferAt(a, b, 7) { assert L(a)[7] != L(b)[7]; }
  }

  lemma AllFields(fields: seq<(string, Json)>)
    requires AllApart(fields)
    ensures forall i | 0 <= i < |fields| :: Under(Object(fields), fields[i].0) == fields[i].1
  {
    hide Members, AllApart;
    forall i | 0 <= i < |fields| ensures Under(Object(fields), fields[i].0) == fields[i].1 { FieldAt(fields, i); }
  }

  /* ---- the members of the manifest ---- */

  lemma Top(env: Env, b: Core, f: Field)
    requires !Added(f)
    ensures Under(Unsigned(env, b), Name(f)) == FieldValue(b, PartsOf(env, b), f)
  {
    hide FieldValue, PartsOf, Name, ManifestWith;
    MemberIs(b, PartsOf(env, b), f);
  }

  /** The tenant of a bundle: its own, else its approval's, else the local one. */
  function Tenant(b: Core): Text {
    if b.tenantId != [] then b.tenantId
    else if b.approval.Some? && b.approval.value.tenantId != [] then b.approval.value.tenantId
    else L("local")
  }

  /** Its id, revision and time, or what stands for them. */
  function Id(b: Core): Text { TextOr(b.content.id, "bnd_local_dev_baseline") }
  function Rev(b: Core): Text { TextOr(b.content.revision, "2026.06.29.001") }
  function At(b: Core): Text { TextOr(b.content.createdAt, "2026-06-29T00:00:00.000Z") }

  /** What the manifest says of the bundle itself: its names and times. */
  ghost predicate ShowsNames(m: Json, b: Core) {
    && Under(m, "manifest_version") == Str(L("1.0")) && Under(m, "schema_version") == Str(L("bundle-manifest.v2"))
    && Under(m, "bundle_id") == Str(Id(b)) && Under(m, "tenant_id") == Str(Tenant(b))
    && Under(m, "revision") == Str(Rev(b)) && Under(m, "created_at") == Str(At(b))
  }

  /** And its contents. */
  ghost predicate ShowsContent(m: Json, b: Core) {
    var c := b.content;
    && Under(m, "policies") == Arr(c.policies) && Under(m, "artifacts") == Arr(c.artifacts)
    && Under(m, "compliance_bundle_id") == (if c.complianceBundleId == [] then Null else Str(c.complianceBundleId))
    && Under(m, "hot_reload") == Bool(c.hotReload != Some(false))
    && Under(m, "signed_fields") == Arr([Str(L("policy.wasm")), Str(L("data.json"))])
    && Under(m, "generation") == Number(Counted(b.generation))
    && Under(m, "data") == DataOf(c)
  }

  /** A generation as it is shown: nothing and negative ones count as zero. */
  function Counted(g: Option<int>): nat {
    if g.Some? && g.value > 0 then g.value else 0
  }

  /** A data document that is an object or an array, else an empty object. */
  function DataOf(c: Content): Json {
    if c.data.Some? && (c.data.value.Obj? || c.data.value.Arr?) then c.data.value else Obj(map[])
  }

  function Number(n: nat): Json {
    var t := Digits(n);
    Num(t)
  }

  lemma NamesShown(env: Env, b: Core)
    ensures ShowsNames(Unsigned(env, b), b)
  {
    hide PartsOf, Unsigned, L, Under;
    Top(env, b, ManifestVersion);
    Top(env, b, SchemaVersion);
    Top(env, b, BundleIdField);
    Top(env, b, TenantIdField);
    Top(env, b, RevisionField);
    Top(env, b, CreatedAtField);
  }

  lemma ContentShown(env: Env, b: Core)
    ensures ShowsContent(Unsigned(env, b), b)
  {
    hide Unsigned, FieldValue, L, Under, Digits;
    ListsAt(env, b);
    FlagsAt(env, b);
    GenerationAt(env, b);
    DataAt(env, b);
  }

  lemma ListsAt(env: Env, b: Core)
    ensures var m := Unsigned(env, b);
      Under(m, "policies") == Arr(b.content.policies) && Under(m, "artifacts") == Arr(b.content.artifacts)
  {
    hide Unsigned, L, Under, PartsOf;
    Top(env, b, Policies);
    Top(env, b, Artifacts);
  }

  lemma FlagsAt(env: Env, b: Core)
    ensures var m, c := Unsigned(env, b), b.content;
      && Under(m, "compliance_bundle_id") == (if c.complianceBundleId == [] then Null else Str(c.complianceBundleId))
      && Under(m, "hot_reload") == Bool(c.hotReload != Some(false))
      && Under(m, "signed_fields") == Arr([Str(L("policy.wasm")), Str(L("data.json"))])
  {
    hide Unsigned, L, Under, Provenance, Sbom, Attestation, Object, DefaultApproval, TargetBlock, ApprovalBlock, Hash;
    Top(env, b, ComplianceBundleId);
    Top(env, b, HotReload);
    Top(env, b, SignedFields);
  }

  lemma GenerationAt(env: Env, b: Core)
    ensures Under(Unsigned(env, b), "generation") == Number(Counted(b.generation))
  {
    hide Unsigned, L, Under, PartsOf, Digits;
    Top(env, b, Generation);
  }

  lemma DataAt(env: Env, b: Core)
    ensures Under(Unsigned(env, b), "data") == DataOf(b.content)
  {
    hide Unsigned, L, Under, PartsOf;
    Top(env, b, Data);
  }

  /* ---- digests ---- */

  /** Every digest at the top of the manifest is that of the member it names. */
  ghost predicate DigestsMatch(env: Env, m: Json) {
    var h := Under(m, "source_hashes");
    && Under(m, "data_sha256") == Digest(env, Under(m, "data"))
    && Under(m, "sbom_sha256") == Digest(env, Under(m, "sbom"))
    && Under(h, "policies_sha256") == Digest(env, Under(m, "policies"))
    && Under(h, "artifacts_sha256") == Digest(env, Under(m, "artifacts"))
    && Under(h, "data_sha256") == Digest(env, Under(m, "data"))
    && Under(h, "sbom_sha256") == Digest(env, Under(m, "sbom"))
    && Under(h, "provenance_sha256") == Digest(env, Under(m, "provenance"))
    && Under(h, "attestation_sha256") == Digest(env, Under(m, "attestation"))
  }

  lemma EvidenceAt(env: Env, b: Core)
    ensures var m := Unsigned(env, b);
      && Under(m, "provenance") == Provenance(env, b) && Under(m, "sbom") == Sbom(env, b)
      && Under(m, "attestation") == Attestation(env, b)
      && Under(m, "target") == TargetBlock(TextOr(b.content.controlLevel, "Observe"))
  {
    hide Unsigned, L, Under, Provenance, Sbom, Attestation, Object, DefaultApproval, TargetBlock, ApprovalBlock, Hash;
    Top(env, b, ProvenanceField);
    Top(env, b, SbomField);
    Top(env, b, AttestationField);
    Top(env, b, Target);
  }

  lemma HashesAt(env: Env, b: Core)
    ensures var m, p, s, t := Unsigned(env, b), Provenance(env, b), Sbom(env, b), Attestation(env, b);
      && Under(m, "data_sha256") == Digest(env, DataOf(b.content)) && Under(m, "sbom_sha256") == Digest(env, s)
      && Under(m, "source_hashes") == Object(SourceHashFields(env, b, p, s, t))
  {
    hide Unsigned, L, Under, Provenance, Sbom, Attestation, Object, StableJson, DefaultApproval, TargetBlock;
    hide ApprovalBlock, SourceHashFields;
    Top(env, b, DataSha256);
    Top(env, b, SbomSha256);
    Top(env, b, SourceHashes);
  }

  lemma SourceHashesApart(env: Env, b: Core, p: Json, s: Json, t: Json)
    ensures AllApart(SourceHashFields(env, b, p, s, t))
  {
    hide Hash, DataDocument;
  }

  lemma SourceHashesRead(env: Env, b: Core, p: Json, s: Json, t: Json)
    ensures var h := Object(SourceHashFields(env, b, p, s, t));
      && Under(h, "policies_sha256") == Digest(env, Arr(b.content.policies))
      && Under(h, "artifacts_sha256") == Digest(env, Arr(b.content.artifacts))
      && Under(h, "data_sha256") == Digest(env, DataOf(b.content))
      && Under(h, "sbom_sha256") == Digest(env, s) && Under(h, "provenance_sha256") == Digest(env, p)
      && Under(h, "attestation_sha256") == Digest(env, t)
  {
    hide Under, Object, AllApart, StableJson, L;
    SourceHashesApart(env, b, p, s, t);
    var fs := SourceHashFields(env, b, p, s, t);
    FieldAt(fs, 0); FieldAt(fs, 1); FieldAt(fs, 2);
    FieldAt(fs, 3); FieldAt(fs, 4); FieldAt(fs, 5);
  }

  /** The digests of a manifest are the hashes of the canonical texts of the members they name. */
  lemma ManifestDigests(env: Env, b: Core)
    ensures DigestsMatch(env, Unsigned(env, b))
  {
    hide Unsigned, Under, Provenance, Sbom, Attestation, Object, SourceHashFields, Digest, TargetBlock;
    EvidenceAt(env, b);
    HashesAt(env, b);
    ListsAt(env, b);
    DataAt(env, b);
    SourceHashesRead(env, b, Provenance(env, b), Sbom(env, b), Attestation(env, b));
  }

  /* ---- target ---- */

  ghost predicate ShowsTarget(m: Json, b: Core) {
    var t := Under(m, "target");
    && Under(t, "control_level") == Str(TextOr(b.content.controlLevel, "Observe"))
    && Under(t, "pep_capabilities") == Arr([Str(L("mcp-stdio")), Str(L("http-proxy"))])
    && Under(Item(Under(t, "agent_selectors"), 0), "kind") == Str(L("label"))
    && Under(Item(Under(t, "agent_selectors"), 0), "value") == Str(L("managed=true"))
  }

  lemma TargetRead(level: Text)
    ensures var t := TargetBlock(level);
      && Under(t, "control_level") == Str(level)
      && Under(t, "pep_capabilities") == Arr([Str(L("mcp-stdio")), Str(L("http-proxy"))])
      && Under(Item(Under(t, "agent_selectors"), 0), "kind") == Str(L("label"))
      && Under(Item(Under(t, "agent_selectors"), 0), "value") == Str(L("managed=true"))
  {
    hide Under, Object, L;
    var fs := TargetFields(level);
    assert AllApart(fs);
    FieldAt(fs, 0); FieldAt(fs, 1); FieldAt(fs, 2);
    Read2("kind", S("label"), "value", S("managed=true"));
  }

  lemma TargetShown(env: Env, b: Core)
    ensures ShowsTarget(Unsigned(env, b), b)
  {
    hide Unsigned, Under, Provenance, Sbom, Attestation, Object, SourceHashFields, Digest, TargetBlock, L;
    EvidenceAt(env, b);
    TargetRead(TextOr(b.content.controlLevel, "Observe"));
  }

  /* ---- small objects ---- */

  lemma Read1(k: string, v: Json)
    ensures Under(Object([(k, v)]), k) == v && Object([(k, v)]) == Obj(map[L(k) := v])
  {
    assert Members([(k, v)]) == map[L(k) := v] by { assert [(k, v)][..0] == []; }
  }

  lemma Read2(k: string, v: Json, k2: string, v2: Json)
    requires Apart(k, k2)
    ensures var x := Object([(k, v), (k2, v2)]);
      Under(x, k) == v && Under(x, k2) == v2 && x == Obj(map[L(k) := v, L(k2) := v2])
  {
    LApart(k, k2);
    Read1(k, v);
    assert [(k, v), (k2, v2)][..1] == [(k, v)];
  }

  lemma Read3(k: string, v: Json, k2: string, v2: Json, k3: string, v3: Json)
    requires Apart(k, k2) && Apart(k, k3) && Apart(k2, k3)
    ensures var x := Object([(k, v), (k2, v2), (k3, v3)]);
      && Under(x, k) == v && Under(x, k2) == v2 && Under(x, k3) == v3
      && x == Obj(map[L(k) := v, L(k2) := v2, L(k3) := v3])
  {
    LApart(k, k3);
    LApart(k2, k3);
    Read2(k, v, k2, v2);
    assert [(k, v), (k2, v2), (k3, v3)][..2] == [(k, v), (k2, v2)];
  }

  /* ---- provenance ---- */

  /** A material: where it is, and the hash of its canonical text. */
  ghost predicate IsMaterial(env: Env, x: Json, b: Core, path: string, v: Json) {
    && Under(x, "uri") == Str(L("pollek-bundle://") + Id(b) + L(path))
    && Under(Under(x, "digest"), "sha256") == Digest(env, v)
  }

  ghost predicate ShowsMaterials(env: Env, p: Json, b: Core) {
    var ms := Under(p, "materials");
    && ms.Arr? && |ms.items| == 3
    && IsMaterial(env, ms.items[0], b, "/policies", Arr(b.content.policies))
    && IsMaterial(env, ms.items[1], b, "/artifacts", Arr(b.content.artifacts))
    && IsMaterial(env, ms.items[2], b, "/data.json", DataOf(b.content))
  }

  /** What was built, from what source, with what parameters. */
  ghost predicate ShowsInvocation(env: Env, p: Json, b: Core) {
    var v := Under(p, "invocation");
    var source := Under(v, "config_source");
    && Under(source, "uri") == Str(L("pollek-bundle://") + Id(b))
    && Under(source, "entry_point") == Str(L("signPolicyBundle"))
    && Under(Under(source, "digest"), "sha256") == Digest(env, Obj(map[
         L("id") := Str(Id(b)), L("revision") := Str(Rev(b)), L("policies") := Arr(b.content.policies)]))
    && Under(Under(v, "parameters"), "revision") == Str(Rev(b))
    && Under(Under(v, "parameters"), "tenant_id") == Str(Tenant(b))
    && Under(Under(v, "environment"), "builder_kind") == Str(L("cloud-contract-hub"))
  }

  ghost predicate ShowsBuild(env: Env, p: Json, b: Core) {
    var builder, meta := Under(p, "builder"), Under(p, "metadata");
    && Under(p, "schema_version") == Str(L("pollek.trust.bundle-provenance.v1"))
    && Under(p, "slsa_level") == Number(2)
    && Under(p, "build_type") == Str(L("https://pollek.cloud/buildtypes/policy-bundle@v1"))
    && Under(builder, "id") == Str(L("https://pollek.cloud/builders/contract-hub@") + env.cloudVersion)
    && Under(Under(builder, "version"), "cloud") == Str(env.cloudVersion)
    && Under(meta, "build_finished_on") == Str(At(b)) && Under(meta, "reproducible") == Bool(true)
    && Under(Under(meta, "completeness"), "parameters") == Bool(true)
    && Under(Under(meta, "completeness"), "environment") == Bool(false)
    && Under(Under(meta, "completeness"), "materials") == Bool(true)
  }

  lemma ProvenanceApart(env: Env, b: Core)
    ensures AllApart(ProvenanceFields(env, b))
  {
    hide Object, Material, Invocation, Builder, BundleUri, DataDocument, CreatedAt, L, Digits;
  }

  lemma MaterialRead(env: Env, b: Core, path: string, v: Json)
    ensures IsMaterial(env, Material(env, BundleUri(b) + L(path), v), b, path, v)
  {
    hide Object, Under, L, StableJson;
    Read1("sha256", Str(Hash(env, v)));
    Read2("uri", Str(BundleUri(b) + L(path)), "digest", Object([("sha256", Str(Hash(env, v)))]));
  }

  lemma MaterialsRead(env: Env, b: Core)
    ensures ShowsMaterials(env, Provenance(env, b), b)
  {
    hide Object, Under, L, StableJson, IsMaterial, Material, AllApart, Invocation, Builder, BundleUri, CreatedAt,
      Digits;
    ProvenanceApart(env, b);
    FieldAt(ProvenanceFields(env, b), 5);
    MaterialRead(env, b, "/policies", Arr(b.content.policies));
    MaterialRead(env, b, "/artifacts", Arr(b.content.artifacts));
    MaterialRead(env, b, "/data.json", DataDocument(b));
  }

  /** The object whose hash identifies the source of the build. */
  lemma SourceRead(env: Env, b: Core)
    ensures var x := Object([
        ("id", Str(BundleId(b))), ("revision", Str(Revision(b))), ("policies", Arr(b.content.policies))]);
      x == Obj(map[L("id") := Str(Id(b)), L("revision") := Str(Rev(b)), L("policies") := Arr(b.content.policies)])
  {
    hide Object, Under, L;
    Read3("id", Str(BundleId(b)), "revision", Str(Revision(b)), "policies", Arr(b.content.policies));
  }

  lemma InvocationRead(env: Env, b: Core)
    ensures ShowsInvocation(env, Provenance(env, b), b)
  {
    hide Object, Under, L, StableJson, Material, AllApart, Builder, Id, Rev, Tenant, DataDocument, CreatedAt, Digits;
    ProvenanceApart(env, b);
    FieldAt(ProvenanceFields(env, b), 4);
    SourceRead(env, b);
    var source := Object([
      ("id", Str(BundleId(b))), ("revision", Str(Revision(b))), ("policies", Arr(b.content.policies))]);
    var digest := Object([("sha256", Str(Hash(env, source)))]);
    var config := Object([("uri", Str(BundleUri(b))), ("digest", digest), ("entry_point", S("signPolicyBundle"))]);
    var inputs := Object([("revision", Str(Revision(b))), ("tenant_id", Str(TenantId(b)))]);
    var kind := Object([("builder_kind", S("cloud-contract-hub"))]);
    Read1("sha256", Str(Hash(env, source)));
    Read3("uri", Str(BundleUri(b)), "digest", digest, "entry_point", S("signPolicyBundle"));
    Read2("revision", Str(Revision(b)), "tenant_id", Str(TenantId(b)));
    Read1("builder_kind", S("cloud-contract-hub"));
    Read3("config_source", config, "parameters", inputs, "environment", kind);
    ReadingsAre(b);
    assert Under(Provenance(env, b), "invocation") == Invocation(env, b);
    hide BundleId, Revision, TenantId;
  }

  lemma ReadingsAre(b: Core)
    ensures Id(b) == BundleId(b) && Rev(b) == Revision(b) && At(b) == CreatedAt(b) && Tenant(b) == TenantId(b)
  {
    hide L;
  }

  lemma BuildRead(env: Env, b: Core)
    ensures ShowsBuild(env, Provenance(env, b), b)
  {
    hide Object, Under, L, StableJson, Material, AllApart, Invocation, At, DataDocument, Digits;
    ProvenanceApart(env, b);
    var fs := ProvenanceFields(env, b);
    FieldAt(fs, 0); FieldAt(fs, 1); FieldAt(fs, 2); FieldAt(fs, 3); FieldAt(fs, 6);
    var version := Object([("cloud", Str(env.cloudVersion))]);
    Read1("cloud", Str(env.cloudVersion));
    Read2("id", Str(Builder(env)), "version", version);
    var complete := Object([("parameters", Bool(true)), ("environment", Bool(false)), ("materials", Bool(true))]);
    Read3("parameters", Bool(true), "environment", Bool(false), "materials", Bool(true));
    Read3("build_finished_on", Str(CreatedAt(b)), "reproducible", Bool(true), "completeness", complete);
    ReadingsAre(b);
    hide CreatedAt;
  }

  /** The provenance names the build, its source and its materials, each with its hash. */
  lemma ProvenanceShown(env: Env, b: Core)
    ensures var p := Under(Unsigned(env, b), "provenance");
      ShowsBuild(env, p, b) && ShowsInvocation(env, p, b) && ShowsMaterials(env, p, b)
  {
    hide Unsigned, Under, Provenance, Sbom, Attestation, ShowsBuild, ShowsInvocation, ShowsMaterials, TargetBlock, L;
    EvidenceAt(env, b);
    BuildRead(env, b);
    InvocationRead(env, b);
    MaterialsRead(env, b);
  }

  /* ---- bill of materials ---- */

  /** A value that JavaScript takes for true. */
  predicate Given(v: Json) {
    v != Null && v != Bool(false) && v != Str([]) && v != Num([0x30])
  }

  /** The policy names the engine, under "engines" or, when nothing is there, under "engine". */
  ghost predicate NamesEngine(p: Json, engine: Text) {
    var v := if Given(Under(p, "engines")) then Under(p, "engines") else Under(p, "engine");
    Given(v) && (v == Str(engine) || (v.Arr? && Str(engine) in v.items))
  }

  ghost predicate Named(policies: seq<Json>, engine: Text) {
    exists i :: 0 <= i < |policies| && NamesEngine(policies[i], engine)
  }

  /** Exactly the engines that the policies name, each once and in order. */
  ghost predicate ListsEngines(engines: seq<Text>, policies: seq<Json>) {
    && (forall e :: e in engines <==> Named(policies, e))
    && (forall i, j | 0 <= i < j < |engines| :: engines[i] != engines[j] && Leq(engines[i], engines[j]))
  }

  ghost predicate IsEngine(x: Json, engine: Text) {
    && Under(x, "type") == Str(L("library")) && Under(x, "version") == Str(L("runtime"))
    && Under(x, "bom-ref") == Str(L("pkg:pollek/policy-engine/") + engine)
    && Under(x, "name") == Str(L("policy-engine-") + engine)
  }

  /** The first component is the bundle itself, with the hash of its policies and artifacts. */
  ghost predicate IsBundle(env: Env, x: Json, b: Core) {
    && Under(x, "type") == Str(L("application")) && Under(x, "name") == Str(L("pollek-policy-bundle"))
    && Under(x, "version") == Str(Rev(b))
    && Under(x, "bom-ref") == Str(L("pkg:pollek/policy-bundle/") + Id(b) + L("@") + Rev(b))
    && Under(Item(Under(x, "hashes"), 0), "alg") == Str(L("SHA-256"))
    && Under(Item(Under(x, "hashes"), 0), "content") == Digest(env,
         Obj(map[L("policies") := Arr(b.content.policies), L("artifacts") := Arr(b.content.artifacts)]))
  }

  ghost predicate ShowsComponents(env: Env, s: Json, b: Core) {
    var x := Under(s, "components");
    && x.Arr? && x.items != [] && IsBundle(env, x.items[0], b)
    && exists engines ::
         && ListsEngines(engines, b.content.policies) && |x.items| == 1 + |engines|
         && forall i | 0 <= i < |engines| :: IsEngine(x.items[i + 1], engines[i])
  }

  ghost predicate ShowsTool(env: Env, s: Json, b: Core) {
    var meta := Under(s, "metadata");
    var tool, made := Item(Under(meta, "tools"), 0), Under(meta, "component");
    && Under(meta, "timestamp") == Str(At(b))
    && Under(tool, "vendor") == Str(L("Pollek")) && Under(tool, "name") == Str(L("cloud-contract-hub"))
    && Under(tool, "version") == Str(env.cloudVersion)
    && Under(made, "type") == Str(L("application")) && Under(made, "name") == Str(L("pollek-policy-bundle"))
    && Under(made, "version") == Str(Rev(b))
  }

  /** A hash of at least 32 digits cut into a serial number. */
  function Serial(h: Text): Text
    requires |h| >= 32
  {
    L("urn:uuid:") + h[..8] + L("-") + h[8..12] + L("-") + h[12..16] + L("-") + h[16..20] + L("-") + h[20..32]
  }

  ghost predicate ShowsSerial(env: Env, s: Json, b: Core) {
    var seed := (env.sha256)(StableJson(Obj(map[
      L("bundleId") := Str(Id(b)), L("revision") := Str(Rev(b)), L("components") := Under(s, "components")])));
    && Under(s, "bomFormat") == Str(L("CycloneDX")) && Under(s, "specVersion") == Str(L("1.5"))
    && Under(s, "version") == Number(1)
    && (|seed| >= 32 ==> Under(s, "serialNumber") == Str(Serial(seed)))
  }

  lemma SbomApart(env: Env, b: Core)
    ensures AllApart(SbomFields(env, b))
  {
    hide Object, SerialNumber, Components, CreatedAt, Revision, L, Digits;
  }

  lemma SerialCut(env: Env, b: Core)
    ensures var seed := (env.sha256)(StableJson(Obj(map[
        L("bundleId") := Str(Id(b)), L("revision") := Str(Rev(b)), L("components") := Arr(Components(env, b))])));
      |seed| >= 32 ==> SerialNumber(env, b) == Serial(seed)
  {
    hide Object, Under, L, StableJson, Components;
    Read3("bundleId", Str(BundleId(b)), "revision", Str(Revision(b)), "components", Arr(Components(env, b)));
    ReadingsAre(b);
    hide BundleId, Revision, Id, Rev;
  }

  lemma SerialRead(env: Env, b: Core)
    ensures ShowsSerial(env, Sbom(env, b), b)
  {
    hide Object, Under, L, StableJson, Components, SerialNumber, AllApart, Id, Rev, CreatedAt, Revision, Digits, Serial;
    SbomApart(env, b);
    var fs := SbomFields(env, b);
    FieldAt(fs, 0); FieldAt(fs, 1); FieldAt(fs, 2); FieldAt(fs, 3); FieldAt(fs, 5);
    SerialCut(env, b);
  }

  lemma ToolRead(env: Env, b: Core)
    ensures ShowsTool(env, Sbom(env, b), b)
  {
    hide Object, Under, L, StableJson, Components, SerialNumber, AllApart, Digits;
    SbomApart(env, b);
    FieldAt(SbomFields(env, b), 4);
    var v := Str(env.cloudVersion);
    var tool := Object([("vendor", S("Pollek")), ("name", S("cloud-contract-hub")), ("version", v)]);
    Read3("vendor", S("Pollek"), "name", S("cloud-contract-hub"), "version", v);
    var made := Object([("type", S("application")), ("name", S("pollek-policy-bundle")),
      ("version", Str(Revision(b)))]);
    Read3("type", S("application"), "name", S("pollek-policy-bundle"), "version", Str(Revision(b)));
    Read3("timestamp", Str(CreatedAt(b)), "tools", Arr([tool]), "component", made);
    ReadingsAre(b);
    hide CreatedAt, Revision, At, Rev;
  }

  lemma EngineRead(engine: Text)
    ensures IsEngine(EngineComponent(engine), engine)
  {
    hide Object, Under, L;
    var fs := [("type", S("library")), ("bom-ref", Str(L("pkg:pollek/policy-engine/") + engine)),
      ("name", Str(L("policy-engine-") + engine)), ("version", S("runtime"))];
    assert AllApart(fs);
    FieldAt(fs, 0); FieldAt(fs, 1); FieldAt(fs, 2); FieldAt(fs, 3);
  }

  lemma BundleRead(env: Env, b: Core)
    ensures IsBundle(env, MainComponent(env, b), b)
  {
    hide Object, Under, L, StableJson;
    var whole := Object([("policies", Arr(b.content.policies)), ("artifacts", Arr(b.content.artifacts))]);
    Read2("policies", Arr(b.content.policies), "artifacts", Arr(b.content.artifacts));
    var hash := Object([("alg", S("SHA-256")), ("content", Str(Hash(env, whole)))]);
    Read2("alg", S("SHA-256"), "content", Str(Hash(env, whole)));
    var fs := [("type", S("application")),
      ("bom-ref", Str(L("pkg:pollek/policy-bundle/") + BundleId(b) + L("@") + Revision(b))),
      ("name", S("pollek-policy-bundle")), ("version", Str(Revision(b))), ("hashes", Arr([hash]))];
    assert AllApart(fs);
    FieldAt(fs, 0); FieldAt(fs, 1); FieldAt(fs, 2); FieldAt(fs, 3); FieldAt(fs, 4);
    ReadingsAre(b);
    hide BundleId, Revision, Id, Rev;
  }

  lemma {:induction false} TextsExactly(items: seq<Json>, t: Text)
    ensures t in Texts(items) <==> Str(t) in items
  {
    if items != [] {
      TextsExactly(items[..|items| - 1], t);
      assert items == items[..|items| - 1] + [items[|items| - 1]];
    }
  }

  lemma PolicyEngines(p: Json, e: Text)
    ensures e in EngineNames([p]) <==> NamesEngine(p, e)
  {
    hide L;
    assert [p][..0] == [];
    var v := if Given(Under(p, "engines")) then Under(p, "engines") else Under(p, "engine");
    if v.Arr? { TextsExactly(v.items, e); }
  }

  /** The names of a list of policies are those of its parts, in order. */
  lemma {:induction false} EngineNamesJoin(ps: seq<Json>, qs: seq<Json>)
    ensures EngineNames(ps + qs) == EngineNames(ps) + EngineNames(qs)
  {
    hide EngineNames;
    if qs == [] {
      assert ps + qs == ps;
      NoEngines();
    } else {
      var n := |qs| - 1;
      EngineNamesJoin(ps, qs[..n]);
      assert ps + qs == (ps + qs[..n]) + [qs[n]] && qs == qs[..n] + [qs[n]];
      OneMorePolicy(ps + qs[..n], qs[n]);
      OneMorePolicy(qs[..n], qs[n]);
    }
  }

  lemma NoEngines()
    ensures EngineNames([]) == []
  {}

  lemma OneMorePolicy(ps: seq<Json>, p: Json)
    ensures EngineNames(ps + [p]) == EngineNames(ps) + EngineNames([p])
  {
    hide Names, Truthy, Member;
    assert (ps + [p])[..|ps|] == ps && [p][..0] == [];
  }

  lemma {:induction false} EnginesNamed(policies: seq<Json>, e: Text)
    ensures e in EngineNames(policies) <==> Named(policies, e)
  {
    hide NamesEngine;
    if policies != [] {
      var n := |policies| - 1;
      assert policies == policies[..n] + [policies[n]];
      EnginesNamed(policies[..n], e);
      EngineNamesJoin(policies[..n], [policies[n]]);
      PolicyEngines(policies[n], e);
      if NamesEngine(policies[n], e) { assert Named(policies, e); }
      if Named(policies[..n], e) {
        var i :| 0 <= i < n && NamesEngine(policies[i], e);
        assert Named(policies, e);
      }
    }
  }

  lemma EnginesListed(policies: seq<Json>)
    ensures ListsEngines(Ascending(set e | e in Engines(policies)), policies)
  {
    hide EngineNames, Named, Leq;
    AscendingSorted(set e | e in Engines(policies));
    forall e ensures e in Engines(policies) <==> Named(policies, e) { EnginesNamed(policies, e); }
  }

  lemma ComponentsRead(env: Env, b: Core)
    ensures ShowsComponents(env, Sbom(env, b), b)
  {
    hide Object, Under, L, StableJson, SerialNumber, AllApart, MainComponent, EngineComponent, IsBundle, IsEngine,
      Digits;
    hide ListsEngines, Engines, CreatedAt, Revision;
    SbomApart(env, b);
    FieldAt(SbomFields(env, b), 5);
    BundleRead(env, b);
    var engines := Ascending(set e | e in Engines(b.content.policies));
    EnginesListed(b.content.policies);
    forall i | 0 <= i < |engines| ensures IsEngine(Components(env, b)[i + 1], engines[i]) { EngineRead(engines[i]); }
  }

  /** The SBOM lists the bundle and every engine its policies name, and its serial number is cut from their hash. */
  lemma SbomShown(env: Env, b: Core)
    ensures var s := Under(Unsigned(env, b), "sbom");
      ShowsSerial(env, s, b) && ShowsTool(env, s, b) && ShowsComponents(env, s, b)
  {
    hide Unsigned, Under, Provenance, Sbom, Attestation, ShowsSerial, ShowsTool, ShowsComponents, TargetBlock, L;
    EvidenceAt(env, b);
    SerialRead(env, b);
    ToolRead(env, b);
    ComponentsRead(env, b);
  }

  /* ---- attestation ---- */

  ghost predicate ShowsSubject(env: Env, a: Json, b: Core) {
    var x := Item(Under(a, "subject"), 0);
    && Under(a, "schema_version") == Str(L("pollek.trust.test-attestation.v1"))
    && Under(a, "predicate_type") == Str(L("https://pollek.cloud/attestations/policy-tests@v1"))
    && Under(x, "name") == Str(L("pollek-policy-bundle/") + Id(b))
    && Under(Under(x, "digest"), "sha256") ==
         Digest(env, Obj(map[L("id") := Str(Id(b)), L("revision") := Str(Rev(b))]))
  }

  ghost predicate ShowsTests(env: Env, a: Json, b: Core) {
    var p := Under(a, "predicate");
    && Under(p, "suite") == Str(L("policy-bundle-simulation")) && Under(p, "result") == Str(L("passed"))
    && Under(p, "tests_total") == Number(|b.content.policies| + b.content.testFixtures)
    && Under(p, "failures") == Number(0) && Under(p, "attested_at") == Str(At(b))
    && Under(p, "attestor") == Str(L("https://pollek.cloud/builders/contract-hub@") + env.cloudVersion)
  }

  lemma AttestationApart(env: Env, b: Core)
    ensures AllApart(AttestationFields(env, b))
  {
    hide Object, Builder, CreatedAt, BundleId, Revision, L, Digits, Hash;
  }

  lemma SubjectRead(env: Env, b: Core)
    ensures ShowsSubject(env, Attestation(env, b), b)
  {
    hide Object, Under, L, StableJson, AllApart, Builder, CreatedAt, Digits;
    AttestationApart(env, b);
    var fs := AttestationFields(env, b);
    FieldAt(fs, 0); FieldAt(fs, 1); FieldAt(fs, 2);
    var named := Object([("id", Str(BundleId(b))), ("revision", Str(Revision(b)))]);
    Read2("id", Str(BundleId(b)), "revision", Str(Revision(b)));
    Read1("sha256", Str(Hash(env, named)));
    Read2("name", Str(L("pollek-policy-bundle/") + BundleId(b)), "digest", Object([("sha256", Str(Hash(env, named)))]));
    ReadingsAre(b);
    hide BundleId, Revision, Id, Rev;
  }

  lemma TestsRead(env: Env, b: Core)
    ensures ShowsTests(env, Attestation(env, b), b)
  {
    hide Object, Under, L, StableJson, AllApart, BundleId, Revision, Hash, Digits;
    AttestationApart(env, b);
    FieldAt(AttestationFields(env, b), 3);
    var fs := [("suite", S("policy-bundle-simulation")), ("result", S("passed")),
      ("tests_total", Nat(|b.content.policies| + b.content.testFixtures)), ("failures", Nat(0)),
      ("attested_at", Str(CreatedAt(b))), ("attestor", Str(Builder(env)))];
    TestsApart(fs);
    FieldAt(fs, 0); FieldAt(fs, 1); FieldAt(fs, 2); FieldAt(fs, 3); FieldAt(fs, 4); FieldAt(fs, 5);
    ReadingsAre(b);
    hide CreatedAt, At;
  }

  lemma TestsApart(fs: seq<(string, Json)>)
    requires |fs| == 6 && fs[0].0 == "suite" && fs[1].0 == "result" && fs[2].0 == "tests_total"
    requires fs[3].0 == "failures" && fs[4].0 == "attested_at" && fs[5].0 == "attestor"
    ensures AllApart(fs)
  {}

  /** The attestation names the bundle by a hash of its id and revision, and counts its policies and fixtures. */
  lemma AttestationShown(env: Env, b: Core)
    ensures var a := Under(Unsigned(env, b), "attestation"); ShowsSubject(env, a, b) && ShowsTests(env, a, b)
  {
    hide Unsigned, Under, Provenance, Sbom, Attestation, ShowsSubject, ShowsTests, TargetBlock, L;
    EvidenceAt(env, b);
    SubjectRead(env, b);
    TestsRead(env, b);
  }

  /* ---- approval ---- */

  /** The approval block: the stored decision, with a default for whatever is missing. */
  ghost predicate ShowsApproval(m: Json, b: Core) {
    var a, c, d := Under(m, "approval"), b.content, if b.approval.Some? then b.approval.value else NO_PATCH;
    var named := if c.approvalId != [] then c.approvalId else L("approval_") + TextOr(c.id, "bundle") + L("_local_dev");
    var origin :=
      if c.complianceBundleId != [] then "enterprise_compliance_bundle"
      else if c.draftId != [] then "policy_draft_approval" else "seed_policy_bundle";
    && Under(a, "approval_id") == Str(if d.id != [] then d.id else named)
    && Under(a, "status") == Str(TextOr(d.status, "approved"))
    && Under(a, "approved_by") == Str(TextOr(d.approvedBy, "local-dev-security-admin"))
    && Under(a, "approved_at") == Str(if c.approvedAt != [] then c.approvedAt else At(b))
    && Under(a, "source") == Str(TextOr(d.source, origin))
  }

  lemma ApprovalShown(env: Env, b: Core)
    ensures ShowsApproval(Unsigned(env, b), b)
  {
    hide Unsigned, L, ApprovalBlock;
    ApprovalAt(env, b);
    ApprovalBlockShows(DefaultApproval(b, NO_PATCH));
  }

  lemma ApprovalAt(env: Env, b: Core)
    ensures Under(Unsigned(env, b), "approval") == ApprovalBlock(DefaultApproval(b, NO_PATCH))
  {
    hide Unsigned, L, Under, Provenance, Sbom, Attestation, Object, TargetBlock, ApprovalBlock, Hash, DefaultApproval;
    Top(env, b, ApprovalField);
  }

  /* ---- the keys ---- */

  const KEYS := ["manifest_version", "schema_version", "bundle_id", "tenant_id", "revision", "created_at", "target",
    "policies", "artifacts", "compliance_bundle_id", "hot_reload", "approval", "signed_fields", "generation", "data",
    "data_sha256", "provenance", "sbom", "sbom_sha256", "attestation", "source_hashes"]

  /** The manifest has these members and no other. */
  lemma KeysShown(env: Env, b: Core)
    ensures var m := Unsigned(env, b);
      m.Obj? && forall k :: k in m.members <==> exists i :: 0 <= i < |KEYS| && k == L(KEYS[i])
  {
    hide L, KEYS, PartsOf, FieldValue, Name;
    var m := Unsigned(env, b);
    forall k | k in m.members ensures exists i :: 0 <= i < |KEYS| && k == L(KEYS[i]) {
      var f: Field :| !Added(f) && Key(f) == k;
      IndexOf(f);
    }
    forall i | 0 <= i < |KEYS| ensures L(KEYS[i]) in m.members { FieldOf(i); }
  }

  lemma IndexOf(f: Field)
    requires !Added(f)
    ensures exists i :: 0 <= i < |KEYS| && Name(f) == KEYS[i]
  {
    var i := match f
      case ManifestVersion => 0 case SchemaVersion => 1 case BundleIdField => 2 case TenantIdField => 3
      case RevisionField => 4 case CreatedAtField => 5 case Target => 6 case Policies => 7 case Artifacts => 8
      case ComplianceBundleId => 9 case HotReload => 10 case ApprovalField => 11 case SignedFields => 12
      case Generation => 13 case Data => 14 case DataSha256 => 15 case ProvenanceField => 16 case SbomField => 17
      case SbomSha256 => 18 case AttestationField => 19 case _ => 20;
    assert Name(f) == KEYS[i];
  }

  lemma FieldOf(i: nat)
    requires i < |KEYS|
    ensures exists f: Field :: !Added(f) && Name(f) == KEYS[i]
  {
    hide Added, LateName;
    if i < 11 { EarlyFieldOf(i); } else { LateFieldOf(i); }
  }

  lemma EarlyFieldOf(i: nat)
    requires i < 11
    ensures exists f: Field :: !Added(f) && Name(f) == KEYS[i]
  {
    var fields := [ManifestVersion, SchemaVersion, BundleIdField, TenantIdField, RevisionField, CreatedAtField,
      Target, Policies, Artifacts, ComplianceBundleId, HotReload];
    hide LateName;
    assert !Added(fields[i]) && Name(fields[i]) == KEYS[i];
  }

  lemma LateFieldOf(i: nat)
    requires 11 <= i < |KEYS|
    ensures exists f: Field :: !Added(f) && Name(f) == KEYS[i]
  {
    var fields := [ApprovalField, SignedFields, Generation, Data, DataSha256, ProvenanceField, SbomField, SbomSha256,
      AttestationField, SourceHashes];
    var f := fields[i - 11];
    assert !Added(f) && !Early(f);
    assert Name(f) == LateName(f);
    hide Name;
    assert LateName(f) == KEYS[i];
  }

  /* ---- engines in order of appearance ---- */

  /** The texts of a list, in order. */
  lemma {:induction false} TextsJoin(xs: seq<Json>, ys: seq<Json>)
    ensures Texts(xs + ys) == Texts(xs) + Texts(ys)
  {
    hide Texts;
    if ys == [] {
      assert xs + ys == xs;
      NoTexts();
    } else {
      var n := |ys| - 1;
      TextsJoin(xs, ys[..n]);
      assert xs + ys == (xs + ys[..n]) + [ys[n]] && ys == ys[..n] + [ys[n]];
      OneMoreText(xs + ys[..n], ys[n]);
      OneMoreText(ys[..n], ys[n]);
    }
  }

  lemma NoTexts()
    ensures Texts([]) == []
  {}

  lemma OneMoreText(xs: seq<Json>, x: Json)
    ensures Texts(xs + [x]) == Texts(xs) + Texts([x]) && Texts([x]) == if x.Str? then [x.text] else []
  {
    assert (xs + [x])[..|xs|] == xs && [x][..0] == [];
  }

  /** What one policy adds to the names: its engines in their order, or else its one engine. */
  lemma PolicyNames(p: Json)
    ensures var v := if Given(Under(p, "engines")) then Under(p, "engines") else Under(p, "engine");
      EngineNames([p]) ==
        if !Given(v) then [] else if v.Str? then [v.text] else if v.Arr? then Texts(v.items) else []
  {
    hide L;
    assert [p][..0] == [];
  }

  /** What a prefix of the names gives is a prefix of what they all give; with the same names, that fixes the list. */
  lemma {:induction false} FirstAppearance(names: seq<Text>, n: nat)
    requires n <= |names|
    ensures FirstOnly(names[..n]) <= FirstOnly(names)
  {
    if n == |names| {
      assert names[..n] == names;
    } else {
      var front := names[..|names| - 1];
      FirstAppearance(front, n);
      assert front[..n] == names[..n];
    }
  }
}
