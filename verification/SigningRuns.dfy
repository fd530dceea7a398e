/**
Runs of the control plane: bundles are created, edited, signed, served, packed into artifacts, saved,
and lost in crashes that bring back any committed snapshot under a new signing key. Signature records
may also be removed, duplicated, moved to other bundles, and forged.
*/
module SigningRuns {
  import opened Text
  import opened Json
  import opened JsMap
  import opened Options
  import opened Manifest
  import opened Signing
  import opened Serving
  import JsonReader
  import Ledger

  /** One signing, as history remembers it. */
  datatype Event = Event(env: Env, core: Core, record: SigRecord)

  datatype Saved = Saved(bundles: seq<Bundle>, fleet: Fleet)

  /** The live state, the committed snapshots, and the signings so far. */
  datatype World = World(env: Env, bundles: seq<Bundle>, fleet: Fleet, saved: seq<Saved>, log: seq<Event>)

  datatype Step =
    | Create(content: Content, tenantId: Text, approval: Option<Approval>)  // enters without a generation
    | Edit(i: nat, content: Content, tenantId: Text, approval: Option<Approval>)
    | Tamper(i: nat, core: Core)  // also the generation
    | SignBundle(i: nat, decision: Option<Approval>, id: Text, at: Text)
    | ServeBundle(i: nat, id: Text, at: Text)
    | ArtifactBundle(i: nat, id: Text, at: Text, size: nat, builtAt: Text)
    | VerifyBundle(i: nat)
    | Put(i: nat, signature: Option<SigRecord>, signatures: Option<seq<SigRecord>>)  // any signature records at all
    | Save
    | Crash(env: Env, n: nat)  // restarts from the n-th snapshot, or from none

  const NO_FLEET := Fleet(0, [], [])

  function Initial(env: Env): World {
    World(env, [], NO_FLEET, [], [])
  }

  function NewBundle(content: Content, tenantId: Text, approval: Option<Approval>): Bundle {
    Bundle(Core(content, tenantId, approval, None), false, [], [], None, None)
  }

  /** Boot applies the snapshot; the counter is floored at zero. */
  function Restore(w: World, env: Env, snapshot: Option<Saved>): World {
    match snapshot
    case None => w.(env := env, bundles := [], fleet := NO_FLEET)
    case Some(s) =>
      var counter := if s.fleet.bundleGeneration > 0 then s.fleet.bundleGeneration else 0;
      w.(env := env, bundles := s.bundles, fleet := s.fleet.(bundleGeneration := counter))
  }

  /** A refused signing leaves everything as it was. */
  function AfterSign(w: World, i: nat, s: SignResult): World
    requires i < |w.bundles|
  {
    if s.SignFailed? then w
    else
      w.(bundles := w.bundles[i := s.bundle], fleet := s.fleet, log := w.log + [Event(w.env, s.bundle.core, s.record)])
  }

  /** A serve that signs is a signing of the log. */
  function AfterServe(w: World, i: nat, s: Served): World
    requires i < |w.bundles|
  {
    if s.ServeFailed? then w.(bundles := w.bundles[i := s.bundle])
    else
      w.(bundles := w.bundles[i := s.bundle], fleet := s.fleet,
         log := if s.reused || s.bundle.signature.None? then w.log
                else w.log + [Event(w.env, s.bundle.core, s.bundle.signature.value)])
  }

  /** An artifact is built from a served manifest. */
  function AfterArtifact(w: World, i: nat, s: Served, size: nat, builtAt: Text): World
    requires i < |w.bundles|
  {
    var w' := AfterServe(w, i, s);
    if s.ServeFailed? then w'
    else w'.(fleet := PutArtifact(w'.fleet, NewArtifactRecord(w.env, s, size, builtAt)))
  }

  function PutArtifact(f: Fleet, a: ArtifactRecord): Fleet {
    f.(artifacts := Ledger.Touch(f.artifacts, a, SameArtifact))
  }

  /** A record that some signing of the log made. */
  predicate Made(log: seq<Event>, r: SigRecord) {
    exists k | 0 <= k < |log| :: log[k].record == r
  }

  /** Every signature record on a bundle. */
  function Held(b: Bundle): seq<SigRecord> {
    (if b.signature.Some? then [b.signature.value] else []) + (if b.signatures.Some? then b.signatures.value else [])
  }

  predicate Traced(log: seq<Event>, b: Bundle) {
    forall r | r in Held(b) :: Made(log, r)
  }

  function Exec(w: World, step: Step): World {
    match step
    case Create(content, tenantId, approval) =>
      w.(bundles := [NewBundle(content, tenantId, approval)] + w.bundles)
    case Edit(i, content, tenantId, approval) =>
      if i >= |w.bundles| then w
      else
        var b := w.bundles[i];
        w.(bundles := w.bundles[i := b.(core := Core(content, tenantId, approval, b.core.generation))])
    case Tamper(i, core) =>
      if i >= |w.bundles| then w else w.(bundles := w.bundles[i := w.bundles[i].(core := core)])
    case SignBundle(i, decision, id, at) =>
      if i >= |w.bundles| then w else AfterSign(w, i, Sign(w.env, w.fleet, w.bundles[i], decision, id, at))
    case ServeBundle(i, id, at) =>
      if i >= |w.bundles| then w else AfterServe(w, i, Serve(w.env, w.fleet, w.bundles[i], id, at))
    case ArtifactBundle(i, id, at, size, builtAt) =>
      if i >= |w.bundles| then w else AfterArtifact(w, i, Serve(w.env, w.fleet, w.bundles[i], id, at), size, builtAt)
    case VerifyBundle(i) =>
      if i >= |w.bundles| then w else w.(bundles := w.bundles[i := Grown(w.bundles[i])])
    case Put(i, signature, signatures) =>
      if i >= |w.bundles| then w
      else w.(bundles := w.bundles[i := w.bundles[i].(signature := signature, signatures := signatures)])
    case Save => w.(saved := w.saved + [Saved(w.bundles, w.fleet)])
    case Crash(env, n) => Restore(w, env, if n < |w.saved| then Some(w.saved[n]) else None)
  }

  function Run(w: World, steps: seq<Step>): World {
    if steps == [] then w else Exec(Run(w, steps[..|steps| - 1]), steps[|steps| - 1])
  }

  lemma RunMore(w: World, steps: seq<Step>, step: Step)
    ensures Run(w, steps + [step]) == Exec(Run(w, steps), step)
    ensures Run(w, []) == w
  {
    hide Exec;
    assert (steps + [step])[..|steps|] == steps;
  }

  lemma RunOne(w: World, step: Step)
    ensures Run(w, [step]) == Exec(w, step)
  {
    hide Exec, Run;
    RunMore(w, [], step);
    assert [] + [step] == [step];
  }

  /* ---- what the platform promises ---- */

  /** Processes differ in keys and version, not in the hash and the verification algorithm. */
  ghost predicate Platform(env: Env, env': Env) {
    Sound(env') && env'.sha256 == env.sha256 && env'.verify == env.verify
  }

  ghost predicate FairStep(env: Env, step: Step) {
    step.Crash? ==> Platform(env, step.env)
  }

  ghost predicate Fair(env: Env, steps: seq<Step>) {
    forall i | 0 <= i < |steps| :: FairStep(env, steps[i])
  }

  /** Records put on a bundle were made by a signing before. */
  predicate GenuineStep(w: World, step: Step) {
    step.Put? && step.i < |w.bundles| ==>
      Traced(w.log, w.bundles[step.i].(signature := step.signature, signatures := step.signatures))
  }

  /** A run in which signature records may be removed, duplicated and moved, but not forged. */
  predicate Genuine(env: Env, steps: seq<Step>) {
    steps == [] ||
    (Genuine(env, steps[..|steps| - 1]) && GenuineStep(Run(Initial(env), steps[..|steps| - 1]), steps[|steps| - 1]))
  }

  /** A process whose signature of a text is the text with the key appended; for examples. */
  function Simple(key: Text, keyId: Text, retired: seq<RetiredKey>): Env {
    Env((t: Text) => t, (p: Text) => p + key, (k: Text, p: Text, sig: Text) => sig == p + k,
      key, key, keyId, retired, [], [])
  }

  lemma SimpleSound(key: Text, keyId: Text, retired: seq<RetiredKey>)
    requires key != []
    ensures Sound(Simple(key, keyId, retired))
  {}

  /* ---- where signatures come from ---- */

  /** A logged signing: the record attests the manifest of a bundle approved by a named approver. */
  ghost predicate GoodEvent(env: Env, e: Event) {
    hide Unsigned;
    && Platform(env, e.env)
    && e.record.keyid == e.env.keyId
    && e.record.publicKeyPem == e.env.publicKeyPem && e.record.publicKeyRaw == e.env.publicKeyRaw
    && Attests(e.env, e.record, Unsigned(e.env, e.core))
    && e.core.approval.Some? && e.core.approval.value.status == L("approved") && e.core.approval.value.approvedBy != []
  }

  ghost predicate AllTraced(log: seq<Event>, bs: seq<Bundle>) {
    forall i | 0 <= i < |bs| :: Traced(log, bs[i])
  }

  /** The log holds good events only; in every run. */
  ghost predicate Logged(env: Env, w: World) {
    Platform(env, w.env) && forall k | 0 <= k < |w.log| :: GoodEvent(env, w.log[k])
  }

  /** And every record on a live or saved bundle is in it; in genuine runs. */
  ghost predicate Traceable(env: Env, w: World) {
    Logged(env, w) && Recorded(w)
  }

  ghost predicate Recorded(w: World) {
    AllTraced(w.log, w.bundles) && forall n | 0 <= n < |w.saved| :: AllTraced(w.log, w.saved[n].bundles)
  }

  lemma MadeGrows(log: seq<Event>, more: seq<Event>, r: SigRecord)
    requires Made(log, r)
    ensures Made(log + more, r)
  {
    var k :| 0 <= k < |log| && log[k].record == r;
    assert (log + more)[k].record == r;
  }

  lemma TracedGrows(log: seq<Event>, more: seq<Event>, b: Bundle)
    requires Traced(log, b)
    ensures Traced(log + more, b)
  {
    hide Made, Held;
    forall r | r in Held(b) ensures Made(log + more, r) { MadeGrows(log, more, r); }
  }

  lemma AllTracedGrows(log: seq<Event>, more: seq<Event>, bs: seq<Bundle>)
    requires AllTraced(log, bs)
    ensures AllTraced(log + more, bs)
  {
    hide Traced;
    forall i | 0 <= i < |bs| ensures Traced(log + more, bs[i]) { TracedGrows(log, more, bs[i]); }
  }

  /** Looking at signatures only duplicates a record that is there. */
  lemma GrownTraced(log: seq<Event>, b: Bundle)
    requires Traced(log, b)
    ensures Traced(log, Grown(b))
  {
    hide Made;
    assert forall r | r in Held(Grown(b)) :: r in Held(b);
  }

  lemma SignGood(env: Env, w: World, b: Bundle, a: Option<Approval>, id: Text, at: Text)
    requires Platform(env, w.env)
    ensures var s := Sign(w.env, w.fleet, b, a, id, at);
      s.Signed? ==> GoodEvent(env, Event(w.env, s.bundle.core, s.record))
  {
    hide Unsigned, StableJson, Upsert;
    var s := Sign(w.env, w.fleet, b, a, id, at);
    if s.Signed? { NewRecordAttests(w.env, s.bundle.core, a.value, id, at); }
  }

  lemma OneRecordTraced(log: seq<Event>, e: Event, b: Bundle)
    requires b.signature == Some(e.record) && b.signatures == Some([e.record])
    ensures Traced(log + [e], b)
  {
    assert (log + [e])[|log|].record == e.record;
    assert forall r | r in Held(b) :: r == e.record;
  }

  /** A successful signing gives a good event and a bundle whose one signature it is. */
  lemma SignTraced(env: Env, w: World, b: Bundle, a: Option<Approval>, id: Text, at: Text)
    requires Platform(env, w.env)
    ensures var s := Sign(w.env, w.fleet, b, a, id, at);
      s.Signed? ==>
        && s.bundle.signature == Some(s.record)
        && GoodEvent(env, Event(w.env, s.bundle.core, s.record))
        && Traced(w.log + [Event(w.env, s.bundle.core, s.record)], s.bundle)
  {
    hide NewRecord, Prepared, EnforceApproval, Upsert, GoodEvent, Traced, Platform;
    var s := Sign(w.env, w.fleet, b, a, id, at);
    SignGood(env, w, b, a, id, at);
    if s.Signed? { OneRecordTraced(w.log, Event(w.env, s.bundle.core, s.record), s.bundle); }
  }

  /** A serve that signs gives a good event, and a bundle with no other signature. */
  ghost predicate GoodIfSigned(env: Env, w: World, s: Served) {
    s.Serving? && !s.reused ==>
      && s.bundle.signature.Some?
      && GoodEvent(env, Event(w.env, s.bundle.core, s.bundle.signature.value))
      && Traced(w.log + [Event(w.env, s.bundle.core, s.bundle.signature.value)], s.bundle)
  }

  lemma ServeSignTraced(env: Env, w: World, b: Bundle, id: Text, at: Text)
    requires Platform(env, w.env)
    ensures GoodIfSigned(env, w, Serve(w.env, w.fleet, b, id, at))
  {
    hide Verify, Normalized, UpsertAll, Sign, Traced, GoodEvent, VerifyAs, Unsigned, DefaultApproval, Platform;
    var looked := Grown(b);
    if Verify(w.env, b).status != StatusValid {
      var a := Some(DefaultApproval(looked.core, NO_PATCH));
      var s := Sign(w.env, w.fleet, looked, a, id, at);
      SignTraced(env, w, looked, a, id, at);
      if s.Signed? {
        var log' := w.log + [Event(w.env, s.bundle.core, s.record)];
        GrownTraced(log', s.bundle);
        GrownTraced(log', Grown(s.bundle));
        GrownTraced(log', Grown(Grown(s.bundle)));
      }
    }
  }

  /** Any other serve only makes the bundle's array grow. */
  lemma ServeKeepsTraced(w: World, b: Bundle, id: Text, at: Text)
    requires Traced(w.log, b)
    ensures var s := Serve(w.env, w.fleet, b, id, at); s.ServeFailed? || s.reused ==> Traced(w.log, s.bundle)
  {
    hide Verify, Normalized, UpsertAll, Sign, Traced, VerifyAs, Unsigned, DefaultApproval;
    GrownTraced(w.log, b);
    GrownTraced(w.log, Grown(b));
    GrownTraced(w.log, Grown(Grown(b)));
    GrownTraced(w.log, Grown(Grown(Grown(b))));
  }

  lemma PutTraced(log: seq<Event>, bs: seq<Bundle>, i: nat, b: Bundle)
    requires AllTraced(log, bs) && i < |bs| && Traced(log, b)
    ensures AllTraced(log, bs[i := b])
  {
    hide Traced;
  }

  lemma LoggedStep(env: Env, w: World, step: Step)
    requires Logged(env, w) && FairStep(env, step)
    ensures Logged(env, Exec(w, step))
  {
    hide Traced, GoodEvent, Platform, Sign, Serve, Grown, PutArtifact, NewArtifactRecord;
    match step
    case SignBundle(i, a, id, at) =>
      if i < |w.bundles| { SignTraced(env, w, w.bundles[i], a, id, at); }
    case ServeBundle(i, id, at) =>
      if i < |w.bundles| { ServeSignTraced(env, w, w.bundles[i], id, at); }
    case ArtifactBundle(i, id, at, size, builtAt) =>
      if i < |w.bundles| { ServeSignTraced(env, w, w.bundles[i], id, at); }
    case _ =>
  }

  lemma {:induction false} RunLogged(env: Env, steps: seq<Step>)
    requires Sound(env) && Fair(env, steps)
    ensures Logged(env, Run(Initial(env), steps))
  {
    hide GoodEvent, Sound, FairStep, Exec;
    if steps != [] {
      RunLogged(env, steps[..|steps| - 1]);
      LoggedStep(env, Run(Initial(env), steps[..|steps| - 1]), steps[|steps| - 1]);
    }
  }

  /** All records stay traced when the log grows and one bundle changes. */
  lemma AllTracedStep(w: World, w': World, i: nat, b: Bundle, more: seq<Event>)
    requires Recorded(w)
    requires i < |w.bundles| && w'.bundles == w.bundles[i := b] && w'.saved == w.saved && w'.log == w.log + more
    requires Traced(w'.log, b)
    ensures Recorded(w')
  {
    hide Traced, AllTraced;
    AllTracedGrows(w.log, more, w.bundles);
    forall n | 0 <= n < |w.saved| ensures AllTraced(w'.log, w'.saved[n].bundles) {
      AllTracedGrows(w.log, more, w.saved[n].bundles);
    }
    PutTraced(w'.log, w.bundles, i, b);
  }

  lemma SameLog(w: World)
    ensures w.log + [] == w.log
  {}

  lemma ServeStep(env: Env, w: World, i: nat, id: Text, at: Text)
    requires Platform(env, w.env) && Recorded(w) && i < |w.bundles|
    ensures Recorded(AfterServe(w, i, Serve(w.env, w.fleet, w.bundles[i], id, at)))
  {
    hide Traced, GoodEvent, Platform, Serve;
    var s := Serve(w.env, w.fleet, w.bundles[i], id, at);
    ServeSignTraced(env, w, w.bundles[i], id, at);
    ServeKeepsTraced(w, w.bundles[i], id, at);
    SameLog(w);
    AllTracedStep(w, AfterServe(w, i, s), i, s.bundle,
      if s.Serving? && !s.reused then [Event(w.env, s.bundle.core, s.bundle.signature.value)] else []);
  }

  lemma RecordedStep(env: Env, w: World, step: Step)
    requires Platform(env, w.env) && Recorded(w) && GenuineStep(w, step)
    ensures Recorded(Exec(w, step))
  {
    SameLog(w);
    hide Traced, GoodEvent, Platform, Sign, Serve, Grown, AfterServe, PutArtifact, NewArtifactRecord;
    match step
    case Create(content, tenantId, approval) => NewTraced(w.log, content, tenantId, approval);
    case Edit(i, content, tenantId, approval) =>
      if i < |w.bundles| {
        var core := Core(content, tenantId, approval, w.bundles[i].core.generation);
        EditTraced(w.log, w.bundles[i], core);
      }
    case Tamper(i, core) =>
      if i < |w.bundles| { EditTraced(w.log, w.bundles[i], core); }
    case SignBundle(i, a, id, at) =>
      if i < |w.bundles| {
        var s := Sign(w.env, w.fleet, w.bundles[i], a, id, at);
        SignTraced(env, w, w.bundles[i], a, id, at);
        if s.Signed? { AllTracedStep(w, Exec(w, step), i, s.bundle, [Event(w.env, s.bundle.core, s.record)]); }
      }
    case ServeBundle(i, id, at) =>
      if i < |w.bundles| { ServeStep(env, w, i, id, at); }
    case ArtifactBundle(i, id, at, size, builtAt) =>
      if i < |w.bundles| { ServeStep(env, w, i, id, at); }
    case VerifyBundle(i) =>
      if i < |w.bundles| { GrownTraced(w.log, w.bundles[i]); }
    case Put(i, signature, signatures) =>
    case Save =>
    case Crash(env', n) =>
  }

  lemma TraceableStep(env: Env, w: World, step: Step)
    requires Traceable(env, w) && FairStep(env, step) && GenuineStep(w, step)
    ensures Traceable(env, Exec(w, step))
  {
    hide Logged, Recorded, Exec, GenuineStep, FairStep;
    LoggedPlatform(env, w);
    LoggedStep(env, w, step);
    RecordedStep(env, w, step);
  }

  lemma LoggedPlatform(env: Env, w: World)
    requires Logged(env, w)
    ensures Platform(env, w.env)
  {}

  lemma NewTraced(log: seq<Event>, content: Content, tenantId: Text, approval: Option<Approval>)
    ensures Traced(log, NewBundle(content, tenantId, approval))
  {}

  lemma EditTraced(log: seq<Event>, b: Bundle, core: Core)
    requires Traced(log, b)
    ensures Traced(log, b.(core := core))
  {
    hide Made;
    assert Held(b.(core := core)) == Held(b);
  }

  lemma {:induction false} RunTraceable(env: Env, steps: seq<Step>)
    requires Sound(env) && Fair(env, steps) && Genuine(env, steps)
    ensures Traceable(env, Run(Initial(env), steps))
  {
    hide Traced, GoodEvent, Sound, FairStep, GenuineStep, Exec;
    if steps != [] {
      RunTraceable(env, steps[..|steps| - 1]);
      TraceableStep(env, Run(Initial(env), steps[..|steps| - 1]), steps[|steps| - 1]);
    }
  }

  /* ---- tamper evidence ---- */

  /** The hash tells these two manifests apart, if they differ. */
  ghost predicate NoCollision(env: Env, m: Json, n: Json) {
    (env.sha256)(StableJson(m)) == (env.sha256)(StableJson(n)) ==> StableJson(m) == StableJson(n)
  }

  lemma AttestsExactly(env: Env, e: Event, m: Json)
    requires GoodEvent(env, e) && NoCollision(env, Unsigned(e.env, e.core), m)
    ensures Platform(env, e.env)
    ensures forall env' | Platform(env, env') :: Attests(env', e.record, m) <==> m == Unsigned(e.env, e.core)
  {
    hide Unsigned, StableJson;
    JsonReader.StableJsonInjective(m, Unsigned(e.env, e.core));
  }

  /** The hash tells the current manifest of a bundle apart from every manifest signed so far. */
  ghost predicate Distinguished(env: Env, w: World, i: nat)
    requires i < |w.bundles|
  {
    forall k | 0 <= k < |w.log| ::
      NoCollision(env, Unsigned(w.log[k].env, w.log[k].core), Unsigned(w.env, w.bundles[i].core))
  }

  /** The k-th signing made a signature that the bundle is verified by. */
  ghost predicate MadeBy(w: World, i: nat, k: nat)
    requires i < |w.bundles|
  {
    k < |w.log| && w.log[k].record in Normalized(w.bundles[i])
  }

  ghost predicate EvidentFor(w: World, i: nat, status: Status)
    requires i < |w.bundles|
  {
    hide Unsigned, Attests;
    var b := w.bundles[i];
    var m := Unsigned(w.env, b.core);
    && (status == StatusUnsigned <==> Pushed(b) == [])
    && (status == StatusValid <==>
         && Normalized(b) != []
         && (forall k: nat | MadeBy(w, i, k) :: m == Unsigned(w.log[k].env, w.log[k].core))
         && (forall r | r in Normalized(b) && !Made(w.log, r) :: Attests(w.env, r, m)))
  }

  /**
  Valid exactly when there are signatures, the current manifest is the one each logged one of them was
  made for, and the others check out with the keys they bring along.
  */
  ghost predicate Evident(w: World, i: nat)
    requires i < |w.bundles|
  {
    EvidentFor(w, i, Verify(w.env, w.bundles[i]).status)
  }

  lemma NormalizedTraced(log: seq<Event>, b: Bundle)
    requires Traced(log, b)
    ensures forall r | r in Normalized(b) :: Made(log, r)
  {
    hide Normalized, Made;
    NormalizedFromPushed(b);
    assert forall r | r in Pushed(b) :: r in Held(b);
  }

  lemma MadeBySome(w: World, i: nat, r: SigRecord)
    requires i < |w.bundles| && r in Normalized(w.bundles[i]) && Made(w.log, r)
    ensures exists k: nat :: MadeBy(w, i, k) && w.log[k].record == r
  {
    hide Normalized;
    var k: nat :| k < |w.log| && w.log[k].record == r;
    assert MadeBy(w, i, k);
  }

  lemma EvidentAt(env: Env, w: World, i: nat)
    requires Logged(env, w) && i < |w.bundles| && Distinguished(env, w, i)
    ensures Evident(w, i)
  {
    hide Unsigned, StableJson, GoodEvent, NoCollision, Attests, Normalized, Verify, Made;
    var b := w.bundles[i];
    var m := Unsigned(w.env, b.core);
    VerdictOfAll(w.env, b);
    NormalizedEmpty(b);
    forall k: nat | MadeBy(w, i, k)
      ensures Attests(w.env, w.log[k].record, m) <==> m == Unsigned(w.log[k].env, w.log[k].core)
    {
      assert GoodEvent(env, w.log[k]);
      AttestsExactly(env, w.log[k], m);
    }
    forall r | r in Normalized(b) && Made(w.log, r) ensures exists k: nat :: MadeBy(w, i, k) && w.log[k].record == r {
      MadeBySome(w, i, r);
    }
  }

  /**
  In every reachable state, whatever was edited and whatever signature records were put where: a bundle
  verifies exactly when it has signatures, every one that a logged signing made was made for the current
  manifest, and every other one checks out with the key it brings along.
  */
  lemma TamperEvidence(env: Env, steps: seq<Step>, w: World, i: nat)
    requires Sound(env) && Fair(env, steps) && w == Run(Initial(env), steps)
    requires i < |w.bundles| && Distinguished(env, w, i)
    ensures Evident(w, i)
  {
    hide Sound, Fair, Run, Logged, Distinguished, Evident;
    RunLogged(env, steps);
    EvidentAt(env, w, i);
  }

  /** Every signature the bundle is verified by is in the log. */
  ghost predicate AllMade(w: World, i: nat)
    requires i < |w.bundles|
  {
    forall r | r in Normalized(w.bundles[i]) :: exists k: nat :: MadeBy(w, i, k) && w.log[k].record == r
  }

  /** There are such signatures, and each was made for the current manifest. */
  ghost predicate AllMadeForThis(w: World, i: nat)
    requires i < |w.bundles|
  {
    hide Unsigned;
    Normalized(w.bundles[i]) != [] &&
    forall k: nat | MadeBy(w, i, k) :: Unsigned(w.env, w.bundles[i].core) == Unsigned(w.log[k].env, w.log[k].core)
  }

  /** When no record was forged, a bundle verifies exactly when each of its signatures was made for its manifest. */
  lemma GenuineEvidence(env: Env, steps: seq<Step>, w: World, i: nat)
    requires Sound(env) && Fair(env, steps) && Genuine(env, steps) && w == Run(Initial(env), steps)
    requires i < |w.bundles| && Distinguished(env, w, i)
    ensures AllMade(w, i)
    ensures Verify(w.env, w.bundles[i]).status == StatusValid <==> AllMadeForThis(w, i)
  {
    hide Sound, Fair, Run, Logged, Distinguished, Verify, Normalized, Unsigned, Traced, Made, Attests;
    TamperEvidence(env, steps, w, i);
    RunTraceable(env, steps);
    NormalizedTraced(w.log, w.bundles[i]);
    forall r | r in Normalized(w.bundles[i]) ensures exists k: nat :: MadeBy(w, i, k) && w.log[k].record == r {
      MadeBySome(w, i, r);
    }
  }

  /** The bundle still says what it said at the k-th signing, and a named approver approved it. */
  ghost predicate AsSigned(w: World, i: nat, k: nat)
    requires i < |w.bundles| && k < |w.log|
  {
    && Agree(w.env, w.bundles[i].core, w.log[k].env, w.log[k].core)
    && var a := DefaultApproval(w.bundles[i].core, NO_PATCH); a.status == L("approved") && a.approvedBy != []
  }

  lemma SameManifestAsSigned(env: Env, w: World, i: nat, k: nat)
    requires i < |w.bundles| && k < |w.log| && GoodEvent(env, w.log[k])
    requires Unsigned(w.env, w.bundles[i].core) == Unsigned(w.log[k].env, w.log[k].core)
    ensures AsSigned(w, i, k)
  {
    hide Unsigned, Agree, GoodEvent, DefaultApproval;
    ManifestDetermines(w.env, w.bundles[i].core, w.log[k].env, w.log[k].core);
    EventApproved(env, w.log[k]);
    AgreedApproval(w.env, w.bundles[i].core, w.log[k].env, w.log[k].core);
  }

  /**
  So a valid verdict fixes everything the manifest covers, to what each signature of the log on the bundle
  was made for; and without forged records there is such a signature.
  */
  lemma ValidMeansUnchanged(env: Env, steps: seq<Step>, w: World, i: nat)
    requires Sound(env) && Fair(env, steps) && w == Run(Initial(env), steps)
    requires i < |w.bundles| && Distinguished(env, w, i) && Verify(w.env, w.bundles[i]).status == StatusValid
    ensures forall k: nat | MadeBy(w, i, k) :: AsSigned(w, i, k)
    ensures Genuine(env, steps) ==> exists k: nat :: MadeBy(w, i, k)
  {
    hide Unsigned, Verify, Sound, Fair, Run, Distinguished, AsSigned, Traced, GoodEvent, Platform, Normalized;
    hide Made, Attests, Genuine;
    TamperEvidence(env, steps, w, i);
    RunLogged(env, steps);
    forall k: nat | MadeBy(w, i, k) ensures AsSigned(w, i, k) { SameManifestAsSigned(env, w, i, k); }
    if Genuine(env, steps) {
      GenuineEvidence(env, steps, w, i);
      assert Normalized(w.bundles[i])[0] in Normalized(w.bundles[i]);
    }
  }

  lemma EventApproved(env: Env, e: Event)
    requires GoodEvent(env, e)
    ensures e.core.approval.Some? && e.core.approval.value.status == L("approved") &&
      e.core.approval.value.approvedBy != []
  {}

  lemma AgreedApproval(env: Env, b: Core, env': Env, d: Core)
    requires Agree(env, b, env', d)
    requires d.approval.Some? && d.approval.value.status == L("approved") && d.approval.value.approvedBy != []
    ensures var a := DefaultApproval(b, NO_PATCH); a.status == L("approved") && a.approvedBy != []
  {
    hide Provenance, Sbom, Attestation;
    assert |L("approved")| > 0;
  }
}
