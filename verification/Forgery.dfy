/**
Signature records that no signing made. Verification trusts the public key pinned in the record itself, so
what a valid verdict tells depends on the keys pinned in a bundle's signatures.
*/
module Forgery {
  import opened Text
  import opened Json
  import opened JsMap
  import opened Options
  import opened Manifest
  import opened Signing
  import opened Serving
  import opened SigningRuns
  import JsonReader

  /** The signature text of a record. */
  function SigOf(r: SigRecord): Text {
    Or(r.sig, r.legacySig)
  }

  /** A key of the signing service: the current one, a retired one, or that of a logged signing. */
  predicate Trusted(w: World, key: Text) {
    || key == w.env.publicKeyPem
    || (exists i | 0 <= i < |w.env.retired| :: w.env.retired[i].raw == key)
    || (exists k | 0 <= k < |w.log| :: w.log[k].env.publicKeyPem == key)
  }

  /** The manifest of this bundle is one that was signed. */
  ghost predicate SignedBefore(w: World, core: Core) {
    hide Unsigned;
    exists k :: 0 <= k < |w.log| && Unsigned(w.env, core) == Unsigned(w.log[k].env, w.log[k].core)
  }

  /** Nobody signed anything else with a key of the service to make this record: it was not forged with such a key. */
  ghost predicate Unforged(w: World, r: SigRecord) {
    hide Unsigned, StableJson;
    forall key, payload | Trusted(w, key) && (w.env.verify)(key, payload, SigOf(r)) ::
      exists k :: 0 <= k < |w.log| && payload == StableJson(Unsigned(w.log[k].env, w.log[k].core))
  }

  ghost predicate AllUnforged(w: World, b: Bundle) {
    forall r | r in Normalized(b) :: Unforged(w, r)
  }

  /* ---- a record without a pin, or with a key of the service ---- */

  lemma {:induction false} SomeKeyVerified(env: Env, payload: Text, sig: Text, keys: seq<(Text, Text)>)
    requires VerifiedBy(env, payload, sig, keys) != []
    ensures exists i :: 0 <= i < |keys| && (env.verify)(keys[i].1, payload, sig)
  {
    if !(env.verify)(keys[0].1, payload, sig) {
      SomeKeyVerified(env, payload, sig, keys[1..]);
      var i :| 0 <= i < |keys| - 1 && (env.verify)(keys[1..][i].1, payload, sig);
      assert keys[i + 1] == keys[1..][i];
    }
  }

  /** The key that decides: none is pinned and a known one verifies, or the pinned one does. */
  lemma TrustedKeyVerified(w: World, payload: Text, r: SigRecord)
    requires SignatureVerifies(w.env, payload, r) && (r.publicKeyPem == [] || Trusted(w, r.publicKeyPem))
    ensures exists key :: Trusted(w, key) && (w.env.verify)(key, payload, SigOf(r))
  {
    if r.publicKeyPem != [] {
      assert (w.env.verify)(r.publicKeyPem, payload, SigOf(r));
    } else {
      var keys := VerificationKeys(w.env);
      SomeKeyVerified(w.env, payload, SigOf(r), keys);
      var i :| 0 <= i < |keys| && (w.env.verify)(keys[i].1, payload, SigOf(r));
      if i > 0 { assert keys[i].1 == w.env.retired[i - 1].raw; }
      assert Trusted(w, keys[i].1);
    }
  }

  /** One signature that is unpinned or pinned to a key of the service suffices, whatever the others are. */
  lemma AnchorTells(w: World, b: Bundle, r: SigRecord)
    requires Verify(w.env, b).status == StatusValid && r in Normalized(b) && Unforged(w, r)
    requires r.publicKeyPem == [] || Trusted(w, r.publicKeyPem)
    ensures SignedBefore(w, b.core)
  {
    hide Unsigned, StableJson, Verify, Normalized, Trusted, SignatureVerifies;
    var m := Unsigned(w.env, b.core);
    VerdictOfAll(w.env, b);
    AttestedVerifies(w.env, r, m);
    TrustedKeyVerified(w, StableJson(m), r);
    var key :| Trusted(w, key) && (w.env.verify)(key, StableJson(m), SigOf(r));
    var k :| 0 <= k < |w.log| && StableJson(m) == StableJson(Unsigned(w.log[k].env, w.log[k].core));
    JsonReader.StableJsonInjective(m, Unsigned(w.log[k].env, w.log[k].core));
  }

  lemma AttestedVerifies(env: Env, r: SigRecord, m: Json)
    requires Attests(env, r, m)
    ensures SignatureVerifies(env, StableJson(m), r)
  {
    hide StableJson;
  }

  ghost predicate AsSignedOnce(w: World, i: nat)
    requires i < |w.bundles|
  {
    exists k: nat :: k < |w.log| && AsSigned(w, i, k)
  }

  /**
  In every reachable state, whatever records were put on bundles: a valid verdict means that the bundle says
  what it said at some logged signing, which a named approver approved, if one of its signatures has no
  pinned key or one of the service's, and was not forged with such a key. No hash assumption is needed.
  */
  lemma AnchoredMeansSigned(env: Env, steps: seq<Step>, w: World, i: nat, r: SigRecord)
    requires Sound(env) && Fair(env, steps) && w == Run(Initial(env), steps) && i < |w.bundles|
    requires Verify(w.env, w.bundles[i]).status == StatusValid && r in Normalized(w.bundles[i]) && Unforged(w, r)
    requires r.publicKeyPem == [] || Trusted(w, r.publicKeyPem)
    ensures AsSignedOnce(w, i)
  {
    hide Sound, Fair, Run, Verify, Normalized, Unforged, Trusted, Unsigned, GoodEvent, Platform, AsSigned;
    RunLogged(env, steps);
    AnchorTells(w, w.bundles[i], r);
    var k: nat :| k < |w.log| && Unsigned(w.env, w.bundles[i].core) == Unsigned(w.log[k].env, w.log[k].core);
    SameManifestAsSigned(env, w, i, k);
  }

  /* ---- forged records ---- */

  /** A record that another process signs for this manifest, with its own key pinned. */
  function Forged(env: Env, evil: Env, core: Core): SigRecord {
    var payload := StableJson(Unsigned(env, core));
    SigRecord(
      evil.publicKeyPem, TenantId(core), core.content.id, core.content.revision, core.generation, L("Ed25519"),
      env.keyId, env.keyId,
      (evil.sign)(payload), [], (env.sha256)(payload), evil.publicKeyPem, evil.publicKeyRaw, [], [], [], [], L("valid"))
  }

  lemma ForgedAttests(env: Env, evil: Env, core: Core)
    requires Platform(env, evil)
    ensures Attests(env, Forged(env, evil, core), Unsigned(env, core))
  {
    hide Unsigned, StableJson, TenantId;
  }

  /** The bundle with one forged record in place of its signatures. */
  function WithForged(env: Env, evil: Env, b: Bundle): Bundle {
    b.(signature := None, signatures := Some([Forged(env, evil, b.core)]))
  }

  lemma WithForgedValid(env: Env, evil: Env, b: Bundle)
    requires Platform(env, evil)
    ensures Verify(env, WithForged(env, evil, b)).status == StatusValid
  {
    hide Unsigned, StableJson, Forged, Normalized, Attests, Verify;
    var b', r := WithForged(env, evil, b), Forged(env, evil, b.core);
    ForgedAttests(env, evil, b.core);
    OneRecordNormalizes(b', r);
    VerdictOfAll(env, b');
  }

  /**
  An outsider's key makes any bundle valid, whatever it says, and it is then served as already signed:
  nothing in the log, no approval.
  */
  lemma ForgedIsServed(env: Env, evil: Env, f: Fleet, b: Bundle, id: Text, at: Text)
    requires Platform(env, evil)
    ensures var s := Serve(env, f, WithForged(env, evil, b), id, at);
      s.Serving? && s.reused && s.verdict.status == StatusValid && s.bundle.core == b.core
  {
    hide Unsigned, StableJson, Verify, WithForged, Normalized, Serve;
    WithForgedValid(env, evil, b);
    ReuseStep(env, f, WithForged(env, evil, b), id, at);
    assert WithForged(env, evil, b).core == b.core by { SameCore(env, evil, b); }
  }

  lemma SameCore(env: Env, evil: Env, b: Bundle)
    ensures WithForged(env, evil, b).core == b.core
  {
    hide Forged;
  }

  const REJECTED := Approval([], [], L("rejected"), [], [], [], [])

  /** A bundle whose approval was rejected is created, and gets one record forged by an outsider. */
  function ForgeryRun(env: Env, evil: Env, content: Content): seq<Step> {
    var b := NewBundle(content, [], Some(REJECTED));
    [Create(content, [], Some(REJECTED)), Put(0, None, Some([Forged(env, evil, b.core)]))]
  }

  /** An input: in a process that never signed anything, that bundle is valid. */
  lemma ForgeryInput(content: Content, w: World)
    requires w == Run(Initial(Simple([1], [7], [])), ForgeryRun(Simple([1], [7], []), Simple([2], [8], []), content))
    ensures |w.bundles| == 1 && w.log == [] && w.bundles[0].core.approval == Some(REJECTED)
    ensures Verify(w.env, w.bundles[0]).status == StatusValid && !SignedBefore(w, w.bundles[0].core)
  {
    hide Run, Forged, Verify, Sound, Unsigned;
    var env, evil := Simple([1], [7], []), Simple([2], [8], []);
    var steps := ForgeryRun(env, evil, content);
    SimpleSound([1], [7], []);
    SimpleSound([2], [8], []);
    RunOne(Initial(env), steps[0]);
    RunMore(Initial(env), [steps[0]], steps[1]);
    assert steps == [steps[0]] + [steps[1]];
    WithForgedValid(env, evil, NewBundle(content, [], Some(REJECTED)));
  }

  /* ---- exactly which pins tell ---- */

  /** The keys pinned in the signatures a bundle is verified by; the empty text for an unpinned one. */
  function Pins(b: Bundle): set<Text> {
    set r | r in Normalized(b) :: r.publicKeyPem
  }

  /** With these pins a valid verdict means that the manifest was signed, unless a key of the service is abused. */
  ghost predicate PinsTell(w: World, pins: set<Text>) {
    forall b | Pins(b) == pins && AllUnforged(w, b) && Verify(w.env, b).status == StatusValid :: SignedBefore(w, b.core)
  }

  /** Some signature has no pin, or a key of the service. */
  predicate Anchored(w: World, pins: set<Text>) {
    exists p | p in pins :: p == [] || Trusted(w, p)
  }

  /** The key of a process that is not the service's: no key of the service verifies what it signs. */
  ghost predicate Outsider(env: Env, w: World, evil: Env) {
    Platform(env, evil) && forall key, payload, text | Trusted(w, key) :: !(env.verify)(key, payload, (evil.sign)(text))
  }

  lemma AnchoredTells(w: World, pins: set<Text>)
    requires Anchored(w, pins)
    ensures PinsTell(w, pins)
  {
    hide Verify, Normalized, Unforged, Trusted, SignedBefore;
    forall b | Pins(b) == pins && AllUnforged(w, b) && Verify(w.env, b).status == StatusValid
      ensures SignedBefore(w, b.core)
    {
      var p :| p in pins && (p == [] || Trusted(w, p));
      assert p in Pins(b);
      var r :| r in Normalized(b) && r.publicKeyPem == p;
      AnchorTells(w, b, r);
    }
  }

  /** A generation that no logged manifest states. */
  function NewGeneration(log: seq<Event>): (g: nat)
    ensures forall k | 0 <= k < |log| :: StatedGeneration(log[k].core) < g
  {
    if log == [] then 0
    else
      var g := NewGeneration(log[..|log| - 1]);
      var last := StatedGeneration(log[|log| - 1].core);
      if last < g then g else last + 1
  }

  const NO_CONTENT := Content([], [], [], [], [], [], [], [], [], [], None, None, 0)

  function NewCore(w: World): Core {
    Core(NO_CONTENT, [], None, Some(NewGeneration(w.log)))
  }

  lemma NewCoreNotSigned(w: World)
    ensures !SignedBefore(w, NewCore(w))
  {
    hide Unsigned, NewGeneration, NewCore;
    forall k | 0 <= k < |w.log| ensures Unsigned(w.env, NewCore(w)) != Unsigned(w.log[k].env, w.log[k].core) {
      NewManifest(w, k);
    }
  }

  lemma NewManifest(w: World, k: nat)
    requires k < |w.log|
    ensures Unsigned(w.env, NewCore(w)) != Unsigned(w.log[k].env, w.log[k].core)
  {
    hide Unsigned, Agree;
    if Unsigned(w.env, NewCore(w)) == Unsigned(w.log[k].env, w.log[k].core) {
      ManifestDetermines(w.env, NewCore(w), w.log[k].env, w.log[k].core);
      AgreeOnGeneration(w.env, NewCore(w), w.log[k].env, w.log[k].core);
    }
  }

  lemma AgreeOnGeneration(env: Env, b: Core, env': Env, d: Core)
    requires Agree(env, b, env', d)
    ensures StatedGeneration(b) == StatedGeneration(d)
  {
    hide Provenance, Sbom, Attestation, DefaultApproval;
  }

  /** One forged record for every pin, each by the process that owns the key. */
  function Forgeries(env: Env, core: Core, pins: seq<Text>, owner: Text -> Env): seq<SigRecord> {
    seq(|pins|, i requires 0 <= i < |pins| => Forged(env, owner(pins[i]), core))
  }

  /** Every record on the list keeps a normalized one with its key. */
  lemma {:induction false} EntriesCover(rs: seq<SigRecord>)
    ensures forall r | r in rs :: Has(FromEntries(Keyed(rs)), RecordKey(r))
    ensures forall e | e in FromEntries(Keyed(rs)) :: e.key == RecordKey(e.value)
  {
    hide RecordKey;
    if rs != [] {
      var n := |rs| - 1;
      assert Keyed(rs)[..n] == Keyed(rs[..n]);
      EntriesCover(rs[..n]);
      assert rs == rs[..n] + [rs[n]];
    }
  }

  lemma NormalizedCovers(b: Bundle, r: SigRecord)
    requires r in Pushed(b)
    ensures exists n :: n in Normalized(b) && RecordKey(n) == RecordKey(r)
  {
    hide RecordKey, FromEntries, Keyed;
    var es := FromEntries(Keyed(Pushed(b)));
    EntriesCover(Pushed(b));
    var i := Find(es, RecordKey(r));
    assert es[i] in es && es[i].value == Normalized(b)[i];
  }

  function ForgedBundle(w: World, pins: seq<Text>, owner: Text -> Env): Bundle {
    Bundle(NewCore(w), false, [], [], None, Some(Forgeries(w.env, NewCore(w), pins, owner)))
  }

  /** Each pin is the key of an outsider. */
  ghost predicate Owned(env: Env, w: World, pins: seq<Text>, owner: Text -> Env) {
    forall p | p in pins :: owner(p).publicKeyPem == p && Outsider(env, w, owner(p))
  }

  lemma ForgedKey(env: Env, w: World, evil: Env, core: Core)
    requires Outsider(env, w, evil)
    ensures RecordKey(Forged(w.env, evil, core)) == evil.publicKeyPem == Forged(w.env, evil, core).publicKeyPem
  {
    hide Unsigned, StableJson, TenantId;
  }

  lemma ForgedAt(env: Env, w: World, pins: seq<Text>, owner: Text -> Env, r: SigRecord)
    requires Owned(env, w, pins, owner) && r in Forgeries(w.env, NewCore(w), pins, owner)
    ensures r.publicKeyPem in pins && RecordKey(r) == r.publicKeyPem
  {
    hide NewCore, Outsider, Forged, RecordKey;
    var rs := Forgeries(w.env, NewCore(w), pins, owner);
    var j :| 0 <= j < |rs| && rs[j] == r;
    ForgedKey(env, w, owner(pins[j]), NewCore(w));
  }

  lemma PinnedAt(env: Env, w: World, pins: seq<Text>, owner: Text -> Env, i: nat)
    requires Owned(env, w, pins, owner) && i < |pins|
    ensures Forgeries(w.env, NewCore(w), pins, owner)[i].publicKeyPem == pins[i]
  {
    hide NewCore, Outsider, Forged;
    ForgedKey(env, w, owner(pins[i]), NewCore(w));
  }

  lemma ForgedPins(env: Env, w: World, pins: seq<Text>, owner: Text -> Env)
    requires Owned(env, w, pins, owner)
    ensures Pins(ForgedBundle(w, pins, owner)) == set p | p in pins
  {
    hide NewCore, Normalized, Outsider, Owned, Forged, RecordKey;
    var b, rs := ForgedBundle(w, pins, owner), Forgeries(w.env, NewCore(w), pins, owner);
    assert Pushed(b) == rs;
    NormalizedFromPushed(b);
    forall r | r in rs ensures r.publicKeyPem in pins && RecordKey(r) == r.publicKeyPem {
      ForgedAt(env, w, pins, owner, r);
    }
    forall p | p in pins ensures p in Pins(b) {
      var i :| 0 <= i < |pins| && pins[i] == p;
      PinnedAt(env, w, pins, owner, i);
      assert rs[i] in rs;
      NormalizedCovers(b, rs[i]);
    }
  }

  lemma ForgedBundleForged(env: Env, w: World, pins: seq<Text>, owner: Text -> Env)
    requires Platform(env, w.env) && Owned(env, w, pins, owner) && pins != []
    ensures Verify(w.env, ForgedBundle(w, pins, owner)).status == StatusValid
    ensures AllUnforged(w, ForgedBundle(w, pins, owner))
  {
    hide NewCore, Normalized, Verify, Forged, Unsigned, Attests, Unforged, Outsider;
    var b := ForgedBundle(w, pins, owner);
    var rs := Forgeries(w.env, NewCore(w), pins, owner);
    NormalizedFromPushed(b);
    NormalizedEmpty(b);
    VerdictOfAll(w.env, b);
    forall r | r in Normalized(b) ensures Attests(w.env, r, Unsigned(w.env, b.core)) && Unforged(w, r) {
      assert r in rs;
      var j :| 0 <= j < |rs| && rs[j] == r;
      OutsiderForges(env, w, owner(pins[j]), NewCore(w));
    }
  }

  lemma OutsiderForges(env: Env, w: World, evil: Env, core: Core)
    requires Platform(env, w.env) && Outsider(env, w, evil)
    ensures Attests(w.env, Forged(w.env, evil, core), Unsigned(w.env, core)) && Unforged(w, Forged(w.env, evil, core))
  {
    hide Unsigned, StableJson, TenantId, Trusted;
    ForgedAttests(w.env, evil, core);
    assert SigOf(Forged(w.env, evil, core)) == (evil.sign)(StableJson(Unsigned(w.env, core)));
  }

  /**
  In every reachable state and for every set of pinned keys that are the service's, an outsider's, or absent:
  a valid verdict under these pins tells that the manifest was signed, exactly when some signature has no pin
  or a key of the service.
  */
  lemma PinsTellExactly(env: Env, steps: seq<Step>, w: World, pins: set<Text>, owner: Text -> Env)
    requires Sound(env) && Fair(env, steps) && w == Run(Initial(env), steps) && pins != {}
    requires forall p | p in pins && p != [] && !Trusted(w, p) ::
      owner(p).publicKeyPem == p && Outsider(env, w, owner(p))
    ensures PinsTell(w, pins) <==> Anchored(w, pins)
  {
    hide Sound, Fair, Run, Trusted, Outsider, Verify, SignedBefore, AllUnforged, Pins, NewCore, GoodEvent, Platform;
    if Anchored(w, pins) {
      AnchoredTells(w, pins);
    } else {
      var ps := Ascending(pins);
      RunLogged(env, steps);
      assert Owned(env, w, ps, owner);
      ForgedPins(env, w, ps, owner);
      assert (set p | p in ps) == pins;
      ForgedBundleForged(env, w, ps, owner);
      NewCoreNotSigned(w);
      assert ForgedBundle(w, ps, owner).core == NewCore(w);
    }
  }
}
