/**
The signing module as it runs: bundles and the fleet state are objects updated in place. Every
method is the corresponding function of Signing on the values of those objects.
*/
module SigningService {
  import opened Text
  import opened Json
  import opened JsMap
  import opened Options
  import opened Manifest
  import opened Signing
  import Ledger

  /** A policy bundle in the fleet state. */
  class PolicyBundle {
    var content: Content
    var tenantId: Text
    var approval: Option<Approval>
    var generation: Option<int>
    var signed: bool
    var signatureStatus: Text
    var manifestHash: Text
    var signature: Option<SigRecord>
    var signatures: Option<seq<SigRecord>>

    function Doc(): Bundle
      reads this
    {
      Bundle(Core(content, tenantId, approval, generation), signed, signatureStatus, manifestHash, signature,
        signatures)
    }

    /** A bundle enters the fleet unsigned and without a generation. */
    constructor (content: Content, tenantId: Text, approval: Option<Approval>)
      ensures Doc() == Bundle(Core(content, tenantId, approval, None), false, [], [], None, None)
    {
      this.content, this.tenantId, this.approval, this.generation := content, tenantId, approval, None;
      this.signed, this.signatureStatus, this.manifestHash := false, [], [];
      this.signature, this.signatures := None, None;
    }
  }

  class FleetState {
    var bundleGeneration: int
    const signatures: Ledger.List<SigRecord>
    const artifacts: Ledger.List<ArtifactRecord>

    ghost predicate Valid() {
      signatures as object != artifacts as object
    }

    function Value(): Fleet
      reads this, signatures, artifacts
    {
      Fleet(bundleGeneration, signatures.records, artifacts.records)
    }

    constructor ()
      ensures Valid() && Value() == Fleet(0, [], [])
      ensures fresh(signatures) && fresh(artifacts)
    {
      bundleGeneration := 0;
      signatures := new Ledger.List<SigRecord>();
      artifacts := new Ledger.List<ArtifactRecord>();
    }
  }

  lemma NoneRefused(decision: Option<Approval>)
    ensures decision.None? ==> EnforceApproval(decision).Some?
  {}

  /** One process: its keys and configuration, and the fleet state it owns. */
  class Signer {
    const env: Env
    const fleet: FleetState

    constructor (env: Env, fleet: FleetState)
      ensures this.env == env && this.fleet == fleet
    {
      this.env, this.fleet := env, fleet;
    }

    method Normalize(b: PolicyBundle) returns (rs: seq<SigRecord>)
      modifies b
      ensures b.Doc() == Grown(old(b.Doc())) && rs == Normalized(old(b.Doc()))
    {
      hide FromEntries, Keyed;
      var list := if b.signatures.Some? then b.signatures.value else [];
      if b.signature.Some? && HasSig(b.signature.value) {
        list := list + [b.signature.value];
      }
      if b.signatures.Some? {
        b.signatures := Some(list);
      }
      assert list == Pushed(old(b.Doc()));
      rs := Dedupe(list);
    }

    /** One record per key, the last one, through a Map. */
    static method Dedupe(list: seq<SigRecord>) returns (rs: seq<SigRecord>)
      ensures rs == Values(FromEntries(Keyed(list)))
    {
      hide Set, RecordKey;
      var deduped: seq<Entry<Text, SigRecord>> := [];
      for i := 0 to |list|
        invariant deduped == FromEntries(Keyed(list[..i]))
      {
        assert Keyed(list[..i + 1])[..i] == Keyed(list[..i]);
        deduped := Set(deduped, RecordKey(list[i]), list[i]);
      }
      assert list[..|list|] == list;
      rs := Values(deduped);
    }

    method VerifyAgainstKeys(payload: Text, sig: Text, keys: seq<(Text, Text)>) returns (keyid: Text)
      ensures keyid == VerifiedBy(env, payload, sig, keys)
    {
      if sig == [] { return []; }
      for i := 0 to |keys|
        invariant VerifiedBy(env, payload, sig, keys) == VerifiedBy(env, payload, sig, keys[i..])
      {
        assert keys[i..][1..] == keys[i + 1..];
        if (env.verify)(keys[i].1, payload, sig) { return keys[i].0; }
      }
      keyid := [];
    }

    method Verify(b: PolicyBundle, manifest: Json) returns (v: Verdict)
      modifies b
      ensures b.Doc() == Grown(old(b.Doc()))
      ensures v == VerifyAs(env, old(b.Doc()), manifest)
    {
      hide StableJson, VerifiedBy, VerificationKeys, TenantId, Normalized, Judge;
      var payload := StableJson(manifest);
      var hash := (env.sha256)(payload);
      var rs := Normalize(b);
      var results: seq<Check> := [];
      for i := 0 to |rs|
        invariant b.Doc() == Grown(old(b.Doc()))
        invariant |results| == i && forall j | 0 <= j < i :: results[j] == CheckRecord(env, payload, rs[j])
      {
        var r := rs[i];
        var sig := Or(r.sig, r.legacySig);
        var verified := false;
        if r.publicKeyPem != [] {
          verified := sig != [] && (env.verify)(r.publicKeyPem, payload, sig);
        } else {
          var keyid := VerifyAgainstKeys(payload, sig, VerificationKeys(env));
          verified := sig != [] && keyid != [];
        }
        results := results + [Check(r.id, r.keyId, r.alg, r.payloadHash, r.payloadHash == hash, verified)];
      }
      assert results == VerifyAs(env, old(b.Doc()), manifest).results;
      v := Verdict(TenantId(b.Doc().core), b.content.id, b.content.revision, hash, Judge(results), results);
    }

    /** The writes that come before the manifest is built. */
    method Prepare(b: PolicyBundle, a: Approval)
      requires fleet.Valid()
      modifies b, fleet`bundleGeneration
      ensures b.Doc() == Prepared(old(fleet.Value()), old(b.Doc()), a)
      ensures fleet.Value() == (if old(b.generation).Some? then old(fleet.Value())
        else old(fleet.Value()).(bundleGeneration := NextGeneration(old(fleet.Value()))))
    {
      b.tenantId := Or(a.tenantId, TenantId(b.Doc().core));
      b.approval := Some(a);
      if b.generation.None? {
        fleet.bundleGeneration := (if fleet.bundleGeneration > 0 then fleet.bundleGeneration else 0) + 1;
        b.generation := Some(fleet.bundleGeneration);
      }
    }

    method SignBundle(b: PolicyBundle, decision: Option<Approval>, id: Text, at: Text) returns (s: SignResult)
      requires fleet.Valid()
      modifies b, fleet, fleet.signatures
      ensures s == Sign(env, old(fleet.Value()), old(b.Doc()), decision, id, at)
      ensures if s.Signed? then b.Doc() == s.bundle && fleet.Value() == s.fleet
              else b.Doc() == old(b.Doc()) && fleet.Value() == old(fleet.Value())
    {
      hide Prepared, NewRecord, EnforceApproval, NextGeneration, Ledger.Touch;
      var refused := EnforceApproval(decision);
      if refused.Some? { return SignFailed(refused.value); }
      assert decision.Some? by { NoneRefused(decision); }
      Prepare(b, decision.value);
      var record := NewRecord(env, b.Doc().core, decision.value, id, at);
      b.signed := true;
      b.signatureStatus := L("signed");
      b.manifestHash := record.payloadHash;
      b.signature := Some(record);
      b.signatures := Some([record]);
      fleet.signatures.Use(record, SameSignature);
      s := Signed(fleet.Value(), b.Doc(), record);
    }

    method EnsureSignature(b: PolicyBundle, id: Text, at: Text) returns (e: Ensured)
      requires fleet.Valid()
      modifies b, fleet, fleet.signatures
      ensures e == Ensure(env, old(fleet.Value()), old(b.Doc()), id, at)
      ensures b.Doc() == e.bundle && fleet.Value() == (if e.EnsureFailed? then old(fleet.Value()) else e.fleet)
    {
      hide Unsigned, StableJson, Ledger.Touch, VerifyAs, Sign, DefaultApproval, Normalized;
      var v := Verify(b, Unsigned(env, b.Doc().core));
      var looked := b.Doc();
      if v.status == StatusValid {
        var rs := Normalize(b);
        ghost var start := fleet.Value();
        for i := 0 to |rs|
          invariant b.Doc() == Grown(looked)
          invariant UpsertAll(fleet.Value(), rs[i..]) == UpsertAll(start, rs)
        {
          assert rs[i..][0] == rs[i] && rs[i..][1..] == rs[i + 1..];
          fleet.signatures.Use(rs[i], SameSignature);
        }
        e := Reused(fleet.Value(), b.Doc());
      } else {
        var s := SignBundle(b, Some(DefaultApproval(looked.core, NO_PATCH)), id, at);
        if s.SignFailed? { return EnsureFailed(s.error, looked); }
        var again := Verify(b, Unsigned(env, b.Doc().core));
        e := NewlySigned(s.fleet, b.Doc(), s.record);
      }
    }

    method ServeManifest(b: PolicyBundle, id: Text, at: Text) returns (s: Served)
      requires fleet.Valid()
      modifies b, fleet, fleet.signatures
      ensures s == Serve(env, old(fleet.Value()), old(b.Doc()), id, at)
      ensures b.Doc() == s.bundle && fleet.Value() == (if s.ServeFailed? then old(fleet.Value()) else s.fleet)
    {
      hide Unsigned, StableJson, VerifyAs, Ensure, Normalized;
      var e := EnsureSignature(b, id, at);
      if e.EnsureFailed? { return ServeFailed(e.error, e.bundle); }
      var manifest := Unsigned(env, b.Doc().core);
      var verdict := Verify(b, manifest);
      var rs := Normalize(b);
      s := Serving(fleet.Value(), b.Doc(), manifest, verdict.payloadHash, rs, verdict, e.Reused?);
    }

    /** The size of the payload and the time are the platform's. */
    method BuildArtifact(b: PolicyBundle, id: Text, at: Text, size: nat) returns (s: Served)
      requires fleet.Valid()
      modifies b, fleet, fleet.signatures, fleet.artifacts
      ensures s == Serve(env, old(fleet.Value()), old(b.Doc()), id, at) && b.Doc() == s.bundle
      ensures fleet.Value() == (if s.ServeFailed? then old(fleet.Value())
        else s.fleet.(artifacts := Ledger.Touch(s.fleet.artifacts, NewArtifactRecord(env, s, size, at), SameArtifact)))
    {
      hide Serve, NewArtifactRecord, Ledger.Touch;
      s := ServeManifest(b, id, at);
      if s.Serving? {
        fleet.artifacts.Use(NewArtifactRecord(env, s, size, at), SameArtifact);
      }
    }
  }
}
