/**
What a client of a served manifest can rely on.
*/
module Serving {
  import opened Text
  import opened Json
  import opened JsMap
  import opened Options
  import opened Manifest
  import opened Signing
  import Ledger

  /** The approval that serving would sign with is accepted: none is stored, or it is approved. */
  predicate Approvable(b: Core) {
    b.approval.None? || b.approval.value.status == [] || b.approval.value.status == L("approved")
  }

  lemma DefaultApprovalAccepted(b: Core)
    ensures EnforceApproval(Some(DefaultApproval(b, NO_PATCH))).None? <==> Approvable(b)
    ensures DefaultApproval(b, NO_PATCH).approvedBy != []
  {
    assert |L("local-dev-security-admin")| > 0 && |L("approved")| > 0;
  }

  lemma OneRecordNormalizes(b: Bundle, r: SigRecord)
    requires Pushed(b) != [] && forall x | x in Pushed(b) :: x == r
    ensures Normalized(b) == [r]
  {
    var rs := Pushed(b);
    assert forall i | 0 <= i < |rs| :: rs[i] == r by { assert forall i | 0 <= i < |rs| :: rs[i] in rs; }
    CopiesCollapse(rs, r);
  }

  lemma {:induction false} CopiesCollapse(rs: seq<SigRecord>, r: SigRecord)
    requires rs != [] && forall i | 0 <= i < |rs| :: rs[i] == r
    ensures FromEntries(Keyed(rs)) == [Entry(RecordKey(r), r)]
  {
    var n := |rs| - 1;
    var es := Keyed(rs);
    assert es[..n] == Keyed(rs[..n]);
    if n > 0 {
      CopiesCollapse(rs[..n], r);
    } else {
      assert es[..n] == [];
    }
  }

  /** A record that was made by signing this manifest checks out against it. */
  ghost predicate Attests(env: Env, r: SigRecord, manifest: Json) {
    CheckRecord(env, StableJson(manifest), r).Valid()
  }

  lemma VerdictOfOne(env: Env, b: Bundle, r: SigRecord, manifest: Json)
    requires Normalized(b) == [r]
    ensures VerifyAs(env, b, manifest).results == [CheckRecord(env, StableJson(manifest), r)]
    ensures VerifyAs(env, b, manifest).status == (if Attests(env, r, manifest) then StatusValid else StatusInvalid)
  {
    hide Unsigned, StableJson;
    var check := CheckRecord(env, StableJson(manifest), r);
    assert VerifyAs(env, b, manifest).results == [check];
    assert [check][0].Valid() == check.Valid();
  }

  lemma NewRecordAttests(env: Env, p: Core, a: Approval, id: Text, signedAt: Text)
    requires Sound(env)
    ensures Attests(env, NewRecord(env, p, a, id, signedAt), Unsigned(env, p))
  {
    hide Unsigned, StableJson;
  }

  /** Signing leaves exactly one signature, and it is valid. */
  lemma FreshlySigned(env: Env, f: Fleet, b: Bundle, a: Option<Approval>, id: Text, signedAt: Text)
    requires Sound(env)
    ensures var s := Sign(env, f, b, a, id, signedAt);
      s.Signed? ==> Normalized(s.bundle) == [s.record] && Verify(env, s.bundle).status == StatusValid
  {
    hide Unsigned, StableJson;
    var s := Sign(env, f, b, a, id, signedAt);
    if s.Signed? {
      OneRecordNormalizes(s.bundle, s.record);
      NewRecordAttests(env, s.bundle.core, a.value, id, signedAt);
      VerdictOfOne(env, s.bundle, s.record, Unsigned(env, s.bundle.core));
    }
  }

  lemma AllValid(env: Env, b: Bundle, r: SigRecord)
    requires Verify(env, b).status == StatusValid && r in Normalized(b)
    ensures Attests(env, r, Unsigned(env, b.core))
  {
    hide Unsigned, StableJson;
    var rs := Normalized(b);
    var i :| 0 <= i < |rs| && rs[i] == r;
    assert Verify(env, b).results[i].Valid();
  }

  /** The verdict in terms of the records: none, all attesting the manifest, or not. */
  lemma VerdictOfAll(env: Env, b: Bundle)
    ensures Verify(env, b).status == StatusUnsigned <==> Normalized(b) == []
    ensures Verify(env, b).status == StatusValid <==>
      Normalized(b) != [] && forall r | r in Normalized(b) :: Attests(env, r, Unsigned(env, b.core))
  {
    hide Unsigned, StableJson, Normalized, CheckRecord;
    var payload := StableJson(Unsigned(env, b.core));
    var rs, results := Normalized(b), Verify(env, b).results;
    assert |results| == |rs| && forall i | 0 <= i < |rs| :: results[i] == CheckRecord(env, payload, rs[i]);
    if forall r | r in rs :: Attests(env, r, Unsigned(env, b.core)) {
      forall i | 0 <= i < |results| ensures results[i].Valid() { assert rs[i] in rs; }
    } else {
      var r :| r in rs && !Attests(env, r, Unsigned(env, b.core));
      var i :| 0 <= i < |rs| && rs[i] == r;
      assert !results[i].Valid();
    }
  }

  /** There is nothing to verify exactly when nothing is pushed or stored in the array. */
  lemma NormalizedEmpty(b: Bundle)
    ensures Normalized(b) == [] <==> Pushed(b) == []
  {
    var es := Keyed(Pushed(b));
    assert es == [] ==> FromEntries(es) == [];
    assert es != [] ==> Has(FromEntries(es), es[|es| - 1].key);
  }

  lemma NormalizedFromPushed(b: Bundle)
    ensures forall r | r in Normalized(b) :: r in Pushed(b)
  {
    var rs := Pushed(b);
    EntriesFrom(rs);
  }

  lemma {:induction false} EntriesFrom(rs: seq<SigRecord>)
    ensures forall e | e in FromEntries(Keyed(rs)) :: e.value in rs
  {
    hide RecordKey;
    if rs != [] {
      var n := |rs| - 1;
      assert Keyed(rs)[..n] == Keyed(rs[..n]);
      EntriesFrom(rs[..n]);
      assert rs == rs[..n] + [rs[n]];
    }
  }

  /** Verification against a key set: some key verifies, and the id returned is the first such key's. */
  lemma {:induction false} OverlapVerifies(env: Env, payload: Text, sig: Text, keys: seq<(Text, Text)>)
    requires sig != [] && forall i | 0 <= i < |keys| :: keys[i].0 != []
    ensures VerifiedBy(env, payload, sig, keys) != [] <==>
      exists i :: 0 <= i < |keys| && (env.verify)(keys[i].1, payload, sig)
    ensures VerifiedBy(env, payload, sig, keys) != [] ==>
      exists i :: 0 <= i < |keys| && VerifiedBy(env, payload, sig, keys) == keys[i].0 &&
        (env.verify)(keys[i].1, payload, sig)
        && forall j | 0 <= j < i :: !(env.verify)(keys[j].1, payload, sig)
  {
    if keys != [] {
      OverlapVerifies(env, payload, sig, keys[1..]);
      if (env.verify)(keys[0].1, payload, sig) {
      } else if VerifiedBy(env, payload, sig, keys[1..]) != [] {
        var i :| 0 <= i < |keys| - 1 && VerifiedBy(env, payload, sig, keys[1..]) == keys[1..][i].0
          && (env.verify)(keys[1..][i].1, payload, sig)
          && forall j | 0 <= j < i :: !(env.verify)(keys[1..][j].1, payload, sig);
        assert keys[1..][i] == keys[i + 1];
        assert forall j | 0 < j < i + 1 :: keys[j] == keys[1..][j - 1];
      } else {
        assert forall i | 0 < i < |keys| :: keys[i] == keys[1..][i - 1];
      }
    }
  }

  /** A key of the process or of its rotation overlap verifies this signature. */
  ghost predicate KnownKeyVerifies(env: Env, payload: Text, sig: Text) {
    (env.verify)(env.publicKeyPem, payload, sig) ||
    exists i :: 0 <= i < |env.retired| && (env.verify)(env.retired[i].raw, payload, sig)
  }

  lemma UnpinnedVerifies(env: Env, payload: Text, r: SigRecord)
    requires env.keyId != [] && forall i | 0 <= i < |env.retired| :: env.retired[i].keyid != []
    requires r.publicKeyPem == [] && HasSig(r)
    ensures SignatureVerifies(env, payload, r) <==> KnownKeyVerifies(env, payload, Or(r.sig, r.legacySig))
  {
    var sig := Or(r.sig, r.legacySig);
    var keys := VerificationKeys(env);
    OverlapVerifies(env, payload, sig, keys);
    assert keys[0] == (env.keyId, env.publicKeyPem);
    assert forall i | 0 <= i < |env.retired| :: keys[i + 1] == (env.retired[i].keyid, env.retired[i].raw);
    if KnownKeyVerifies(env, payload, sig) && !(env.verify)(env.publicKeyPem, payload, sig) {
      var i :| 0 <= i < |env.retired| && (env.verify)(env.retired[i].raw, payload, sig);
      assert (env.verify)(keys[i + 1].1, payload, sig);
    }
  }

  /**
  What a valid verdict means record by record: there is a signature, every record states the hash of
  the current manifest, and every signature verifies with the key pinned in its record or, without
  one, with a current or retired key.
  */
  lemma ValidExactly(env: Env, b: Bundle)
    requires env.keyId != [] && forall i | 0 <= i < |env.retired| :: env.retired[i].keyid != []
    ensures var payload := StableJson(Unsigned(env, b.core));
      Verify(env, b).status == StatusValid <==>
        (Normalized(b) != [] && forall r | r in Normalized(b) ::
          && r.payloadHash == (env.sha256)(payload)
          && HasSig(r)
          && if r.publicKeyPem != [] then (env.verify)(r.publicKeyPem, payload, Or(r.sig, r.legacySig))
             else KnownKeyVerifies(env, payload, Or(r.sig, r.legacySig)))
  {
    hide Unsigned, StableJson, Normalized, KnownKeyVerifies, VerificationKeys, VerifiedBy;
    var payload := StableJson(Unsigned(env, b.core));
    var rs, results := Normalized(b), Verify(env, b).results;
    forall r | r in rs && r.publicKeyPem == [] && HasSig(r)
      ensures SignatureVerifies(env, payload, r) <==> KnownKeyVerifies(env, payload, Or(r.sig, r.legacySig))
    {
      UnpinnedVerifies(env, payload, r);
    }
    assert |results| == |rs| && forall i | 0 <= i < |rs| :: results[i] == CheckRecord(env, payload, rs[i]);
    assert forall r | r in rs :: exists i :: 0 <= i < |rs| && rs[i] == r;
  }

  /**
  A signing is refused exactly without an approved record and a named approver; otherwise the new
  record describes the bundle it is stored on: tenant, generation, payload hash, and the approver and
  approval that the manifest shows.
  */
  lemma RecordDescribesBundle(env: Env, f: Fleet, b: Bundle, a: Option<Approval>, id: Text, signedAt: Text)
    ensures var s := Sign(env, f, b, a, id, signedAt);
      && (s.Signed? <==> a.Some? && a.value.status == L("approved") && a.value.approvedBy != [])
      && (s.Signed? ==>
        Describes(env, b, a.value, s.bundle, s.record, s.fleet) && ShowsApproval(a.value, s.bundle.core, s.record))
  {
    hide Unsigned, StableJson, Ledger.Without, ShowsApproval, NO_PATCH;
    assert |L("local")| > 0;
    var s := Sign(env, f, b, a, id, signedAt);
    if s.Signed? { ApprovalShown(a.value, s.bundle.core, s.record); }
  }

  lemma ApprovalShown(a: Approval, b: Core, r: SigRecord)
    requires b.approval == Some(a) && a.status == L("approved") && a.approvedBy != []
    requires r.signedBy == a.approvedBy && r.approvalId == a.id
    ensures ShowsApproval(a, b, r)
  {
    assert |L("approved")| > 0;
  }

  /** The record names the approver, and the approval, that the manifest shows. */
  ghost predicate ShowsApproval(a: Approval, b: Core, r: SigRecord) {
    var shown := DefaultApproval(b, NO_PATCH);
    r.signedBy == shown.approvedBy && shown.status == L("approved") && (a.id != [] ==> r.approvalId == shown.id)
  }

  ghost predicate Describes(env: Env, b: Bundle, a: Approval, b': Bundle, r: SigRecord, f: Fleet) {
    hide Unsigned;
    && b'.core.content == b.core.content
    && r.tenantId == TenantId(b'.core) == (if a.tenantId != [] then a.tenantId else TenantId(b.core))
    && r.generation == b'.core.generation && r.generation.Some?
    && r.payloadHash == b'.manifestHash == (env.sha256)(StableJson(Unsigned(env, b'.core)))
    && f.signatures != [] && f.signatures[0] == r
  }

  /** What serving leaves and returns, in terms of the bundle it ends with. */
  ghost predicate GoodServe(env: Env, s: Served)
    requires s.Serving?
  {
    && s.manifest == Unsigned(env, s.bundle.core)
    && s.verdict.status == StatusValid
    && s.payloadHash == (env.sha256)(StableJson(s.manifest))
    && s.signatures == Normalized(s.bundle) && s.signatures != []
    && (forall r | r in s.signatures :: Attests(env, r, s.manifest))
    && Verify(env, s.bundle).status == StatusValid
  }

  lemma PresentGood(env: Env, f: Fleet, b: Bundle, reused: bool)
    requires Verify(env, b).status == StatusValid
    ensures GoodServe(env, Present(env, f, b, reused))
  {
    hide Unsigned, StableJson;
    GrownSame(env, b);
    GrownSame(env, Grown(b));
    var s := Present(env, f, b, reused);
    forall r | r in s.signatures ensures Attests(env, r, s.manifest) { AllValid(env, b, r); }
    assert Verify(env, b).results != [];
  }

  /** A valid bundle is served as it is. */
  lemma ServeReuses(env: Env, f: Fleet, b: Bundle, id: Text, signedAt: Text)
    requires Verify(env, b).status == StatusValid
    ensures Serve(env, f, b, id, signedAt) == Present(env, UpsertAll(f, Normalized(b)), Grown(Grown(b)), true)
    ensures GoodServe(env, Present(env, UpsertAll(f, Normalized(b)), Grown(Grown(b)), true))
  {
    hide Verify, Normalized, UpsertAll, Present, Unsigned, GoodServe;
    GrownSame(env, b);
    GrownSame(env, Grown(b));
    PresentGood(env, UpsertAll(f, Normalized(b)), Grown(Grown(b)), true);
  }

  /** Any other bundle is signed with its default approval first, and that may be refused. */
  lemma ServeSigns(env: Env, f: Fleet, b: Bundle, id: Text, signedAt: Text)
    requires Sound(env) && Verify(env, b).status != StatusValid
    ensures var s := Serve(env, f, b, id, signedAt);
      if Approvable(b.core) then s.Serving? && !s.reused && GoodServe(env, s)
      else s == ServeFailed(ApprovedRecordRequired, Grown(b))
  {
    hide Verify, Normalized, Present, Unsigned, GoodServe, DefaultApproval, Sound, NewRecord, Prepared, Upsert;
    DefaultApprovalAccepted(b.core);
    var a := Some(DefaultApproval(b.core, NO_PATCH));
    var s := Sign(env, f, Grown(b), a, id, signedAt);
    if s.Signed? {
      FreshlySigned(env, f, Grown(b), a, id, signedAt);
      GrownSame(env, s.bundle);
      PresentGood(env, s.fleet, Grown(s.bundle), false);
      IsServing(env, s.fleet, Grown(s.bundle), false);
    }
  }

  lemma IsServing(env: Env, f: Fleet, b: Bundle, reused: bool)
    ensures Present(env, f, b, reused).Serving? && Present(env, f, b, reused).reused == reused
    ensures Present(env, f, b, reused).bundle == Grown(Grown(b)) && Present(env, f, b, reused).fleet == f
  {
    hide Unsigned, VerifyAs, Normalized;
  }

  /** What serving a bundle must come to, given whether it was valid before. */
  ghost predicate ServedRight(env: Env, b: Bundle, wasValid: bool, s: Served) {
    && (s.Serving? <==> wasValid || Approvable(b.core))
    && (s.Serving? ==> GoodServe(env, s) && (s.reused <==> wasValid))
    && (s.ServeFailed? ==> s.error == ApprovedRecordRequired && s.bundle == Grown(b))
  }

  /**
  Serving succeeds exactly when the bundle is already valid or its approval is absent or approved,
  and then every signature it serves is valid for the manifest it serves.
  */
  lemma ServeAlwaysValid(env: Env, f: Fleet, b: Bundle, id: Text, signedAt: Text)
    requires Sound(env)
    ensures ServedRight(env, b, Verify(env, b).status == StatusValid, Serve(env, f, b, id, signedAt))
  {
    hide Serve, Verify, Present, Normalized, UpsertAll, GoodServe, Approvable, Sound, Grown;
    if Verify(env, b).status == StatusValid {
      ServeReuses(env, f, b, id, signedAt);
      IsServing(env, UpsertAll(f, Normalized(b)), Grown(Grown(b)), true);
    } else {
      ServeSigns(env, f, b, id, signedAt);
    }
  }

  lemma ServedStaysApprovable(env: Env, f: Fleet, b: Bundle, id: Text, signedAt: Text)
    requires Approvable(b.core)
    ensures var s := Serve(env, f, b, id, signedAt); s.Serving? ==> Approvable(s.bundle.core)
  {
    hide Verify, VerifyAs, Normalized, UpsertAll, Unsigned, DefaultApproval, NewRecord, Upsert, NextGeneration,
      TenantId;
  }

  /** The approval a served manifest shows, when the bundle's record is absent or approved. */
  lemma ServedApproval(env: Env, f: Fleet, b: Bundle, id: Text, signedAt: Text)
    requires Sound(env) && Approvable(b.core)
    ensures var s := Serve(env, f, b, id, signedAt);
      && s.Serving? && s.manifest.Obj?
      && Key(ApprovalField) in s.manifest.members
      && var block := s.manifest.members[Key(ApprovalField)];
         Member(block, "status") == Some(Str(L("approved"))) &&
         exists who :: who != [] && Member(block, "approved_by") == Some(Str(who))
  {
    hide Unsigned, StableJson, Serve, Sound, Approvable, Verify, Normalized, Attests, Member;
    ServeAlwaysValid(env, f, b, id, signedAt);
    ServedStaysApprovable(env, f, b, id, signedAt);
    ShownApproval(env, Serve(env, f, b, id, signedAt).bundle.core);
  }

  lemma ShownApproval(env: Env, b: Core)
    requires Approvable(b)
    ensures var m := Unsigned(env, b);
      && m.Obj? && Key(ApprovalField) in m.members
      && var block := m.members[Key(ApprovalField)];
         Member(block, "status") == Some(Str(L("approved"))) &&
         exists who :: who != [] && Member(block, "approved_by") == Some(Str(who))
  {
    hide Provenance, Sbom, Attestation, Member, Members, DefaultApproval, Hash, ManifestWith;
    var a := DefaultApproval(b, NO_PATCH);
    DefaultApprovalAccepted(b);
    ApprovalBlockShows(a);
    ApprovalMember(b, PartsOf(env, b));
    assert a.status == L("approved") && a.approvedBy != [];
  }

  lemma ApprovalMember(b: Core, p: Parts)
    ensures ManifestWith(b, p).Obj? && Key(ApprovalField) in ManifestWith(b, p).members
    ensures ManifestWith(b, p).members[Key(ApprovalField)] == p.approval
  {
    hide ManifestWith, Key;
    MemberIs(b, p, ApprovalField);
  }

  /** The served document without the four members added after signing. */
  function Stripped(s: Served): Json
    requires s.Serving? && s.manifest.Obj?
  {
    Obj(Document(s) - {Key(PayloadHash), Key(Signatures), Key(Verification), Key(SigningAction)})
  }

  lemma LacksAdded(env: Env, b: Core)
    ensures Unsigned(env, b).Obj?
    ensures forall f | f in {PayloadHash, Signatures, Verification, SigningAction} ::
      Key(f) !in Unsigned(env, b).members
  {
    hide PartsOf, Key, FieldValue;
    assert forall f | f in {PayloadHash, Signatures, Verification, SigningAction} :: Added(f);
  }

  /** Taking the four added members off the served document gives back the signed value. */
  lemma StripAdded(env: Env, s: Served)
    requires s.Serving? && s.manifest == Unsigned(env, s.bundle.core)
    ensures s.manifest.Obj? && Stripped(s) == s.manifest
  {
    hide Unsigned, Key, RecordJson, StatusText;
    LacksAdded(env, s.bundle.core);
    var m := s.manifest.members;
    assert Document(s) - {Key(PayloadHash), Key(Signatures), Key(Verification), Key(SigningAction)} == m;
  }

  /** Strip, print canonically, and every served signature checks out with the key pinned in it, or a known one. */
  lemma StrippedBodyVerifies(env: Env, f: Fleet, b: Bundle, id: Text, signedAt: Text, s: Served, r: SigRecord)
    requires Sound(env) && s == Serve(env, f, b, id, signedAt) && s.Serving? && r in s.signatures
    ensures s.manifest.Obj? && Stripped(s) == s.manifest
    ensures SignatureVerifies(env, StableJson(Stripped(s)), r) && r.payloadHash == (env.sha256)(StableJson(Stripped(s)))
  {
    hide Unsigned, StableJson, Serve, Document, SignatureVerifies, Normalized;
    ServeAlwaysValid(env, f, b, id, signedAt);
    IsObject(env, s.bundle.core);
    StripAdded(env, s);
  }

  lemma IsObject(env: Env, b: Core)
    ensures Unsigned(env, b).Obj?
  {}

  /* ---- serving again ---- */

  /** n further serves, ids and times supplied by the platform. */
  ghost function ServeAgain(env: Env, s: Served, stamps: seq<(Text, Text)>): Served
    requires s.Serving?
    decreases |stamps|
  {
    if stamps == [] then s
    else
      var earlier := ServeAgain(env, s, stamps[..|stamps| - 1]);
      var (id, at) := stamps[|stamps| - 1];
      if earlier.Serving? then Serve(env, earlier.fleet, earlier.bundle, id, at) else earlier
  }

  /** How many copies one look pushes. */
  function Push(b: Bundle): nat {
    if b.signatures.Some? && b.signature.Some? && HasSig(b.signature.value) then 1 else 0
  }

  function ArrayLength(b: Bundle): nat {
    if b.signatures.Some? then |b.signatures.value| else 0
  }

  lemma ReuseStep(env: Env, f: Fleet, b: Bundle, id: Text, signedAt: Text)
    requires Verify(env, b).status == StatusValid
    ensures var s := Serve(env, f, b, id, signedAt);
      && s.Serving? && s.reused && GoodServe(env, s)
      && s.bundle.core == b.core && s.signatures == Normalized(b)
      && ArrayLength(s.bundle) == ArrayLength(b) + 4 * Push(b) && Push(s.bundle) == Push(b)
  {
    hide Serve, Verify, Present, Normalized, UpsertAll, Unsigned, Sound;
    ServeReuses(env, f, b, id, signedAt);
    IsServing(env, UpsertAll(f, Normalized(b)), Grown(Grown(b)), true);
    GrownSame(env, b);
    GrownSame(env, Grown(b));
    GrownSame(env, Grown(Grown(b)));
    GrownSame(env, Grown(Grown(Grown(b))));
  }

  /** What stays and what grows over n more serves. */
  ghost predicate Stable(env: Env, first: Served, s: Served, n: nat)
    requires first.Serving?
  {
    && s.Serving? && GoodServe(env, s) && (n > 0 ==> s.reused)
    && s.bundle.core == first.bundle.core
    && s.manifest == first.manifest && s.payloadHash == first.payloadHash && s.signatures == first.signatures
    && ArrayLength(s.bundle) == ArrayLength(first.bundle) + (if Push(first.bundle) == 1 then 4 * n else 0)
    && Push(s.bundle) == Push(first.bundle)
  }

  lemma StableStep(env: Env, first: Served, s: Served, n: nat, id: Text, signedAt: Text)
    requires first.Serving? && Stable(env, first, s, n)
    ensures Stable(env, first, Serve(env, s.fleet, s.bundle, id, signedAt), n + 1)
  {
    hide Serve, Verify, Normalized, Push, ArrayLength, Unsigned, StableJson;
    ReuseStep(env, s.fleet, s.bundle, id, signedAt);
    PushIsOne(s.bundle);
  }

  lemma PushIsOne(b: Bundle)
    ensures Push(b) <= 1
  {}

  /**
  Later serves of an unchanged bundle return the same manifest, hash and signatures, and report a
  reused signature, although each one leaves four more entries in the bundle's own array.
  */
  lemma {:induction false} ServesAreStable(env: Env, f: Fleet, b: Bundle, id: Text, signedAt: Text,
      stamps: seq<(Text, Text)>)
    requires Sound(env) && Serve(env, f, b, id, signedAt).Serving?
    ensures var first := Serve(env, f, b, id, signedAt);
      Stable(env, first, ServeAgain(env, first, stamps), |stamps|)
  {
    hide Serve, Verify, Normalized, Unsigned, StableJson, Sound;
    var first := Serve(env, f, b, id, signedAt);
    if stamps == [] {
      ServeAlwaysValid(env, f, b, id, signedAt);
    } else {
      var front, last := stamps[..|stamps| - 1], stamps[|stamps| - 1];
      ServesAreStable(env, f, b, id, signedAt, front);
      StableStep(env, first, ServeAgain(env, first, front), |front|, last.0, last.1);
    }
  }

  /** Serving an unchanged bundle again builds the same artifact, so its hash names one artifact. */
  lemma ArtifactIsStable(env: Env, f: Fleet, b: Bundle, id: Text, signedAt: Text, stamps: seq<(Text, Text)>)
    requires Sound(env) && Serve(env, f, b, id, signedAt).Serving?
    ensures var first := Serve(env, f, b, id, signedAt);
      var s := ServeAgain(env, first, stamps);
      s.Serving? && Artifact(env, s) == Artifact(env, first)
  {
    hide Serve, Sound, GoodServe, Hash, Provenance, Sbom, Attestation, Object, Ascending, Engines, SignatureSummary;
    ServesAreStable(env, f, b, id, signedAt, stamps);
  }
}
