/**
The signer allowlist, and the documented check of a relying party: take the added members off, print
canonically, and verify each signature with the raw key the allowlist gives for its key id.
*/
module Allowlist {
  import opened Text
  import opened Json
  import opened Options
  import opened Manifest
  import opened Signing
  import opened Serving
  import opened SigningRuns

  /** One signer of the allowlist. */
  datatype Listed = Listed(keyid: Text, revoked: bool, previousVersion: bool, raw: Text)

  predicate Lists(signers: seq<Listed>, keyid: Text) {
    exists i | 0 <= i < |signers| :: signers[i].keyid == keyid
  }

  function RetiredSigners(active: Text, retired: seq<RetiredKey>, revoked: seq<Text>): seq<Listed> {
    if retired == [] then []
    else
      var front, r := RetiredSigners(active, retired[..|retired| - 1], revoked), retired[|retired| - 1];
      if r.keyid == active then front else front + [Listed(r.keyid, r.keyid in revoked, true, r.raw)]
  }

  /** Revoked ids that nobody lists yet are put at the end, without a key. */
  function WithRevoked(signers: seq<Listed>, revoked: seq<Text>): seq<Listed> {
    if revoked == [] then signers
    else
      var front, keyid := WithRevoked(signers, revoked[..|revoked| - 1]), revoked[|revoked| - 1];
      if Lists(front, keyid) then front else front + [Listed(keyid, true, false, [])]
  }

  function Active(env: Env, revoked: seq<Text>): Listed {
    Listed(env.keyId, env.keyId in revoked, false, env.publicKeyRaw)
  }

  /** The signers of `unsignedSignerAllowlist`, given the revoked key ids. */
  function Signers(env: Env, revoked: seq<Text>): seq<Listed> {
    WithRevoked([Active(env, revoked)] + RetiredSigners(env.keyId, env.retired, revoked), revoked)
  }

  method UnsignedSignerAllowlist(env: Env, revoked: seq<Text>) returns (signers: seq<Listed>)
    ensures signers == Signers(env, revoked)
  {
    signers := [Active(env, revoked)];
    for i := 0 to |env.retired|
      invariant signers == [Active(env, revoked)] + RetiredSigners(env.keyId, env.retired[..i], revoked)
    {
      assert env.retired[..i + 1][..i] == env.retired[..i];
      var r := env.retired[i];
      if r.keyid == env.keyId { continue; }
      signers := signers + [Listed(r.keyid, r.keyid in revoked, true, r.raw)];
    }
    assert env.retired[..|env.retired|] == env.retired;
    ghost var start := signers;
    assert start[0].keyid == env.keyId;
    for i := 0 to |revoked|
      invariant signers == WithRevoked(start, revoked[..i]) && Lists(signers, env.keyId)
    {
      assert revoked[..i + 1][..i] == revoked[..i];
      var listed := HasSigner(signers, revoked[i]);
      if revoked[i] == env.keyId || listed { continue; }
      ghost var before := signers;
      signers := signers + [Listed(revoked[i], true, false, [])];
      ListsMore(before, Listed(revoked[i], true, false, []), env.keyId);
    }
    assert revoked[..|revoked|] == revoked;
  }

  method HasSigner(signers: seq<Listed>, keyid: Text) returns (b: bool)
    ensures b <==> Lists(signers, keyid)
  {
    for i := 0 to |signers|
      invariant forall j | 0 <= j < i :: signers[j].keyid != keyid
    {
      if signers[i].keyid == keyid { return true; }
    }
    return false;
  }

  lemma ListsMore(signers: seq<Listed>, s: Listed, keyid: Text)
    ensures Lists(signers + [s], keyid) <==> Lists(signers, keyid) || s.keyid == keyid
  {
    if Lists(signers, keyid) {
      var i :| 0 <= i < |signers| && signers[i].keyid == keyid;
      assert (signers + [s])[i].keyid == keyid;
    }
    if s.keyid == keyid { assert (signers + [s])[|signers|].keyid == keyid; }
  }

  /** The raw key listed first under an id; none gives the empty text. */
  function RawKey(signers: seq<Listed>, keyid: Text): Text {
    if signers == [] then [] else if signers[0].keyid == keyid then signers[0].raw else RawKey(signers[1..], keyid)
  }

  function RetiredRaw(retired: seq<RetiredKey>, keyid: Text): Text {
    if retired == [] then [] else if retired[0].keyid == keyid then retired[0].raw else RetiredRaw(retired[1..], keyid)
  }

  /** The key a process publishes for an id: its own, or a retired one under the id of the retired list. */
  function PublishedRaw(env: Env, keyid: Text): Text {
    if keyid == env.keyId then env.publicKeyRaw else RetiredRaw(env.retired, keyid)
  }

  predicate Retains(retired: seq<RetiredKey>, keyid: Text) {
    exists i | 0 <= i < |retired| :: retired[i].keyid == keyid
  }

  predicate Publishes(env: Env, keyid: Text) {
    keyid == env.keyId || Retains(env.retired, keyid)
  }

  lemma {:induction false} RawKeyAppend(signers: seq<Listed>, s: Listed, keyid: Text)
    ensures RawKey(signers + [s], keyid) ==
      if Lists(signers, keyid) || s.keyid != keyid then RawKey(signers, keyid) else s.raw
  {
    if signers == [] {
      assert [] + [s] == [s] && [s][1..] == [];
    } else {
      assert (signers + [s])[1..] == signers[1..] + [s];
      RawKeyAppend(signers[1..], s, keyid);
      assert [signers[0]] + signers[1..] == signers;
      if signers[0].keyid != keyid { ListsRest(signers, keyid); }
    }
  }

  lemma ListsRest(signers: seq<Listed>, keyid: Text)
    requires signers != [] && signers[0].keyid != keyid
    ensures Lists(signers[1..], keyid) <==> Lists(signers, keyid)
  {
    if Lists(signers, keyid) {
      var i :| 0 <= i < |signers| && signers[i].keyid == keyid;
      assert signers[1..][i - 1].keyid == keyid;
    }
  }

  lemma {:induction false} RetiredRawAppend(retired: seq<RetiredKey>, r: RetiredKey, keyid: Text)
    ensures RetiredRaw(retired + [r], keyid) ==
      if Retains(retired, keyid) || r.keyid != keyid then RetiredRaw(retired, keyid) else r.raw
    ensures Retains(retired + [r], keyid) <==> Retains(retired, keyid) || r.keyid == keyid
  {
    assert (retired + [r])[|retired|] == r;
    if Retains(retired, keyid) {
      var i :| 0 <= i < |retired| && retired[i].keyid == keyid;
      assert (retired + [r])[i].keyid == keyid;
    }
    if retired == [] {
      assert [] + [r] == [r] && [r][1..] == [];
    } else {
      assert (retired + [r])[1..] == retired[1..] + [r];
      RetiredRawAppend(retired[1..], r, keyid);
      if retired[0].keyid != keyid && Retains(retired, keyid) {
        var i :| 0 <= i < |retired| && retired[i].keyid == keyid;
        assert retired[1..][i - 1].keyid == keyid;
      }
    }
  }

  /** What a list of signers says of an id: its key, whether it is there, and that its status is the deny-list's. */
  ghost predicate Tells(signers: seq<Listed>, revoked: seq<Text>, keyid: Text, raw: Text, listed: bool) {
    && RawKey(signers, keyid) == raw && (Lists(signers, keyid) <==> listed)
    && forall i | 0 <= i < |signers| && signers[i].keyid == keyid :: signers[i].revoked <==> keyid in revoked
  }

  /** One more signer under its own status. */
  lemma TellsMore(signers: seq<Listed>, s: Listed, revoked: seq<Text>, keyid: Text, raw: Text, listed: bool)
    requires Tells(signers, revoked, keyid, raw, listed) && (s.revoked <==> s.keyid in revoked)
    ensures Tells(signers + [s], revoked, keyid, if listed || s.keyid != keyid then raw else s.raw,
      listed || s.keyid == keyid)
  {
    hide RawKey, Lists;
    RawKeyAppend(signers, s, keyid);
    ListsMore(signers, s, keyid);
  }

  lemma {:induction false} RetiredTell(env: Env, revoked: seq<Text>, n: nat, keyid: Text)
    requires n <= |env.retired|
    ensures var e := env.(retired := env.retired[..n]);
      Tells([Active(env, revoked)] + RetiredSigners(env.keyId, env.retired[..n], revoked), revoked, keyid,
        PublishedRaw(e, keyid), Publishes(e, keyid))
  {
    hide Tells, RawKey, Lists;
    var active := Active(env, revoked);
    if n == 0 {
      assert env.retired[..0] == [] && [active] + [] == [active];
      ActiveTells(env, revoked, keyid);
    } else {
      var front, r := env.retired[..n - 1], env.retired[n - 1];
      var before := [active] + RetiredSigners(env.keyId, front, revoked);
      assert env.retired[..n] == front + [r] && env.retired[..n][..n - 1] == front;
      RetiredTell(env, revoked, n - 1, keyid);
      RetiredRawAppend(front, r, keyid);
      if r.keyid != env.keyId {
        TellsMore(before, Listed(r.keyid, r.keyid in revoked, true, r.raw), revoked, keyid,
          PublishedRaw(env.(retired := front), keyid), Publishes(env.(retired := front), keyid));
        assert [active] + RetiredSigners(env.keyId, env.retired[..n], revoked) ==
          before + [Listed(r.keyid, r.keyid in revoked, true, r.raw)];
      }
    }
  }

  lemma ActiveTells(env: Env, revoked: seq<Text>, keyid: Text)
    ensures var e := env.(retired := []);
      Tells([Active(env, revoked)], revoked, keyid, PublishedRaw(e, keyid), Publishes(e, keyid))
  {
    var active := Active(env, revoked);
    assert [active][1..] == [] && [active][0] == active;
  }

  lemma {:induction false} RevokedTell(signers: seq<Listed>, revoked: seq<Text>, n: nat, keyid: Text, raw: Text,
      listed: bool)
    requires n <= |revoked| && Tells(signers, revoked, keyid, raw, listed) && (!listed ==> raw == [])
    ensures Tells(WithRevoked(signers, revoked[..n]), revoked, keyid, raw, listed || keyid in revoked[..n])
  {
    if n > 0 {
      var k := revoked[n - 1];
      assert revoked[..n][..n - 1] == revoked[..n - 1] && revoked[..n] == revoked[..n - 1] + [k];
      RevokedTell(signers, revoked, n - 1, keyid, raw, listed);
      var front := WithRevoked(signers, revoked[..n - 1]);
      if !Lists(front, k) {
        TellsMore(front, Listed(k, true, false, []), revoked, keyid, raw, listed || keyid in revoked[..n - 1]);
      }
    }
  }

  lemma {:induction false} UnlistedRetired(retired: seq<RetiredKey>, keyid: Text)
    requires forall i | 0 <= i < |retired| :: retired[i].keyid != keyid
    ensures RetiredRaw(retired, keyid) == []
  {
    if retired != [] { UnlistedRetired(retired[1..], keyid); }
  }

  /**
  The allowlist publishes a key for an id exactly as the process does, whatever is revoked; it lists
  the ids published or revoked, and an entry is revoked exactly when its id is.
  */
  lemma AllowlistExactly(env: Env, revoked: seq<Text>, keyid: Text)
    ensures Tells(Signers(env, revoked), revoked, keyid, PublishedRaw(env, keyid),
      Publishes(env, keyid) || keyid in revoked)
  {
    hide Tells, WithRevoked;
    RetiredTell(env, revoked, |env.retired|, keyid);
    assert env.retired[..|env.retired|] == env.retired && env.(retired := env.retired) == env;
    if !Publishes(env, keyid) { UnlistedRetired(env.retired, keyid); }
    RevokedTell([Active(env, revoked)] + RetiredSigners(env.keyId, env.retired, revoked), revoked, |revoked|,
      keyid, PublishedRaw(env, keyid), Publishes(env, keyid));
    assert revoked[..|revoked|] == revoked;
  }

  /** A signer comes from the retired keys, and says so, or from the deny-list, and then has no key. */
  ghost predicate Explained(env: Env, revoked: seq<Text>, s: Listed) {
    if s.previousVersion then s.keyid != env.keyId && RetiredKey(s.keyid, s.raw) in env.retired
    else s.raw == [] && s.keyid in revoked && !Publishes(env, s.keyid)
  }

  lemma {:induction false} RetiredExplained(env: Env, revoked: seq<Text>, n: nat, s: Listed)
    requires n <= |env.retired| && s in RetiredSigners(env.keyId, env.retired[..n], revoked)
    ensures s.previousVersion && Explained(env, revoked, s)
  {
    if n > 0 {
      assert env.retired[..n][..n - 1] == env.retired[..n - 1];
      var r := env.retired[n - 1];
      if s == Listed(r.keyid, r.keyid in revoked, true, r.raw) && r.keyid != env.keyId {
        assert r == RetiredKey(s.keyid, s.raw);
      } else {
        RetiredExplained(env, revoked, n - 1, s);
      }
    }
  }

  lemma {:induction false} RevokedExplained(env: Env, revoked: seq<Text>, n: nat, signers: seq<Listed>, i: nat)
    requires n <= |revoked| && |signers| <= i < |WithRevoked(signers, revoked[..n])|
    requires forall keyid | Publishes(env, keyid) :: Lists(signers, keyid)
    ensures Explained(env, revoked, WithRevoked(signers, revoked[..n])[i])
  {
    hide Publishes;
    if n > 0 {
      assert revoked[..n][..n - 1] == revoked[..n - 1];
      var front, k := WithRevoked(signers, revoked[..n - 1]), revoked[n - 1];
      if i < |front| {
        RevokedExplained(env, revoked, n - 1, signers, i);
      } else {
        PrefixKept(signers, revoked[..n - 1]);
        PrefixLists(signers, front, k);
      }
    }
  }

  lemma PrefixLists(signers: seq<Listed>, more: seq<Listed>, keyid: Text)
    requires signers <= more
    ensures Lists(signers, keyid) ==> Lists(more, keyid)
  {
    if j :| 0 <= j < |signers| && signers[j].keyid == keyid { assert more[j].keyid == keyid; }
  }

  lemma {:induction false} PrefixKept(signers: seq<Listed>, revoked: seq<Text>)
    ensures signers <= WithRevoked(signers, revoked)
  {
    if revoked != [] { PrefixKept(signers, revoked[..|revoked| - 1]); }
  }

  /** The current key stands first; every other entry is a retired key, marked so, or a revoked id without a key. */
  lemma EntriesExplained(env: Env, revoked: seq<Text>, i: nat)
    requires i < |Signers(env, revoked)|
    ensures var s := Signers(env, revoked)[i];
      if i == 0 then s == Listed(env.keyId, env.keyId in revoked, false, env.publicKeyRaw)
      else Explained(env, revoked, s)
  {
    hide Explained, WithRevoked, RetiredSigners;
    var n := |env.retired|;
    assert env.retired[..n] == env.retired && revoked[..|revoked|] == revoked;
    var retired := RetiredSigners(env.keyId, env.retired, revoked);
    var start := [Active(env, revoked)] + retired;
    PrefixKept(start, revoked);
    if 0 < i < |start| {
      assert Signers(env, revoked)[i] == retired[i - 1];
      RetiredExplained(env, revoked, n, retired[i - 1]);
    } else if i > 0 {
      forall keyid | Publishes(env, keyid) ensures Lists(start, keyid) { RetiredTell(env, revoked, n, keyid); }
      RevokedExplained(env, revoked, |revoked|, start, i);
    }
  }

  /* ---- the documented recipe ---- */

  /** A relying party with this allowlist accepts the signature of the served document. */
  ghost predicate RecipeAccepts(env: Env, s: Served, signers: seq<Listed>, r: SigRecord)
    requires s.Serving? && s.manifest.Obj?
  {
    RawKey(signers, r.keyid) != [] &&
      (env.verify)(RawKey(signers, r.keyid), StableJson(Stripped(s)), Or(r.sig, r.legacySig))
  }

  /** The signature verifies with the two forms of the key pinned in its record, and with no other key. */
  ghost predicate OwnKeyOnly(env: Env, payload: Text, r: SigRecord) {
    forall key :: (env.verify)(key, payload, Or(r.sig, r.legacySig)) <==> key == r.publicKeyPem || key == r.publicKeyRaw
  }

  /** The process publishes, under the id of the record, the key pinned in it. */
  ghost predicate PublishesKeyOf(env: Env, r: SigRecord) {
    var raw := PublishedRaw(env, r.keyid);
    raw != [] && (raw == r.publicKeyPem || raw == r.publicKeyRaw)
  }

  /** Any served signature is accepted exactly when its pinned key is published under its key id. */
  lemma RecipeAcceptsExactly(env: Env, f: Fleet, b: Bundle, id: Text, at: Text, s: Served, r: SigRecord,
      revoked: seq<Text>)
    requires Sound(env) && s == Serve(env, f, b, id, at) && s.Serving? && r in s.signatures
    requires OwnKeyOnly(env, StableJson(s.manifest), r)
    ensures s.manifest.Obj? && (RecipeAccepts(env, s, Signers(env, revoked), r) <==> PublishesKeyOf(env, r))
  {
    hide Serve, Sound, Signers, PublishedRaw, StableJson, Stripped;
    StrippedBodyVerifies(env, f, b, id, at, s, r);
    AllowlistExactly(env, revoked, r.keyid);
  }

  ghost predicate SignedNow(env: Env, s: Served)
    requires s.Serving?
  {
    forall r | r in s.signatures ::
      r.keyid == env.keyId && r.legacySig == [] && r.sig == (env.sign)(StableJson(Unsigned(env, s.bundle.core)))
  }

  lemma ServeSignsNow(env: Env, f: Fleet, b: Bundle, id: Text, at: Text)
    requires Sound(env)
    ensures var s := Serve(env, f, b, id, at); s.Serving? && !s.reused ==> SignedNow(env, s)
  {
    hide Verify, Normalized, Unsigned, StableJson, DefaultApproval, Sound, Present, Upsert, Grown;
    var a := Some(DefaultApproval(Grown(b).core, NO_PATCH));
    var s := Sign(env, f, Grown(b), a, id, at);
    if Verify(env, b).status == StatusValid {
      ServeReuses(env, f, b, id, at);
      IsServing(env, UpsertAll(f, Normalized(b)), Grown(Grown(b)), true);
    } else if s.Signed? {
      FreshlySigned(env, f, Grown(b), a, id, at);
      PresentOne(env, s.fleet, s.bundle, s.record);
    }
  }

  lemma PresentOne(env: Env, f: Fleet, b: Bundle, r: SigRecord)
    requires Normalized(b) == [r]
    ensures var s := Present(env, f, Grown(b), false); s.signatures == [r] && s.bundle.core == b.core
  {
    hide Normalized, Unsigned, VerifyAs;
    GrownSame(env, b);
    GrownSame(env, Grown(b));
  }

  /** A signature made by this very serve is accepted, whatever ids are revoked. */
  lemma FreshServeAccepted(env: Env, f: Fleet, b: Bundle, id: Text, at: Text, s: Served, r: SigRecord,
      revoked: seq<Text>)
    requires Sound(env) && s == Serve(env, f, b, id, at) && s.Serving? && !s.reused && r in s.signatures
    ensures s.manifest.Obj? && RecipeAccepts(env, s, Signers(env, revoked), r)
  {
    hide Serve, Signers, StableJson, Stripped, Unsigned;
    StrippedBodyVerifies(env, f, b, id, at, s, r);
    ServeAlwaysValid(env, f, b, id, at);
    ServeSignsNow(env, f, b, id, at);
    AllowlistExactly(env, revoked, r.keyid);
  }

  /** With the trust policy's demand that the signer be listed as active. */
  ghost predicate StrictlyAccepts(env: Env, s: Served, signers: seq<Listed>, r: SigRecord)
    requires s.Serving? && s.manifest.Obj?
  {
    RecipeAccepts(env, s, signers, r) &&
    forall i | 0 <= i < |signers| && signers[i].keyid == r.keyid :: !signers[i].revoked
  }

  /** Then a served signature is accepted exactly when its key is published under its id and the id is not revoked. */
  lemma StrictRecipeExactly(env: Env, f: Fleet, b: Bundle, id: Text, at: Text, s: Served, r: SigRecord,
      revoked: seq<Text>)
    requires Sound(env) && s == Serve(env, f, b, id, at) && s.Serving? && r in s.signatures
    requires OwnKeyOnly(env, StableJson(s.manifest), r)
    ensures s.manifest.Obj?
    ensures StrictlyAccepts(env, s, Signers(env, revoked), r) <==> PublishesKeyOf(env, r) && r.keyid !in revoked
  {
    hide Serve, Sound, Signers, PublishedRaw, StableJson, Stripped, RecipeAccepts, OwnKeyOnly, RawKey;
    RecipeAcceptsExactly(env, f, b, id, at, s, r, revoked);
    AllowlistExactly(env, revoked, r.keyid);
    if PublishesKeyOf(env, r) { PublishedIsListed(env, revoked, r.keyid); }
  }

  lemma PublishedIsListed(env: Env, revoked: seq<Text>, keyid: Text)
    requires PublishedRaw(env, keyid) != []
    ensures exists i :: 0 <= i < |Signers(env, revoked)| && Signers(env, revoked)[i].keyid == keyid
  {
    hide Signers;
    AllowlistExactly(env, revoked, keyid);
    if !Publishes(env, keyid) { UnlistedRetired(env.retired, keyid); }
    assert Lists(Signers(env, revoked), keyid);
  }

  /** This process publishes, under the id of another one, that one's key. */
  ghost predicate PublishesProcess(env: Env, signer: Env) {
    var raw := PublishedRaw(env, signer.keyId);
    raw == signer.publicKeyRaw || raw == signer.publicKeyPem
  }

  /**
  In every reachable state: a served signature that the k-th signing made is accepted exactly when the
  signer's id is the current one, or the first retired one of that id, with the signer's key.
  */
  lemma ServedRecipeExactly(env: Env, steps: seq<Step>, w: World, i: nat, id: Text, at: Text, s: Served, k: nat,
      revoked: seq<Text>)
    requires Sound(env) && Fair(env, steps) && w == Run(Initial(env), steps)
    requires i < |w.bundles| && s == Serve(w.env, w.fleet, w.bundles[i], id, at) && s.Serving?
    requires k < |w.log| && w.log[k].record in s.signatures &&
      OwnKeyOnly(w.env, StableJson(s.manifest), w.log[k].record)
    ensures s.manifest.Obj? &&
      (RecipeAccepts(w.env, s, Signers(w.env, revoked), w.log[k].record) <==> PublishesProcess(w.env, w.log[k].env))
  {
    hide Serve, Sound, Run, Fair, Signers, PublishedRaw, StableJson, RecipeAccepts, Traced, OwnKeyOnly, GoodEvent;
    RunLogged(env, steps);
    RecipeAcceptsExactly(w.env, w.fleet, w.bundles[i], id, at, s, w.log[k].record, revoked);
    EventKeys(env, w.log[k]);
  }

  /** A logged record carries its signer's id and both forms of its key. */
  lemma EventKeys(env: Env, e: Event)
    requires GoodEvent(env, e)
    ensures e.record.keyid == e.env.keyId && e.record.publicKeyPem == e.env.publicKeyPem &&
      e.record.publicKeyRaw == e.env.publicKeyRaw
    ensures e.env.publicKeyPem != [] && e.env.publicKeyRaw != []
  {
    hide Unsigned, Attests;
  }

  /* ---- after a restart ---- */

  /** A bundle signed by one process is served as it is by another with the same hash, verification and version. */
  lemma SignedElsewhere(before: Env, after: Env, f: Fleet, b: Bundle, a: Approval, id: Text, at: Text, f': Fleet,
      id': Text, at': Text)
    requires Sound(before) && Platform(before, after) && after.cloudVersion == before.cloudVersion
    ensures var s := Sign(before, f, b, Some(a), id, at);
      s.Signed? ==> ServedOnly(after, Serve(after, f', s.bundle, id', at'), s.record)
  {
    hide Unsigned, StableJson, Present, NewRecord, Normalized, Prepared, Upsert, Sound, UpsertAll, Serve;
    var s := Sign(before, f, b, Some(a), id, at);
    if s.Signed? {
      FreshlySigned(before, f, b, Some(a), id, at);
      AllValid(before, s.bundle, s.record);
      SameVersionManifest(before, after, s.bundle.core);
      assert Attests(after, s.record, Unsigned(after, s.bundle.core)) by {
        PinnedElsewhere(before, after, f, b, a, id, at);
      }
      VerdictOfOne(after, s.bundle, s.record, Unsigned(after, s.bundle.core));
      ReuseStep(after, f', s.bundle, id', at');
    }
  }

  /** The process serves this one signature again and reports it valid. */
  ghost predicate ServedOnly(env: Env, s: Served, r: SigRecord) {
    s.Serving? && s.reused && s.signatures == [r] && GoodServe(env, s)
  }

  lemma PinnedElsewhere(before: Env, after: Env, f: Fleet, b: Bundle, a: Approval, id: Text, at: Text)
    requires Sound(before) && Platform(before, after) && after.cloudVersion == before.cloudVersion
    ensures var s := Sign(before, f, b, Some(a), id, at);
      s.Signed? ==> Attests(after, s.record, Unsigned(after, s.bundle.core)) && s.record.keyid == before.keyId
  {
    hide Unsigned, StableJson;
    var s := Sign(before, f, b, Some(a), id, at);
    if s.Signed? {
      NewRecordAttests(before, s.bundle.core, a, id, at);
      SameVersionManifest(before, after, s.bundle.core);
    }
  }

  function RestartRun(after: Env, content: Content, a: Approval, id: Text, at: Text): seq<Step> {
    [Create(content, [], None), SignBundle(0, Some(a), id, at), Save, Crash(after, 0)]
  }

  lemma RestartWorld(before: Env, after: Env, content: Content, a: Approval, id: Text, at: Text)
    ensures var s := Sign(before, NO_FLEET, NewBundle(content, [], None), Some(a), id, at);
      var w := Run(Initial(before), RestartRun(after, content, a, id, at));
      s.Signed? ==> w.env == after && w.bundles == [s.bundle]
  {
    hide Sign, Run;
    var steps := RestartRun(after, content, a, id, at);
    assert steps == [steps[0]] + [steps[1]] + [steps[2]] + [steps[3]];
    RunOne(Initial(before), steps[0]);
    RunMore(Initial(before), [steps[0]], steps[1]);
    RunMore(Initial(before), [steps[0]] + [steps[1]], steps[2]);
    RunMore(Initial(before), [steps[0]] + [steps[1]] + [steps[2]], steps[3]);
  }

  /**
  A bundle is signed, saved, and restored by a process with a new key that does not publish the old
  key id. It is served under its old signature, reported valid, and the recipe refuses it.
  */
  lemma RestartBreaksRecipe(before: Env, after: Env, content: Content, a: Approval, id: Text, at: Text, id': Text,
      at': Text, w: World, revoked: seq<Text>)
    requires Sound(before) && Platform(before, after) && after.cloudVersion == before.cloudVersion &&
      !Publishes(after, before.keyId)
    requires a.status == L("approved") && a.approvedBy != []
    requires w == Run(Initial(before), RestartRun(after, content, a, id, at))
    ensures |w.bundles| == 1 && w.env == after &&
      RefusedByRecipe(w, Serve(w.env, w.fleet, w.bundles[0], id', at'), revoked)
  {
    hide Run, Serve, Sign, Signers, Unsigned, Sound, Stripped;
    assert |L("approved")| > 0;
    var b := NewBundle(content, [], None);
    var s := Sign(before, NO_FLEET, b, Some(a), id, at);
    assert s.Signed? by { RecordDescribesBundle(before, NO_FLEET, b, Some(a), id, at); }
    RestartWorld(before, after, content, a, id, at);
    SignedElsewhere(before, after, NO_FLEET, b, a, id, at, w.fleet, id', at');
    PinnedElsewhere(before, after, NO_FLEET, b, a, id, at);
    AllowlistExactly(after, revoked, before.keyId);
    UnlistedRetired(after.retired, before.keyId);
    IsObject(after, Serve(after, w.fleet, w.bundles[0], id', at').bundle.core);
  }

  ghost predicate RefusedByRecipe(w: World, s: Served, revoked: seq<Text>) {
    && s.Serving? && s.reused && s.verdict.status == StatusValid && |s.signatures| == 1 && s.manifest.Obj?
    && !RecipeAccepts(w.env, s, Signers(w.env, revoked), s.signatures[0])
  }

  /** An input: even when the old key is retired and still published, under the id computed for retired keys. */
  lemma RestartInput(content: Content, w: World, revoked: seq<Text>)
    requires w == Run(Initial(Simple([1], [7], [])), RestartRun(Simple([2], [8], [RetiredKey([9], [1])]), content,
      Approval([], [], L("approved"), [5], [], [], []), [3], []))
    ensures |w.bundles| == 1 && RefusedByRecipe(w, Serve(w.env, w.fleet, w.bundles[0], [4], []), revoked)
    ensures RawKey(Signers(w.env, revoked), [9]) == [1]
  {
    hide Run, Serve, Signers, Sound;
    var before, after := Simple([1], [7], []), Simple([2], [8], [RetiredKey([9], [1])]);
    SimpleSound([1], [7], []);
    SimpleSound([2], [8], [RetiredKey([9], [1])]);
    RestartBreaksRecipe(before, after, content, Approval([], [], L("approved"), [5], [], [], []), [3], [], [4], [], w,
      revoked);
    AllowlistExactly(after, revoked, [9]);
  }
}
