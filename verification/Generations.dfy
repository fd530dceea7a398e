/**
The monotonic bundle generation over runs, atomic saves and crashes; and what happens to it when
a save writes bundles later than it read the counter.
*/
module Generations {
  import opened Text
  import opened Options
  import opened Manifest
  import opened Signing
  import opened SigningRuns

  /** Positive, pairwise distinct, and at most the counter. */
  ghost predicate Ordered(bs: seq<Bundle>, counter: int) {
    && counter >= 0
    && (forall i | 0 <= i < |bs| && bs[i].core.generation.Some? :: 1 <= bs[i].core.generation.value <= counter)
    && (forall i, j | 0 <= i < j < |bs| && bs[i].core.generation.Some? ::
          bs[i].core.generation != bs[j].core.generation)
  }

  ghost predicate Sane(w: World) {
    && Ordered(w.bundles, w.fleet.bundleGeneration)
    && forall n | 0 <= n < |w.saved| :: Ordered(w.saved[n].bundles, w.saved[n].fleet.bundleGeneration)
  }

  predicate Honest(steps: seq<Step>) {
    forall i | 0 <= i < |steps| :: !steps[i].Tamper?
  }

  /** A bundle keeps its generation, or gets the next one while it has none. */
  ghost predicate Assigned(b: Bundle, counter: int, b': Bundle, counter': int) {
    || (b'.core.generation == b.core.generation && counter' == counter)
    || (b.core.generation.None? && counter' == (if counter > 0 then counter else 0) + 1
        && b'.core.generation == Some(counter'))
  }

  lemma UpsertAllCounter(f: Fleet, rs: seq<SigRecord>)
    ensures UpsertAll(f, rs).bundleGeneration == f.bundleGeneration
    decreases rs
  {
    hide Upsert;
    if rs != [] {
      UpsertAllCounter(Upsert(f, rs[0]), rs[1..]);
      assert Upsert(f, rs[0]).bundleGeneration == f.bundleGeneration by { UpsertCounter(f, rs[0]); }
    }
  }

  lemma UpsertCounter(f: Fleet, r: SigRecord)
    ensures Upsert(f, r).bundleGeneration == f.bundleGeneration
  {}

  /** Re-signing never changes a generation; a first signing takes the next one. */
  lemma SignAssigns(env: Env, f: Fleet, b: Bundle, a: Option<Approval>, id: Text, at: Text)
    ensures var s := Sign(env, f, b, a, id, at);
      s.Signed? ==>
        && Assigned(b, f.bundleGeneration, s.bundle, s.fleet.bundleGeneration)
        && s.bundle.core.generation.Some?
        && (b.core.generation.Some? ==> s.bundle.core.generation == b.core.generation)
  {
    hide NewRecord, EnforceApproval, TenantId;
  }

  lemma ServeAssigns(env: Env, f: Fleet, b: Bundle, id: Text, at: Text)
    ensures var s := Serve(env, f, b, id, at);
      if s.Serving? then Assigned(b, f.bundleGeneration, s.bundle, s.fleet.bundleGeneration)
      else s.bundle.core == b.core
  {
    hide Verify, VerifyAs, Normalized, Sign, UpsertAll, Unsigned, DefaultApproval;
    UpsertAllCounter(f, Normalized(Grown(b)));
    SignAssigns(env, f, Grown(b), Some(DefaultApproval(Grown(b).core, NO_PATCH)), id, at);
  }

  lemma PutOrdered(bs: seq<Bundle>, counter: int, i: nat, b': Bundle, counter': int)
    requires Ordered(bs, counter) && i < |bs| && Assigned(bs[i], counter, b', counter')
    ensures Ordered(bs[i := b'], counter')
  {}

  lemma SaneStep(w: World, step: Step)
    requires Sane(w) && !step.Tamper?
    ensures Sane(Exec(w, step))
  {
    hide Sign, Serve, Grown, Traced, NewArtifactRecord;
    match step
    case Create(content, tenantId, approval) =>
    case Edit(i, content, tenantId, approval) =>
      if i < |w.bundles| {
        var b := w.bundles[i];
        PutOrdered(w.bundles, w.fleet.bundleGeneration, i,
          b.(core := Core(content, tenantId, approval, b.core.generation)), w.fleet.bundleGeneration);
      }
    case SignBundle(i, a, id, at) =>
      if i < |w.bundles| {
        var s := Sign(w.env, w.fleet, w.bundles[i], a, id, at);
        SignAssigns(w.env, w.fleet, w.bundles[i], a, id, at);
        if s.Signed? { PutOrdered(w.bundles, w.fleet.bundleGeneration, i, s.bundle, s.fleet.bundleGeneration); }
      }
    case ServeBundle(i, id, at) =>
      if i < |w.bundles| {
        var s := Serve(w.env, w.fleet, w.bundles[i], id, at);
        ServeAssigns(w.env, w.fleet, w.bundles[i], id, at);
        PutOrdered(w.bundles, w.fleet.bundleGeneration, i, s.bundle,
          if s.Serving? then s.fleet.bundleGeneration else w.fleet.bundleGeneration);
      }
    case ArtifactBundle(i, id, at, size, builtAt) =>
      if i < |w.bundles| {
        var s := Serve(w.env, w.fleet, w.bundles[i], id, at);
        ServeAssigns(w.env, w.fleet, w.bundles[i], id, at);
        PutOrdered(w.bundles, w.fleet.bundleGeneration, i, s.bundle,
          if s.Serving? then s.fleet.bundleGeneration else w.fleet.bundleGeneration);
      }
    case Put(i, signature, signatures) =>
      if i < |w.bundles| {
        PutOrdered(w.bundles, w.fleet.bundleGeneration, i,
          w.bundles[i].(signature := signature, signatures := signatures), w.fleet.bundleGeneration);
      }
    case VerifyBundle(i) =>
      if i < |w.bundles| {
        GrownCore(w.bundles[i]);
        PutOrdered(w.bundles, w.fleet.bundleGeneration, i, Grown(w.bundles[i]), w.fleet.bundleGeneration);
      }
    case Save =>
    case Crash(env, n) =>
  }

  lemma GrownCore(b: Bundle)
    ensures Grown(b).core == b.core
  {}

  /** In every reachable state generations are positive, distinct and at most the counter. */
  lemma {:induction false} GenerationsStayOrdered(env: Env, steps: seq<Step>)
    requires Honest(steps)
    ensures Sane(Run(Initial(env), steps))
  {
    hide Exec;
    if steps != [] {
      GenerationsStayOrdered(env, steps[..|steps| - 1]);
      SaneStep(Run(Initial(env), steps[..|steps| - 1]), steps[|steps| - 1]);
    }
  }

  /* ---- saves that are not atomic ---- */

  /** The k-th bundle of an earlier list; later bundles are put in front. */
  function Captured(bs: seq<Bundle>, n: nat, k: nat): Bundle
    requires k < n <= |bs|
  {
    bs[|bs| - n + k]
  }

  /** What a run without a crash may have done to the bundles that were there at its start. */
  ghost predicate Later(w: World, w': World) {
    var n := |w.bundles|;
    && n <= |w'.bundles| && w.fleet.bundleGeneration <= w'.fleet.bundleGeneration
    && forall k | 0 <= k < n ::
         var g, g' := w.bundles[k].core.generation, Captured(w'.bundles, n, k).core.generation;
         if g.Some? then g' == g else g'.Some? ==> g'.value > w.fleet.bundleGeneration
  }

  predicate NoCrash(steps: seq<Step>) {
    forall i | 0 <= i < |steps| :: !steps[i].Crash?
  }

  lemma PutLater(w: World, w': World, i: nat, b': Bundle, f': Fleet, log: seq<Event>)
    requires Later(w, w') && i < |w'.bundles|
    requires Assigned(w'.bundles[i], w'.fleet.bundleGeneration, b', f'.bundleGeneration)
    requires w.fleet.bundleGeneration >= 0
    ensures Later(w, w'.(bundles := w'.bundles[i := b'], fleet := f', log := log))
  {}

  lemma LaterStep(w: World, w': World, step: Step)
    requires Later(w, w') && w.fleet.bundleGeneration >= 0 && !step.Tamper? && !step.Crash?
    ensures Later(w, Exec(w', step))
  {
    hide Sign, Serve, Grown, Traced, NewArtifactRecord;
    match step
    case Create(content, tenantId, approval) =>
    case Edit(i, content, tenantId, approval) =>
      if i < |w'.bundles| {
        var b := w'.bundles[i];
        PutLater(w, w', i, b.(core := Core(content, tenantId, approval, b.core.generation)), w'.fleet, w'.log);
      }
    case SignBundle(i, a, id, at) =>
      if i < |w'.bundles| {
        var s := Sign(w'.env, w'.fleet, w'.bundles[i], a, id, at);
        SignAssigns(w'.env, w'.fleet, w'.bundles[i], a, id, at);
        if s.Signed? { PutLater(w, w', i, s.bundle, s.fleet, Exec(w', step).log); }
      }
    case ServeBundle(i, id, at) =>
      if i < |w'.bundles| {
        var s := Serve(w'.env, w'.fleet, w'.bundles[i], id, at);
        ServeAssigns(w'.env, w'.fleet, w'.bundles[i], id, at);
        PutLater(w, w', i, s.bundle, if s.Serving? then s.fleet else w'.fleet, Exec(w', step).log);
      }
    case ArtifactBundle(i, id, at, size, builtAt) =>
      if i < |w'.bundles| {
        var s := Serve(w'.env, w'.fleet, w'.bundles[i], id, at);
        ServeAssigns(w'.env, w'.fleet, w'.bundles[i], id, at);
        PutLater(w, w', i, s.bundle, Exec(w', step).fleet, Exec(w', step).log);
      }
    case Put(i, signature, signatures) =>
      if i < |w'.bundles| {
        PutLater(w, w', i, w'.bundles[i].(signature := signature, signatures := signatures), w'.fleet, w'.log);
      }
    case VerifyBundle(i) =>
      if i < |w'.bundles| { GrownCore(w'.bundles[i]); PutLater(w, w', i, Grown(w'.bundles[i]), w'.fleet, w'.log); }
    case Save =>
  }

  lemma {:induction false} RunLater(w: World, steps: seq<Step>)
    requires w.fleet.bundleGeneration >= 0 && Honest(steps) && NoCrash(steps)
    ensures Later(w, Run(w, steps))
  {
    hide Exec, Later;
    if steps == [] {
      LaterItself(w);
    } else {
      RunLater(w, steps[..|steps| - 1]);
      LaterStep(w, Run(w, steps[..|steps| - 1]), steps[|steps| - 1]);
    }
  }

  lemma LaterItself(w: World)
    ensures Later(w, w)
  {}

  /**
  The generations a torn save writes. Counter and membership are read at the start; the k-th bundle
  is serialised after the first moments[k] steps of what happens meanwhile.
  */
  ghost predicate TornImage(w: World, steps: seq<Step>, moments: seq<nat>, image: seq<Bundle>) {
    && |image| == |moments| == |w.bundles|
    && forall k | 0 <= k < |image| ::
         && moments[k] <= |steps|
         && |w.bundles| <= |Run(w, steps[..moments[k]]).bundles|
         && image[k] == Captured(Run(w, steps[..moments[k]]).bundles, |w.bundles|, k)
  }

  /** A bundle that was in the list without a generation got one before it was written. */
  ghost predicate FirstSignedMeanwhile(w: World, image: seq<Bundle>)
    requires |image| == |w.bundles|
  {
    exists k :: 0 <= k < |image| && w.bundles[k].core.generation.None? && image[k].core.generation.Some?
  }

  lemma ImageGeneration(w: World, steps: seq<Step>, moments: seq<nat>, image: seq<Bundle>, k: nat)
    requires Sane(w) && Honest(steps) && NoCrash(steps) && TornImage(w, steps, moments, image) && k < |image|
    ensures var g, g' := w.bundles[k].core.generation, image[k].core.generation;
      if g.Some? then g' == g else g'.Some? ==> g'.value > w.fleet.bundleGeneration
  {
    hide Run;
    RunLater(w, steps[..moments[k]]);
  }

  /**
  Restoring a torn save keeps generations ordered exactly when no bundle of the captured list was
  first signed between the capture and its own serialisation.
  */
  lemma TornSave(w: World, steps: seq<Step>, moments: seq<nat>, image: seq<Bundle>)
    requires Sane(w) && Honest(steps) && NoCrash(steps) && TornImage(w, steps, moments, image)
    ensures Ordered(image, w.fleet.bundleGeneration) <==> !FirstSignedMeanwhile(w, image)
  {
    hide Run;
    forall k | 0 <= k < |image|
      ensures var g, g' := w.bundles[k].core.generation, image[k].core.generation;
        if g.Some? then g' == g else g'.Some? ==> g'.value > w.fleet.bundleGeneration
    {
      ImageGeneration(w, steps, moments, image, k);
    }
  }

  /* What a caller can check before the save. */

  predicate AllNumbered(bs: seq<Bundle>) {
    forall i | 0 <= i < |bs| :: bs[i].core.generation.Some?
  }

  const APPROVED := Approval([], [], L("approved"), L("security-admin"), [], [], [])

  lemma ApprovedSigns(env: Env, f: Fleet, b: Bundle)
    requires b.core.generation.None?
    ensures var s := Sign(env, f, b, Some(APPROVED), [1], []);
      s.Signed? && s.bundle.core.generation == Some(NextGeneration(f))
  {
    hide NewRecord, TenantId, NextGeneration;
    assert |L("security-admin")| > 0;
  }

  /** The image of a save whose every bundle is written after one step that keeps the list's length. */
  lemma WrittenAfterOne(w: World, step: Step)
    requires |Exec(w, step).bundles| == |w.bundles|
    ensures TornImage(w, [step], seq(|w.bundles|, k => 1), Exec(w, step).bundles)
  {
    hide Exec, Run;
    RunOne(w, step);
    assert [step][..1] == [step];
  }

  /** Signing a bundle that was captured without a generation, before it is written, puts it past the saved counter. */
  lemma SignedMeanwhile(w: World, i: nat, step: Step)
    requires i < |w.bundles| && w.bundles[i].core.generation.None? && step == SignBundle(i, Some(APPROVED), [1], [])
    ensures Honest([step]) && NoCrash([step])
    ensures TornImage(w, [step], seq(|w.bundles|, k => 1), Exec(w, step).bundles)
    ensures !Ordered(Exec(w, step).bundles, w.fleet.bundleGeneration)
  {
    hide Sign, NextGeneration, Ordered, TornImage;
    ApprovedSigns(w.env, w.fleet, w.bundles[i]);
    WrittenAfterOne(w, step);
    PastCounter(Exec(w, step).bundles, w.fleet, i);
  }

  lemma PastCounter(bs: seq<Bundle>, f: Fleet, i: nat)
    requires i < |bs| && bs[i].core.generation == Some(NextGeneration(f))
    ensures !Ordered(bs, f.bundleGeneration)
  {}

  /** Restoring a torn save of this state keeps generations ordered, whatever happens while it is written. */
  ghost predicate TearsSafely(w: World) {
    forall steps, moments, image | Honest(steps) && NoCrash(steps) && TornImage(w, steps, moments, image) ::
      Ordered(image, w.fleet.bundleGeneration)
  }

  lemma NumberedTearsSafely(w: World)
    requires Sane(w) && AllNumbered(w.bundles)
    ensures TearsSafely(w)
  {
    hide Run, Ordered, Sane, TornImage, Honest, NoCrash;
    forall steps, moments, image | Honest(steps) && NoCrash(steps) && TornImage(w, steps, moments, image)
      ensures Ordered(image, w.fleet.bundleGeneration)
    {
      ImageSize(w, steps, moments, image);
      TornSave(w, steps, moments, image);
    }
  }

  lemma UnnumberedTears(w: World, i: nat)
    requires i < |w.bundles| && w.bundles[i].core.generation.None?
    ensures !TearsSafely(w)
  {
    hide Exec, Run, Ordered, TornImage, Honest, NoCrash;
    SignedMeanwhile(w, i, SignBundle(i, Some(APPROVED), [1], []));
  }

  /** A torn save is harmless exactly when every listed bundle has its generation when the counter is read. */
  lemma TornSaveExactly(w: World)
    requires Sane(w)
    ensures TearsSafely(w) <==> AllNumbered(w.bundles)
  {
    hide Sane, TearsSafely;
    if AllNumbered(w.bundles) {
      NumberedTearsSafely(w);
    } else {
      var i: nat :| i < |w.bundles| && w.bundles[i].core.generation.None?;
      UnnumberedTears(w, i);
    }
  }

  lemma ImageSize(w: World, steps: seq<Step>, moments: seq<nat>, image: seq<Bundle>)
    requires TornImage(w, steps, moments, image)
    ensures |image| == |w.bundles|
  {}

  /** The smallest run that shows it: a new bundle is signed while its own save is being written. */
  lemma TornSaveBreaks(env: Env, content: Content, w: World, step: Step)
    requires w == Run(Initial(env), [Create(content, [], None)]) && step == SignBundle(0, Some(APPROVED), [1], [])
    ensures |w.bundles| == 1 && TornImage(w, [step], [1], Exec(w, step).bundles)
    ensures !Ordered(Exec(w, step).bundles, w.fleet.bundleGeneration)
  {
    hide Run, Sign, Ordered, TornImage;
    RunOne(Initial(env), Create(content, [], None));
    SignedMeanwhile(w, 0, step);
    assert seq(1, k => 1) == [1];
  }
}
