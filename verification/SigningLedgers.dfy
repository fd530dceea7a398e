/**
The two ledgers of the fleet state against the unbounded history of their uses, over whole runs.
*/
module SigningLedgers {
  import opened Text
  import opened Options
  import opened Manifest
  import opened Signing
  import opened SigningRuns
  import opened Ledger
  import Serving

  /** What the signature ledger is keyed by: bundle, payload hash and key. */
  function Subject(r: SigRecord): (Text, Text, Text) {
    (r.bundleId, r.payloadHash, r.keyId)
  }

  ghost predicate IdDeterminesSubject(history: seq<SigRecord>) {
    forall x, y | x in history && y in history && x.id == y.id :: Subject(x) == Subject(y)
  }

  /** The artifact ledger is the 100 most recently used distinct hashes, newest first. */
  lemma ArtifactLedgerIsMostRecent(history: seq<ArtifactRecord>)
    ensures After(history, SameArtifact) ==
      Clip(MostRecent(history, (r: ArtifactRecord) => r.artifactHash, iset{}))
  {
    LedgerIsMostRecent(history, SameArtifact, (r: ArtifactRecord) => r.artifactHash);
  }

  /** So is the signature ledger by subject, when an id is never reused for another subject. */
  lemma SignatureLedgerIsMostRecent(history: seq<SigRecord>)
    requires IdDeterminesSubject(history)
    ensures After(history, SameSignature) == Clip(MostRecent(history, Subject, iset{}))
  {
    LedgerIsMostRecent(history, SameSignature, Subject);
  }

  /**
  Records that carry no id are taken for one another, whatever they sign: using one forgets the other,
  although they are two distinct subjects.
  */
  lemma RecordsWithoutIdCollide(r: SigRecord)
    ensures var x, y := r.(id := [], payloadHash := [1]), r.(id := [], payloadHash := [2]);
      After([x, y], SameSignature) == [y] && Clip(MostRecent([x, y], Subject, iset{})) == [y, x]
  {
    SameIdForgets(r.(id := [], payloadHash := [1]), r.(id := [], payloadHash := [2]));
  }

  lemma SameIdForgets(x: SigRecord, y: SigRecord)
    requires x.id == y.id && Subject(x) != Subject(y)
    ensures After([x, y], SameSignature) == [y] && Clip(MostRecent([x, y], Subject, iset{})) == [y, x]
  {
    assert [x, y][..1] == [x] && [x][..0] == [];
    assert After([x], SameSignature) == [x];
    assert Without([x], y, SameSignature) == [];
    assert MostRecent([x], Subject, iset{} + iset{Subject(y)}) ==
      [x] + MostRecent([], Subject, iset{} + iset{Subject(y)} + iset{Subject(x)});
    assert MostRecent([x, y], Subject, iset{}) == [y] + MostRecent([x], Subject, iset{} + iset{Subject(y)});
  }

  ghost predicate Drawn(history: seq<SigRecord>, pool: iset<SigRecord>) {
    forall r | r in history :: r in pool
  }

  /**
  For every history on records of a pool the signature ledger is the most-recent list, exactly when no
  two of its records share an id for different subjects.
  */
  lemma SignatureLedgerExactly(pool: iset<SigRecord>)
    ensures (forall history | Drawn(history, pool) ::
      After(history, SameSignature) == Clip(MostRecent(history, Subject, iset{})))
      <==> forall x, y | x in pool && y in pool && x.id == y.id :: Subject(x) == Subject(y)
  {
    hide After, MostRecent, Clip, SameSignature, Subject;
    if forall x, y | x in pool && y in pool && x.id == y.id :: Subject(x) == Subject(y) {
      forall history | Drawn(history, pool) ensures After(history, SameSignature) ==
        Clip(MostRecent(history, Subject, iset{})) {
        SignatureLedgerIsMostRecent(history);
      }
    } else {
      var x, y :| x in pool && y in pool && x.id == y.id && Subject(x) != Subject(y);
      assert Drawn([x, y], pool);
      SameIdForgets(x, y);
      assert [y] != [y, x];
    }
  }

  /** The fleet's ledger after more upserts is the ledger of the longer history. */
  lemma {:induction false} UpsertsExtendHistory(f: Fleet, history: seq<SigRecord>, rs: seq<SigRecord>)
    requires f.signatures == After(history, SameSignature)
    ensures UpsertAll(f, rs).signatures == After(history + rs, SameSignature)
    decreases rs
  {
    hide Touch;
    if rs == [] {
      assert history + rs == history;
    } else {
      var h := history + [rs[0]];
      assert h[..|h| - 1] == history;
      UpsertsExtendHistory(Upsert(f, rs[0]), h, rs[1..]);
      assert h + rs[1..] == history + rs;
    }
  }

  lemma ReuseUses(env: Env, f: Fleet, b: Bundle, id: Text, at: Text, history: seq<SigRecord>)
    requires f.signatures == After(history, SameSignature) && Verify(env, b).status == StatusValid
    ensures var s := Serve(env, f, b, id, at);
      s.Serving? && s.reused && s.fleet.signatures == After(history + Normalized(b), SameSignature)
  {
    hide Grown, Serve, Verify, Present, After, UpsertAll, Normalized, Serving.GoodServe;
    Serving.ServeReuses(env, f, b, id, at);
    UpsertsExtendHistory(f, history, Normalized(b));
    Serving.IsServing(env, UpsertAll(f, Normalized(b)), Grown(Grown(b)), true);
  }

  lemma SigningUses(env: Env, f: Fleet, b: Bundle, id: Text, at: Text, history: seq<SigRecord>)
    requires f.signatures == After(history, SameSignature) && Verify(env, b).status != StatusValid
    ensures var s := Serve(env, f, b, id, at);
      s.Serving? ==>
        (!s.reused && s.bundle.signature.Some? &&
         s.fleet.signatures == After(history + [s.bundle.signature.value], SameSignature))
  {
    hide Grown, Sign, Verify, Present, After, DefaultApproval;
    var a := Some(DefaultApproval(Grown(b).core, NO_PATCH));
    var s := Sign(env, f, Grown(b), a, id, at);
    if s.Signed? {
      SignUses(env, f, Grown(b), a, id, at, history);
      Serving.IsServing(env, s.fleet, Grown(s.bundle), false);
      GrownKeepsSignature(s.bundle);
      GrownKeepsSignature(Grown(s.bundle));
      GrownKeepsSignature(Grown(Grown(s.bundle)));
    }
  }

  /** The records a successful serve touches. */
  function Used(b: Bundle, s: Served): seq<SigRecord>
    requires s.Serving?
  {
    if s.reused then Normalized(b) else if s.bundle.signature.Some? then [s.bundle.signature.value] else []
  }

  /** A serve uses the ledger once for every signature it serves, which keeps it a ledger of its history. */
  lemma ServeUses(env: Env, f: Fleet, b: Bundle, id: Text, at: Text, history: seq<SigRecord>)
    requires f.signatures == After(history, SameSignature)
    ensures var s := Serve(env, f, b, id, at);
      s.Serving? ==>
        (s.reused || s.bundle.signature.Some?) && s.fleet.signatures == After(history + Used(b, s), SameSignature)
  {
    hide Serve, Verify, After, Normalized;
    if Verify(env, b).status == StatusValid {
      ReuseUses(env, f, b, id, at, history);
    } else {
      SigningUses(env, f, b, id, at, history);
    }
  }

  lemma GrownKeepsSignature(b: Bundle)
    ensures Grown(b).signature == b.signature
  {}

  lemma SignUses(env: Env, f: Fleet, b: Bundle, a: Option<Approval>, id: Text, at: Text, history: seq<SigRecord>)
    requires f.signatures == After(history, SameSignature)
    ensures var s := Sign(env, f, b, a, id, at);
      s.Signed? ==>
        && s.bundle.signature == Some(s.record)
        && s.fleet.signatures == After(history + [s.record], SameSignature)
  {
    hide NewRecord, EnforceApproval, Prepared, Touch;
    var s := Sign(env, f, b, a, id, at);
    if s.Signed? { assert (history + [s.record])[..|history|] == history; }
  }

  /* ---- over whole runs ---- */

  /** The uses of the two ledgers, oldest first. */
  datatype Uses = Uses(signatures: seq<SigRecord>, artifacts: seq<ArtifactRecord>)

  const UNUSED := Uses([], [])

  /** The uses behind the live ledgers, and behind the ledgers of each save. */
  datatype Journal = Journal(live: Uses, saved: seq<Uses>)

  function ServeUse(b: Bundle, s: Served, u: Uses): Uses {
    if s.Serving? then u.(signatures := u.signatures + Used(b, s)) else u
  }

  /** One step: signing, serving and building artifacts use the ledgers; a crash goes back to a save. */
  function Noted(w: World, step: Step, j: Journal): Journal {
    match step
    case SignBundle(i, decision, id, at) =>
      if i >= |w.bundles| then j
      else
        var s := Sign(w.env, w.fleet, w.bundles[i], decision, id, at);
        if s.Signed? then j.(live := j.live.(signatures := j.live.signatures + [s.record])) else j
    case ServeBundle(i, id, at) =>
      if i >= |w.bundles| then j
      else j.(live := ServeUse(w.bundles[i], Serve(w.env, w.fleet, w.bundles[i], id, at), j.live))
    case ArtifactBundle(i, id, at, size, builtAt) =>
      if i >= |w.bundles| then j
      else
        var s := Serve(w.env, w.fleet, w.bundles[i], id, at);
        var u := ServeUse(w.bundles[i], s, j.live);
        j.(live := if s.Serving? then u.(artifacts := u.artifacts + [NewArtifactRecord(w.env, s, size, builtAt)])
          else u)
    case Save => j.(saved := j.saved + [j.live])
    case Crash(_, n) => j.(live := if n < |j.saved| then j.saved[n] else UNUSED)
    case _ => j
  }

  function JournalOf(env: Env, steps: seq<Step>): Journal {
    if steps == [] then Journal(UNUSED, [])
    else Noted(Run(Initial(env), steps[..|steps| - 1]), steps[|steps| - 1], JournalOf(env, steps[..|steps| - 1]))
  }

  ghost predicate Behind(u: Uses, f: Fleet) {
    f.signatures == After(u.signatures, SameSignature) && f.artifacts == After(u.artifacts, SameArtifact)
  }

  /** The ledgers, live and saved, are those of the journal; in every run. */
  ghost predicate Kept(w: World, j: Journal) {
    && Behind(j.live, w.fleet) && |j.saved| == |w.saved|
    && forall n | 0 <= n < |j.saved| :: Behind(j.saved[n], w.saved[n].fleet)
  }

  ghost predicate UsesMade(log: seq<Event>, u: Uses) {
    forall r | r in u.signatures :: Made(log, r)
  }

  /** Every signature used was made by a logged signing; in genuine runs. */
  ghost predicate JournalMade(w: World, j: Journal) {
    UsesMade(w.log, j.live) && forall n | 0 <= n < |j.saved| :: UsesMade(w.log, j.saved[n])
  }

  lemma UpsertAllArtifacts(f: Fleet, rs: seq<SigRecord>)
    ensures UpsertAll(f, rs).artifacts == f.artifacts
    decreases rs
  {
    hide Touch;
    if rs != [] { UpsertAllArtifacts(Upsert(f, rs[0]), rs[1..]); }
  }

  lemma SignKeepsArtifacts(env: Env, f: Fleet, b: Bundle, a: Option<Approval>, id: Text, at: Text)
    ensures var s := Sign(env, f, b, a, id, at); s.Signed? ==> s.fleet.artifacts == f.artifacts && s.record.id == id
  {
    hide Touch, EnforceApproval, Prepared, Unsigned;
  }

  ghost predicate ServeEffect(env: Env, f: Fleet, id: Text, s: Served) {
    s.Serving? ==>
      s.fleet.artifacts == f.artifacts && (s.reused || (s.bundle.signature.Some? && s.bundle.signature.value.id == id))
  }

  /** A serve leaves the artifact ledger alone; a signature it makes has the id it was given. */
  lemma ServeKeepsArtifacts(env: Env, f: Fleet, b: Bundle, id: Text, at: Text)
    ensures ServeEffect(env, f, id, Serve(env, f, b, id, at))
  {
    hide Verify, VerifyAs, Normalized, UpsertAll, Unsigned, Sign, DefaultApproval, Grown;
    var looked := Grown(b);
    var a := Some(DefaultApproval(looked.core, NO_PATCH));
    var s := Sign(env, f, looked, a, id, at);
    SignKeepsArtifacts(env, f, looked, a, id, at);
    if s.Signed? {
      SignSignature(env, f, looked, a, id, at);
      GrownKeepsSignature(s.bundle);
      GrownKeepsSignature(Grown(s.bundle));
      GrownKeepsSignature(Grown(Grown(s.bundle)));
    }
    UpsertAllArtifacts(f, Normalized(looked));
  }

  lemma SignSignature(env: Env, f: Fleet, b: Bundle, a: Option<Approval>, id: Text, at: Text)
    ensures var s := Sign(env, f, b, a, id, at); s.Signed? ==> s.bundle.signature == Some(s.record)
  {
    hide Touch, EnforceApproval, Prepared, NewRecord;
  }

  lemma UsedMade(w: World, i: nat, s: Served)
    requires i < |w.bundles| && Traced(w.log, w.bundles[i]) && s.Serving? && (s.reused || s.bundle.signature.Some?)
    ensures forall r | r in Used(w.bundles[i], s) :: Made(AfterServe(w, i, s).log, r)
  {
    hide Made, Normalized, Traced;
    NormalizedTraced(w.log, w.bundles[i]);
    if !s.reused { LastMade(w.log, Event(w.env, s.bundle.core, s.bundle.signature.value)); }
  }

  lemma LastMade(log: seq<Event>, e: Event)
    ensures Made(log + [e], e.record)
  {
    assert (log + [e])[|log|] == e;
  }

  lemma StillMade(log: seq<Event>, log': seq<Event>, j: Journal)
    requires log <= log' && UsesMade(log, j.live) && forall n | 0 <= n < |j.saved| :: UsesMade(log, j.saved[n])
    ensures UsesMade(log', j.live) && forall n | 0 <= n < |j.saved| :: UsesMade(log', j.saved[n])
  {
    hide Made;
    assert log' == log + log'[|log|..];
    forall r | Made(log, r) ensures Made(log', r) { MadeGrows(log, log'[|log|..], r); }
  }

  lemma ServeKept(w: World, j: Journal, i: nat, id: Text, at: Text)
    requires Kept(w, j) && i < |w.bundles|
    ensures var s := Serve(w.env, w.fleet, w.bundles[i], id, at);
      Kept(AfterServe(w, i, s), j.(live := ServeUse(w.bundles[i], s, j.live)))
  {
    hide Serve, After, Normalized, Used;
    ServeKeepsArtifacts(w.env, w.fleet, w.bundles[i], id, at);
    ServeUses(w.env, w.fleet, w.bundles[i], id, at, j.live.signatures);
  }

  lemma SignKept(w: World, j: Journal, i: nat, a: Option<Approval>, id: Text, at: Text)
    requires Kept(w, j) && i < |w.bundles|
    ensures Kept(Exec(w, SignBundle(i, a, id, at)), Noted(w, SignBundle(i, a, id, at), j))
  {
    hide Sign, After;
    var s := Sign(w.env, w.fleet, w.bundles[i], a, id, at);
    if s.Signed? {
      SignUses(w.env, w.fleet, w.bundles[i], a, id, at, j.live.signatures);
      SignKeepsArtifacts(w.env, w.fleet, w.bundles[i], a, id, at);
    }
  }

  lemma ArtifactKept(w: World, j: Journal, a: ArtifactRecord)
    requires Kept(w, j)
    ensures Kept(w.(fleet := PutArtifact(w.fleet, a)), j.(live := j.live.(artifacts := j.live.artifacts + [a])))
  {
    hide Touch;
    assert (j.live.artifacts + [a])[..|j.live.artifacts|] == j.live.artifacts;
  }

  lemma KeptStep(w: World, j: Journal, step: Step)
    requires Kept(w, j)
    ensures Kept(Exec(w, step), Noted(w, step, j))
  {
    hide Sign, Serve, Grown, After, NewArtifactRecord, PutArtifact, ServeUse, AfterServe;
    match step
    case SignBundle(i, a, id, at) =>
      if i < |w.bundles| { SignKept(w, j, i, a, id, at); }
    case ServeBundle(i, id, at) =>
      if i < |w.bundles| { ServeKept(w, j, i, id, at); }
    case ArtifactBundle(i, id, at, size, builtAt) =>
      if i < |w.bundles| {
        var s := Serve(w.env, w.fleet, w.bundles[i], id, at);
        var j' := j.(live := ServeUse(w.bundles[i], s, j.live));
        ServeKept(w, j, i, id, at);
        if s.Serving? { ArtifactKept(AfterServe(w, i, s), j', NewArtifactRecord(w.env, s, size, builtAt)); }
      }
    case Crash(_, _) => NothingUsed();
    case _ =>
  }

  lemma NothingUsed()
    ensures Behind(UNUSED, NO_FLEET)
  {}

  lemma {:induction false} RunKept(env: Env, steps: seq<Step>)
    ensures Kept(Run(Initial(env), steps), JournalOf(env, steps))
  {
    hide Exec, Noted, Kept;
    if steps == [] {
      StartKept(env);
    } else {
      var front := steps[..|steps| - 1];
      RunKept(env, front);
      KeptStep(Run(Initial(env), front), JournalOf(env, front), steps[|steps| - 1]);
    }
  }

  lemma StartKept(env: Env)
    ensures Kept(Initial(env), Journal(UNUSED, []))
  {}

  lemma ServeMade(w: World, j: Journal, i: nat, id: Text, at: Text)
    requires Recorded(w) && JournalMade(w, j) && i < |w.bundles|
    ensures var s := Serve(w.env, w.fleet, w.bundles[i], id, at);
      JournalMade(AfterServe(w, i, s), j.(live := ServeUse(w.bundles[i], s, j.live)))
  {
    hide Serve, Made, Traced, Normalized, Used;
    var s := Serve(w.env, w.fleet, w.bundles[i], id, at);
    StillMade(w.log, AfterServe(w, i, s).log, j);
    ServeKeepsArtifacts(w.env, w.fleet, w.bundles[i], id, at);
    if s.Serving? { UsedMade(w, i, s); }
  }

  lemma MadeStep(w: World, j: Journal, step: Step)
    requires Recorded(w) && JournalMade(w, j)
    ensures JournalMade(Exec(w, step), Noted(w, step, j))
  {
    hide Sign, Serve, Grown, Made, Recorded, NewArtifactRecord, PutArtifact, ServeUse, AfterServe;
    match step
    case SignBundle(i, a, id, at) =>
      if i < |w.bundles| {
        var s := Sign(w.env, w.fleet, w.bundles[i], a, id, at);
        if s.Signed? {
          var e := Event(w.env, s.bundle.core, s.record);
          StillMade(w.log, w.log + [e], j);
          LastMade(w.log, e);
        }
      }
    case ServeBundle(i, id, at) =>
      if i < |w.bundles| { ServeMade(w, j, i, id, at); }
    case ArtifactBundle(i, id, at, size, builtAt) =>
      if i < |w.bundles| { ServeMade(w, j, i, id, at); }
    case _ =>
  }

  lemma {:induction false} RunMade(env: Env, steps: seq<Step>)
    requires Sound(env) && Fair(env, steps) && Genuine(env, steps)
    ensures JournalMade(Run(Initial(env), steps), JournalOf(env, steps))
  {
    hide Exec, Noted, JournalMade, Recorded, Logged, Sound, FairStep, GenuineStep;
    if steps == [] {
      StartMade(env);
    } else {
      var front := steps[..|steps| - 1];
      RunMade(env, front);
      RunTraceable(env, front);
      MadeStep(Run(Initial(env), front), JournalOf(env, front), steps[|steps| - 1]);
    }
  }

  lemma StartMade(env: Env)
    ensures JournalMade(Initial(env), Journal(UNUSED, []))
  {}

  /* The ids that signing gives out. */

  function StepId(step: Step): Option<Text> {
    match step
    case SignBundle(_, _, id, _) => Some(id)
    case ServeBundle(_, id, _) => Some(id)
    case ArtifactBundle(_, id, _, _, _) => Some(id)
    case _ => None
  }

  /** The platform gives every signing an id of its own. */
  ghost predicate FreshIds(steps: seq<Step>) {
    forall i, j | 0 <= i < j < |steps| && StepId(steps[i]).Some? :: StepId(steps[i]) != StepId(steps[j])
  }

  /** Every logged record has the id of its step, and no two have the same. */
  ghost predicate IdsTell(log: seq<Event>, steps: seq<Step>) {
    && (forall k | 0 <= k < |log| :: exists i :: 0 <= i < |steps| && StepId(steps[i]) == Some(log[k].record.id))
    && forall k, l | 0 <= k < l < |log| :: log[k].record.id != log[l].record.id
  }

  /** A step logs at most one signing, under the step's id. */
  ghost predicate Logs(log: seq<Event>, log': seq<Event>, id: Option<Text>) {
    log' == log || exists e :: log' == log + [e] && id == Some(e.record.id)
  }

  lemma StepLogs(w: World, step: Step)
    ensures Logs(w.log, Exec(w, step).log, StepId(step))
  {
    hide Sign, Serve, Grown, Traced, NewArtifactRecord, PutArtifact;
    match step
    case SignBundle(i, a, id, at) =>
      if i < |w.bundles| {
        SignKeepsArtifacts(w.env, w.fleet, w.bundles[i], a, id, at);
        var s := Sign(w.env, w.fleet, w.bundles[i], a, id, at);
        if s.Signed? { assert Exec(w, step).log == w.log + [Event(w.env, s.bundle.core, s.record)]; }
      }
    case ServeBundle(i, id, at) =>
      if i < |w.bundles| { ServeLogs(w, i, id, at); }
    case ArtifactBundle(i, id, at, size, builtAt) =>
      if i < |w.bundles| { ServeLogs(w, i, id, at); }
    case _ =>
  }

  lemma ServeLogs(w: World, i: nat, id: Text, at: Text)
    requires i < |w.bundles|
    ensures Logs(w.log, AfterServe(w, i, Serve(w.env, w.fleet, w.bundles[i], id, at)).log, Some(id))
  {
    hide Serve;
    ServeKeepsArtifacts(w.env, w.fleet, w.bundles[i], id, at);
    var s := Serve(w.env, w.fleet, w.bundles[i], id, at);
    if s.Serving? && !s.reused {
      assert AfterServe(w, i, s).log == w.log + [Event(w.env, s.bundle.core, s.bundle.signature.value)];
    }
  }

  lemma IdsTellStep(log: seq<Event>, log': seq<Event>, steps: seq<Step>)
    requires steps != [] && FreshIds(steps)
    requires IdsTell(log, steps[..|steps| - 1]) && Logs(log, log', StepId(steps[|steps| - 1]))
    ensures IdsTell(log', steps)
  {
    hide StepId;
    var n := |steps| - 1;
    forall k | 0 <= k < |log| ensures exists i :: 0 <= i < |steps| && StepId(steps[i]) == Some(log[k].record.id) {
      var i :| 0 <= i < n && StepId(steps[..n][i]) == Some(log[k].record.id);
      assert steps[i] == steps[..n][i];
    }
    if log' != log {
      var e :| log' == log + [e] && StepId(steps[n]) == Some(e.record.id);
      forall k | 0 <= k < |log| ensures log[k].record.id != e.record.id {
        var i :| 0 <= i < n && StepId(steps[..n][i]) == Some(log[k].record.id);
        assert StepId(steps[i]) != StepId(steps[n]);
      }
    }
  }

  lemma {:induction false} RunIdsTell(env: Env, steps: seq<Step>)
    requires FreshIds(steps)
    ensures IdsTell(Run(Initial(env), steps).log, steps)
  {
    hide Exec, StepId, IdsTell, Logs;
    if steps == [] {
      StartIdsTell(env);
    } else {
      var front := steps[..|steps| - 1];
      RunIdsTell(env, front);
      StepLogs(Run(Initial(env), front), steps[|steps| - 1]);
      IdsTellStep(Run(Initial(env), front).log, Run(Initial(env), steps).log, steps);
    }
  }

  lemma StartIdsTell(env: Env)
    ensures IdsTell(Initial(env).log, [])
  {}

  lemma MadeIdsDetermine(log: seq<Event>, steps: seq<Step>, history: seq<SigRecord>)
    requires IdsTell(log, steps) && forall r | r in history :: Made(log, r)
    ensures IdDeterminesSubject(history)
  {
    hide Subject, StepId;
    forall x, y | x in history && y in history && x.id == y.id ensures Subject(x) == Subject(y) {
      assert Made(log, x) && Made(log, y);
      var k :| 0 <= k < |log| && log[k].record == x;
      var l :| 0 <= l < |log| && log[l].record == y;
      assert k == l;
    }
  }

  /**
  In every reachable state, forged records or not, the artifact ledger holds exactly the 100 most recently
  used distinct hashes of its history, newest first; and so does the signature ledger by subject, when no two
  records of its history share an id for different subjects. A crash goes back to the history of the save.
  */
  lemma LedgersFollowHistory(env: Env, steps: seq<Step>, w: World, u: Uses)
    requires w == Run(Initial(env), steps) && u == JournalOf(env, steps).live
    ensures w.fleet.artifacts == Clip(MostRecent(u.artifacts, (r: ArtifactRecord) => r.artifactHash, iset{}))
    ensures IdDeterminesSubject(u.signatures) ==>
      w.fleet.signatures == Clip(MostRecent(u.signatures, Subject, iset{}))
  {
    hide Run, JournalOf, After, MostRecent, Clip, Subject, IdDeterminesSubject;
    RunKept(env, steps);
    if IdDeterminesSubject(u.signatures) { SignatureLedgerIsMostRecent(u.signatures); }
    ArtifactLedgerIsMostRecent(u.artifacts);
  }

  /** When no record was forged and each signing has an id of its own, that is always so. */
  lemma LedgersAreMostRecent(env: Env, steps: seq<Step>, w: World, u: Uses)
    requires Sound(env) && Fair(env, steps) && Genuine(env, steps) && FreshIds(steps)
    requires w == Run(Initial(env), steps) && u == JournalOf(env, steps).live
    ensures w.fleet.signatures == Clip(MostRecent(u.signatures, Subject, iset{}))
    ensures w.fleet.artifacts == Clip(MostRecent(u.artifacts, (r: ArtifactRecord) => r.artifactHash, iset{}))
  {
    hide Sound, Fair, Genuine, FreshIds, Run, JournalOf, MostRecent, Clip, Subject, IdsTell, Made;
    RunMade(env, steps);
    RunIdsTell(env, steps);
    MadeIdsDetermine(w.log, steps, u.signatures);
    LedgersFollowHistory(env, steps, w, u);
  }

  /** So they hold one record for each artifact hash, or subject, ever used: up to a hundred of them. */
  lemma LedgersHold(env: Env, steps: seq<Step>, w: World, u: Uses)
    requires w == Run(Initial(env), steps) && u == JournalOf(env, steps).live
    ensures var n := |KeySet(u.artifacts, (r: ArtifactRecord) => r.artifactHash)|;
      |w.fleet.artifacts| == if n < 100 then n else 100
    ensures var n := |KeySet(u.signatures, Subject)|;
      IdDeterminesSubject(u.signatures) ==> |w.fleet.signatures| == if n < 100 then n else 100
  {
    hide Run, JournalOf, After, KeySet, Subject, IdDeterminesSubject;
    RunKept(env, steps);
    LedgerSize(u.artifacts, SameArtifact, (r: ArtifactRecord) => r.artifactHash);
    if IdDeterminesSubject(u.signatures) { SignaturesHold(u.signatures); }
  }

  lemma SignaturesHold(history: seq<SigRecord>)
    requires IdDeterminesSubject(history)
    ensures var n := |KeySet(history, Subject)|; |After(history, SameSignature)| == if n < 100 then n else 100
  {
    LedgerSize(history, SameSignature, Subject);
  }
}
