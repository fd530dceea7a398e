/**
Bearer-token verification against a cached key set: any number of calls interleave with each other,
with the clock, and with a key server that changes what it serves.
*/
module Jwks {
  import opened Options
  import opened JsMap

  const MIN_TTL := 30000
  const FETCH_TIMEOUT := 4000

  /** An imported public key, by its material. */
  type Key = nat

  /** A published key; material is None when it cannot be imported. */
  datatype Jwk = Jwk(kid: Option<string>, kty: string, use: Option<string>, material: Option<Key>)

  type KeyMap = seq<Entry<Option<string>, Key>>

  predicate Usable(jwk: Jwk) {
    jwk.kty == "RSA" && (jwk.use.None? || jwk.use.value == "" || jwk.use.value == "sig") && jwk.material.Some?
  }

  /** The key map of a document: usable keys in order, a repeated kid keeps the last. */
  function KeysOf(doc: seq<Jwk>): KeyMap {
    if doc == [] then []
    else
      var m, jwk := KeysOf(doc[..|doc| - 1]), doc[|doc| - 1];
      if Usable(jwk) then Set(m, jwk.kid, jwk.material.value) else m
  }

  datatype Cache = Cache(url: Option<string>, fetchedAt: nat, keys: KeyMap)

  /** `loadJwks` without force returns the cache when it is for this url, not empty, and young enough. */
  predicate Fresh(cache: Cache, url: string, now: nat, ttl: nat) {
    cache.url == Some(url) && cache.keys != [] && now < cache.fetchedAt + ttl
  }

  /** One answer of the server. */
  datatype Response = Response(time: nat, url: string, doc: seq<Jwk>)

  datatype Phase =
    | Fetching(force: bool, at: nat)               // the request is out; the clock was read at `at`
    | Reading(force: bool, at: nat, answer: nat)   // the server has answered; index into the answers
    | Checked(key: Key, time: nat)                 // the key the signature is checked with
    | Unavailable
    | UnknownKid(refreshFailed: bool)

  datatype Call = Call(url: string, kid: Option<string>, begun: nat, fetches: nat, phase: Phase)

  datatype System = System(
    now: nat, serves: map<string, seq<Jwk>>, cache: Cache, calls: map<nat, Call>, answers: seq<Response>)

  datatype Step =
    | Tick(ms: nat)
    | Rotate(url: string, doc: seq<Jwk>)
    | Begin(id: nat, url: string, kid: Option<string>)
    | Answer(id: nat)
    | Finish(id: nat)
    | FetchFails(id: nat)

  const EMPTY_CACHE := Cache(None, 0, [])

  function Start(now: nat): System {
    System(now, map[], EMPTY_CACHE, map[], [])
  }

  /** With a key map in hand: use the key, or refresh once. */
  function LookUp(keys: KeyMap, c: Call, forced: bool, now: nat): Call {
    if Has(keys, c.kid) then c.(phase := Checked(Get(keys, c.kid), now))
    else if forced then c.(phase := UnknownKid(false))
    else c.(phase := Fetching(true, now), fetches := c.fetches + 1)
  }

  predicate Enabled(s: System, step: Step) {
    match step
    case Begin(id, _, _) => id !in s.calls
    case Answer(id) => id in s.calls && s.calls[id].phase.Fetching? && s.calls[id].url in s.serves
    case Finish(id) => id in s.calls && s.calls[id].phase.Reading? && s.calls[id].phase.answer < |s.answers|
      && s.now <= s.calls[id].phase.at + FETCH_TIMEOUT
    case FetchFails(id) => id in s.calls && (s.calls[id].phase.Fetching? || s.calls[id].phase.Reading?)
    case _ => true
  }

  function Exec(s: System, step: Step, ttl: nat): System {
    if !Enabled(s, step) then s else
    match step
    case Tick(ms) => s.(now := s.now + ms)
    case Rotate(url, doc) => s.(serves := s.serves[url := doc])
    case Begin(id, url, kid) =>
      var c := Call(url, kid, s.now, 0, Unavailable);
      s.(calls := s.calls[id :=
        if Fresh(s.cache, url, s.now, ttl) then LookUp(s.cache.keys, c, false, s.now)
        else c.(phase := Fetching(false, s.now), fetches := 1)])
    case Answer(id) =>
      var c := s.calls[id];
      s.(answers := s.answers + [Response(s.now, c.url, s.serves[c.url])],
         calls := s.calls[id := c.(phase := Reading(c.phase.force, c.phase.at, |s.answers|))])
    case Finish(id) =>
      var c := s.calls[id];
      var keys := KeysOf(s.answers[c.phase.answer].doc);
      s.(cache := Cache(Some(c.url), c.phase.at, keys),
         calls := s.calls[id := LookUp(keys, c, c.phase.force, s.now)])
    case FetchFails(id) =>
      var c := s.calls[id];
      s.(calls := s.calls[id := c.(phase := if c.phase.force then UnknownKid(true) else Unavailable)])
  }

  function Run(now: nat, steps: seq<Step>, ttl: nat): System {
    if steps == [] then Start(now) else Exec(Run(now, steps[..|steps| - 1], ttl), steps[|steps| - 1], ttl)
  }

  /* ---- invariants ---- */

  /** The answer is for this url, and was given between two times. */
  ghost predicate Answered(answers: seq<Response>, i: nat, url: string, from: nat, to: nat) {
    i < |answers| && answers[i].url == url && from <= answers[i].time <= to
  }

  /** The cache is the key map of an answer given since the time it is stamped with. */
  ghost predicate Served(cache: Cache, answers: seq<Response>, now: nat) {
    cache.url.None? ||
    (cache.fetchedAt <= now &&
     exists i: nat ::
       Answered(answers, i, cache.url.value, cache.fetchedAt, now) && cache.keys == KeysOf(answers[i].doc))
  }

  ghost predicate CacheServed(s: System) {
    Served(s.cache, s.answers, s.now)
  }

  /** These keys were served at this url less than one TTL ago. */
  ghost predicate ServedLately(answers: seq<Response>, url: string, keys: KeyMap, now: nat, ttl: nat) {
    exists i: nat :: Answered(answers, i, url, 0, now) && now < answers[i].time + ttl && keys == KeysOf(answers[i].doc)
  }

  /** The server gave this call's key under its kid less than one TTL before the check. */
  ghost predicate FreshKey(answers: seq<Response>, c: Call, ttl: nat, i: nat)
    requires c.phase.Checked?
  {
    && Answered(answers, i, c.url, 0, c.phase.time) && c.phase.time < answers[i].time + ttl
    && Has(KeysOf(answers[i].doc), c.kid) && Get(KeysOf(answers[i].doc), c.kid) == c.phase.key
  }

  /** An answer given during the call did not have the kid. */
  ghost predicate Missing(answers: seq<Response>, c: Call, now: nat, i: nat) {
    Answered(answers, i, c.url, c.begun, now) && !Has(KeysOf(answers[i].doc), c.kid)
  }

  ghost predicate CallSound(answers: seq<Response>, c: Call, now: nat, ttl: nat) {
    && c.begun <= now
    && match c.phase
       case Fetching(force, at) => c.begun <= at <= now && c.fetches <= (if force then 2 else 1)
       case Reading(force, at, i) => c.begun <= at && c.fetches <= (if force then 2 else 1) &&
         Answered(answers, i, c.url, at, now)
       case Checked(key, time) => c.fetches <= 2 && time <= now && exists i: nat :: FreshKey(answers, c, ttl, i)
       case Unavailable => c.fetches <= 1
       case UnknownKid(failed) => c.fetches <= 2 && (!failed ==> exists i: nat :: Missing(answers, c, now, i))
  }

  ghost predicate Sound(s: System, ttl: nat) {
    CacheServed(s) && forall id | id in s.calls :: CallSound(s.answers, s.calls[id], s.now, ttl)
  }

  /** Later times and more answers change nothing for a call. */
  lemma CallStays(answers: seq<Response>, more: seq<Response>, c: Call, now: nat, now': nat, ttl: nat)
    requires CallSound(answers, c, now, ttl) && now <= now'
    ensures CallSound(answers + more, c, now', ttl)
  {
    hide KeysOf, Has;
    if c.phase.Checked? {
      var i: nat :| FreshKey(answers, c, ttl, i);
      assert FreshKey(answers + more, c, ttl, i);
    } else if c.phase == UnknownKid(false) {
      var i: nat :| Missing(answers, c, now, i);
      assert Missing(answers + more, c, now', i);
    }
  }

  lemma CacheStays(s: System, s': System)
    requires CacheServed(s) && s'.cache == s.cache && s.now <= s'.now && s.answers <= s'.answers
    ensures CacheServed(s')
  {
    hide KeysOf;
    if s.cache.url.Some? {
      var i: nat :| Answered(s.answers, i, s.cache.url.value, s.cache.fetchedAt, s.now) &&
        s.cache.keys == KeysOf(s.answers[i].doc);
      assert Answered(s'.answers, i, s.cache.url.value, s.cache.fetchedAt, s'.now);
    }
  }

  /** Looking a kid up in a young answer keeps the call sound. */
  lemma LookUpSound(answers: seq<Response>, i: nat, c: Call, forced: bool, at: nat, now: nat, ttl: nat)
    requires Answered(answers, i, c.url, 0, now) && now < answers[i].time + ttl && c.begun <= now
    requires c.fetches <= (if forced then 2 else 1)
    requires forced ==> c.begun <= answers[i].time
    ensures CallSound(answers, LookUp(KeysOf(answers[i].doc), c, forced, now), now, ttl)
  {
    hide KeysOf;
    var keys := KeysOf(answers[i].doc);
    var c' := LookUp(keys, c, forced, now);
    if c'.phase.Checked? {
      assert FreshKey(answers, c', ttl, i);
    } else if forced {
      assert Missing(answers, c', now, i);
    }
  }

  lemma OthersSound(s: System, s': System, id: nat, ttl: nat)
    requires Sound(s, ttl) && s.now <= s'.now && s.answers <= s'.answers
    requires forall j | j in s'.calls && j != id :: j in s.calls && s'.calls[j] == s.calls[j]
    requires id in s'.calls ==> CallSound(s'.answers, s'.calls[id], s'.now, ttl)
    ensures forall j | j in s'.calls :: CallSound(s'.answers, s'.calls[j], s'.now, ttl)
  {
    hide CallSound;
    var more := s'.answers[|s.answers|..];
    assert s'.answers == s.answers + more;
    forall j | j in s'.calls ensures CallSound(s'.answers, s'.calls[j], s'.now, ttl) {
      if j != id { CallStays(s.answers, more, s.calls[j], s.now, s'.now, ttl); }
    }
  }

  lemma BeginSound(s: System, id: nat, url: string, kid: Option<string>, ttl: nat)
    requires Sound(s, ttl) && ttl >= MIN_TTL && id !in s.calls
    ensures Sound(Exec(s, Begin(id, url, kid), ttl), ttl)
  {
    hide KeysOf, LookUp;
    var s' := Exec(s, Begin(id, url, kid), ttl);
    var c := Call(url, kid, s.now, 0, Unavailable);
    if Fresh(s.cache, url, s.now, ttl) {
      var i: nat :| Answered(s.answers, i, url, s.cache.fetchedAt, s.now) && s.cache.keys == KeysOf(s.answers[i].doc);
      LookUpSound(s.answers, i, c, false, s.now, s.now, ttl);
    }
    CacheStays(s, s');
    OthersSound(s, s', id, ttl);
  }

  lemma AnswerSound(s: System, id: nat, ttl: nat)
    requires Sound(s, ttl) && Enabled(s, Answer(id))
    ensures Sound(Exec(s, Answer(id), ttl), ttl)
  {
    hide KeysOf, LookUp;
    var s' := Exec(s, Answer(id), ttl);
    assert Answered(s'.answers, |s.answers|, s.calls[id].url, s.calls[id].phase.at, s.now);
    CacheStays(s, s');
    OthersSound(s, s', id, ttl);
  }

  lemma FinishSound(s: System, id: nat, ttl: nat)
    requires Sound(s, ttl) && ttl >= MIN_TTL && Enabled(s, Finish(id))
    ensures Sound(Exec(s, Finish(id), ttl), ttl)
  {
    hide KeysOf, LookUp;
    var s' := Exec(s, Finish(id), ttl);
    var c := s.calls[id];
    LookUpSound(s.answers, c.phase.answer, c, c.phase.force, c.phase.at, s.now, ttl);
    assert Answered(s'.answers, c.phase.answer, c.url, s'.cache.fetchedAt, s'.now);
    OthersSound(s, s', id, ttl);
  }

  lemma StepSound(s: System, step: Step, ttl: nat)
    requires Sound(s, ttl) && ttl >= MIN_TTL
    ensures Sound(Exec(s, step, ttl), ttl)
  {
    if Enabled(s, step) {
      match step
      case Begin(id, url, kid) => BeginSound(s, id, url, kid, ttl);
      case Answer(id) => AnswerSound(s, id, ttl);
      case Finish(id) => FinishSound(s, id, ttl);
      case FetchFails(id) => OthersSound(s, Exec(s, step, ttl), id, ttl); CacheStays(s, Exec(s, step, ttl));
      case Tick(ms) => OthersSound(s, Exec(s, step, ttl), 0, ttl) by { TickSound(s, ms, ttl); }
        CacheStays(s, Exec(s, step, ttl));
      case Rotate(url, doc) =>
    }
  }

  lemma TickSound(s: System, ms: nat, ttl: nat)
    requires Sound(s, ttl)
    ensures 0 in s.calls ==> CallSound(s.answers, s.calls[0], s.now + ms, ttl)
  {
    hide CallSound;
    if 0 in s.calls {
      CallStays(s.answers, [], s.calls[0], s.now, s.now + ms, ttl);
      assert s.answers + [] == s.answers;
    }
  }

  lemma {:induction false} RunSound(now: nat, steps: seq<Step>, ttl: nat)
    requires ttl >= MIN_TTL
    ensures Sound(Run(now, steps, ttl), ttl)
  {
    hide Exec, Sound;
    if steps == [] {
      StartSound(now, ttl);
    } else {
      RunSound(now, steps[..|steps| - 1], ttl);
      StepSound(Run(now, steps[..|steps| - 1], ttl), steps[|steps| - 1], ttl);
    }
  }

  lemma StartSound(now: nat, ttl: nat)
    ensures Sound(Start(now), ttl)
  {}

  /**
  Over every interleaving: a key a token is checked with was served at the call's url, under the
  call's kid, less than one TTL before the check.
  */
  lemma AcceptedKeysAreFresh(now: nat, steps: seq<Step>, ttl: nat, id: nat)
    requires ttl >= MIN_TTL
    requires var s := Run(now, steps, ttl); id in s.calls && s.calls[id].phase.Checked?
    ensures var s := Run(now, steps, ttl);
      exists i: nat :: FreshKey(s.answers, s.calls[id], ttl, i)
  {
    hide KeysOf, Run;
    RunSound(now, steps, ttl);
    var s := Run(now, steps, ttl);
    assert CallSound(s.answers, s.calls[id], s.now, ttl);
  }

  /** A kid is reported unknown only after a failed refresh, or an answer during the call without it. */
  lemma UnknownMeansMissing(now: nat, steps: seq<Step>, ttl: nat, id: nat)
    requires ttl >= MIN_TTL
    requires var s := Run(now, steps, ttl); id in s.calls && s.calls[id].phase == UnknownKid(false)
    ensures var s := Run(now, steps, ttl);
      exists i: nat :: Missing(s.answers, s.calls[id], s.now, i)
  {
    hide KeysOf, Run;
    RunSound(now, steps, ttl);
    var s := Run(now, steps, ttl);
    assert CallSound(s.answers, s.calls[id], s.now, ttl);
  }

  /** While a call is open, whatever the server serves at its url has the call's kid. */
  ghost predicate ServesKid(s: System, id: nat) {
    id in s.calls && s.calls[id].url in s.serves ==> Has(KeysOf(s.serves[s.calls[id].url]), s.calls[id].kid)
  }

  /** The call is not reported unknown, and an answer it is reading has its kid. */
  ghost predicate NotUnknown(s: System, id: nat) {
    id in s.calls ==>
      (s.calls[id].phase != UnknownKid(false) &&
       (s.calls[id].phase.Reading? ==>
        (s.calls[id].phase.answer < |s.answers| &&
         Has(KeysOf(s.answers[s.calls[id].phase.answer].doc), s.calls[id].kid))))
  }

  lemma NotUnknownStep(s: System, step: Step, ttl: nat, id: nat)
    requires NotUnknown(s, id) && ServesKid(s, id)
    ensures NotUnknown(Exec(s, step, ttl), id)
  {
    hide KeysOf;
  }

  /** A kid that the server serves throughout a call is never reported unknown unless a fetch fails. */
  lemma {:induction false} ServedKidIsKnown(now: nat, steps: seq<Step>, ttl: nat, id: nat)
    requires forall n | 0 <= n <= |steps| :: ServesKid(Run(now, steps[..n], ttl), id)
    ensures NotUnknown(Run(now, steps, ttl), id)
  {
    hide Exec, NotUnknown, ServesKid;
    if steps == [] {
      NotUnknownStart(now, id);
    } else {
      var front := steps[..|steps| - 1];
      forall n | 0 <= n <= |front| ensures ServesKid(Run(now, front[..n], ttl), id) { assert front[..n] == steps[..n]; }
      ServedKidIsKnown(now, front, ttl, id);
      assert front[..|front|] == front;
      NotUnknownStep(Run(now, front, ttl), steps[|steps| - 1], ttl, id);
    }
  }

  lemma NotUnknownStart(now: nat, id: nat)
    ensures NotUnknown(Start(now), id)
  {}

  /** Each call fetches at most twice. */
  lemma AtMostTwoFetches(now: nat, steps: seq<Step>, ttl: nat, id: nat)
    requires ttl >= MIN_TTL && id in Run(now, steps, ttl).calls
    ensures Run(now, steps, ttl).calls[id].fetches <= 2
  {
    hide KeysOf, Run;
    RunSound(now, steps, ttl);
    var s := Run(now, steps, ttl);
    assert CallSound(s.answers, s.calls[id], s.now, ttl);
  }

  /* ---- in terms of the published documents ---- */

  /** A published entry that signatures may be checked with: RSA, for signing or for anything, importable. */
  predicate SigningEntry(jwk: Jwk) {
    jwk.kty == "RSA" && jwk.material.Some? && (jwk.use == None || jwk.use == Some("") || jwk.use == Some("sig"))
  }

  /** The last such entry of a document with this kid. */
  predicate LastEntry(doc: seq<Jwk>, kid: Option<string>, i: nat) {
    && i < |doc| && SigningEntry(doc[i]) && doc[i].kid == kid
    && forall j | i < j < |doc| :: !(SigningEntry(doc[j]) && doc[j].kid == kid)
  }

  predicate Publishes(doc: seq<Jwk>, kid: Option<string>) {
    exists i | 0 <= i < |doc| :: SigningEntry(doc[i]) && doc[i].kid == kid
  }

  /** The key map has a kid exactly when the document has such an entry, and gives the last one's key. */
  ghost predicate KeysAre(keys: KeyMap, doc: seq<Jwk>) {
    && (forall kid :: Has(keys, kid) <==> Publishes(doc, kid))
    && forall kid, i: nat | LastEntry(doc, kid, i) && Has(keys, kid) :: Get(keys, kid) == doc[i].material.value
  }

  lemma {:induction false} KeysOfExactly(doc: seq<Jwk>)
    ensures KeysAre(KeysOf(doc), doc)
  {
    if doc != [] {
      var n := |doc| - 1;
      KeysOfExactly(doc[..n]);
      PublishesMore(doc[..n], doc[n]);
      assert doc == doc[..n] + [doc[n]];
      forall kid, i: nat | LastEntry(doc, kid, i) &&
        Has(KeysOf(doc), kid) ensures Get(KeysOf(doc), kid) == doc[i].material.value {
        if i < n { assert LastEntry(doc[..n], kid, i); }
      }
    }
  }

  lemma PublishesMore(doc: seq<Jwk>, jwk: Jwk)
    ensures forall kid :: Publishes(doc + [jwk], kid) <==> Publishes(doc, kid) || (SigningEntry(jwk) && jwk.kid == kid)
  {
    forall kid ensures Publishes(doc + [jwk], kid) <==> Publishes(doc, kid) || (SigningEntry(jwk) && jwk.kid == kid) {
      if i :| 0 <= i < |doc| && SigningEntry(doc[i]) && doc[i].kid == kid { assert (doc + [jwk])[i] == doc[i]; }
      assert (doc + [jwk])[|doc|] == jwk;
    }
  }

  lemma {:induction false} LastExists(doc: seq<Jwk>, kid: Option<string>)
    requires Publishes(doc, kid)
    ensures exists i: nat :: LastEntry(doc, kid, i)
  {
    var n := |doc| - 1;
    if SigningEntry(doc[n]) && doc[n].kid == kid {
      assert LastEntry(doc, kid, n);
    } else {
      var j :| 0 <= j < |doc| && SigningEntry(doc[j]) && doc[j].kid == kid;
      assert doc[..n][j] == doc[j];
      LastExists(doc[..n], kid);
      var i: nat :| LastEntry(doc[..n], kid, i);
      assert LastEntry(doc, kid, i);
    }
  }

  /** The call's key is that of the last signing entry of an answer with its kid, given less than one TTL before. */
  ghost predicate PublishedKey(answers: seq<Response>, c: Call, ttl: nat, a: nat, i: nat)
    requires c.phase.Checked?
  {
    && Answered(answers, a, c.url, 0, c.phase.time) && c.phase.time < answers[a].time + ttl
    && LastEntry(answers[a].doc, c.kid, i) && answers[a].doc[i].material == Some(c.phase.key)
  }

  /**
  Over every interleaving: the key a token is checked with is the material of the last entry with the call's
  kid, RSA, importable and for signing, of a document served at the call's url less than one TTL before.
  */
  lemma CheckedWithPublished(now: nat, steps: seq<Step>, ttl: nat, id: nat)
    requires ttl >= MIN_TTL
    requires var s := Run(now, steps, ttl); id in s.calls && s.calls[id].phase.Checked?
    ensures var s := Run(now, steps, ttl);
      exists a: nat, i: nat :: PublishedKey(s.answers, s.calls[id], ttl, a, i)
  {
    hide KeysOf, Run, Has, Get;
    AcceptedKeysAreFresh(now, steps, ttl, id);
    var s := Run(now, steps, ttl);
    var c := s.calls[id];
    var a: nat :| FreshKey(s.answers, c, ttl, a);
    KeysOfExactly(s.answers[a].doc);
    LastExists(s.answers[a].doc, c.kid);
    var i: nat :| LastEntry(s.answers[a].doc, c.kid, i);
    assert PublishedKey(s.answers, c, ttl, a, i);
  }

  /** While a call is open, whatever the server serves at its url publishes a signing key under its kid. */
  ghost predicate PublishesKid(s: System, id: nat) {
    id in s.calls && s.calls[id].url in s.serves ==> Publishes(s.serves[s.calls[id].url], s.calls[id].kid)
  }

  /** A kid that is published for signing throughout a call is never reported unknown unless a fetch fails. */
  lemma PublishedKidIsKnown(now: nat, steps: seq<Step>, ttl: nat, id: nat)
    requires forall n | 0 <= n <= |steps| :: PublishesKid(Run(now, steps[..n], ttl), id)
    ensures id in Run(now, steps, ttl).calls ==> Run(now, steps, ttl).calls[id].phase != UnknownKid(false)
  {
    hide Run, KeysOf, Has;
    forall n | 0 <= n <= |steps| ensures ServesKid(Run(now, steps[..n], ttl), id) {
      var s := Run(now, steps[..n], ttl);
      assert PublishesKid(s, id);
      if id in s.calls && s.calls[id].url in s.serves { KeysOfExactly(s.serves[s.calls[id].url]); }
    }
    ServedKidIsKnown(now, steps, ttl, id);
  }

  /** And an unknown kid without a failed refresh was not published for signing in an answer during the call. */
  lemma UnknownWasNotPublished(now: nat, steps: seq<Step>, ttl: nat, id: nat)
    requires ttl >= MIN_TTL
    requires var s := Run(now, steps, ttl); id in s.calls && s.calls[id].phase == UnknownKid(false)
    ensures var s := Run(now, steps, ttl);
      exists a: nat ::
        Answered(s.answers, a, s.calls[id].url, s.calls[id].begun, s.now) &&
        !Publishes(s.answers[a].doc, s.calls[id].kid)
  {
    hide KeysOf, Run, Has;
    UnknownMeansMissing(now, steps, ttl, id);
    var s := Run(now, steps, ttl);
    var a: nat :| Missing(s.answers, s.calls[id], s.now, a);
    KeysOfExactly(s.answers[a].doc);
  }

  /** A call that finds its kid in a cache of its url, younger than the TTL, ends at once and fetches nothing. */
  lemma YoungCacheSavesFetch(s: System, id: nat, url: string, kid: Option<string>, ttl: nat)
    requires id !in s.calls && s.cache.url == Some(url) && s.now < s.cache.fetchedAt + ttl && Has(s.cache.keys, kid)
    ensures var c := Exec(s, Begin(id, url, kid), ttl).calls[id];
      c.fetches == 0 && c.phase == Checked(Get(s.cache.keys, kid), s.now)
  {}

  /** The bounds of the source, in milliseconds. */
  lemma Bounds(s: System, id: nat)
    requires id in s.calls && s.calls[id].phase.Reading? && s.calls[id].phase.answer < |s.answers|
    ensures MIN_TTL == 30000 && (Enabled(s, Finish(id)) <==> s.now - s.calls[id].phase.at <= 4000)
  {}

  /* ---- the module-level cache ---- */

  class JwksCache {
    var cache: Cache
    const ttl: nat
    ghost var answers: seq<Response>   // everything the key server has answered

    ghost predicate Valid(now: nat)
      reads this
    {
      Served(cache, answers, now)
    }

    constructor (ttl: nat)
      ensures cache == EMPTY_CACHE && this.ttl == ttl && answers == [] && forall now :: Valid(now)
    {
      this.cache, this.ttl, this.answers := EMPTY_CACHE, ttl, [];
    }

    /**
    The synchronous beginning of `loadJwks`. Keys from the cache were served at this url less than one
    TTL ago; it fetches only when forced or when the cache holds no keys of this url that young.
    */
    method Cached(url: string, force: bool, now: nat) returns (keys: Option<KeyMap>)
      requires Valid(now)
      ensures keys.Some? ==> !force && keys.value != [] && ServedLately(answers, url, keys.value, now, ttl)
      ensures keys.None? ==> force || cache.keys == [] || cache.url != Some(url) || cache.fetchedAt + ttl <= now
    {
      hide KeysOf;
      keys := None;
      if !force && cache.url == Some(url) && |cache.keys| != 0 && now < cache.fetchedAt + ttl {
        keys := Some(cache.keys);
      }
    }

    /**
    The end of `loadJwks`: the answer is parsed and replaces the cache, which stays a map of served
    keys, stamped with the time the load began.
    */
    method Install(url: string, startedAt: nat, ghost answeredAt: nat, ghost now: nat, doc: seq<Jwk>)
      returns (keys: KeyMap)
      requires startedAt <= answeredAt <= now
      modifies this
      ensures Valid(now) && answers == old(answers) + [Response(answeredAt, url, doc)]
      ensures keys == KeysOf(doc) && cache == Cache(Some(url), startedAt, keys)
      ensures KeysAre(keys, doc)
    {
      hide Set;
      KeysOfExactly(doc);
      keys := [];
      for i := 0 to |doc|
        invariant keys == KeysOf(doc[..i]) && answers == old(answers)
      {
        assert doc[..i + 1][..i] == doc[..i];
        var jwk := doc[i];
        if jwk.kty != "RSA" || (jwk.use.Some? && jwk.use.value != "" && jwk.use.value != "sig") { continue; }
        if jwk.material.Some? { keys := Set(keys, jwk.kid, jwk.material.value); }
      }
      assert doc[..|doc|] == doc;
      cache := Cache(Some(url), startedAt, keys);
      answers := answers + [Response(answeredAt, url, doc)];
      assert Answered(answers, |old(answers)|, url, startedAt, now);
    }
  }
}
