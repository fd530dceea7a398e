/**
What the reports guarantee: groups partition the records and conserve every sum, rounding stays
within a bound, distinct counts, order independence, and adjacent date windows.
*/
module ReportTheorems {
  import opened Lists
  import opened Options
  import opened Reports

  function Sum(rs: seq<Record>): Measures {
    if rs == [] then ZERO else Sum(rs[..|rs| - 1]).Plus(MeasuresOf(rs[|rs| - 1]))
  }

  function SumGroups(gs: seq<Group>): Measures {
    if gs == [] then ZERO else SumGroups(gs[..|gs| - 1]).Plus(gs[|gs| - 1].m)
  }

  /* Measures add like numbers. */

  lemma PlusSwap(a: Measures, b: Measures, c: Measures)
    ensures a.Plus(b).Plus(c) == a.Plus(c).Plus(b)
  {}

  lemma PlusAssociates(a: Measures, b: Measures, c: Measures)
    ensures a.Plus(b.Plus(c)) == a.Plus(b).Plus(c)
  {}

  lemma PlusZero(a: Measures)
    ensures a.Plus(ZERO) == a && ZERO.Plus(a) == a
  {}

  /* ---- buckets ---- */

  function Values(rs: seq<Record>, key: Record -> string): set<string> {
    set r | r in rs :: key(r)
  }

  function PoolOf(r: Record): string { FieldString(r, ["billing_pool_id", "credit_pool_id"], "") }
  function ActivityOf(r: Record): string { FieldString(r, ["observed_at", "recorded_at"], "") }

  /** The greatest activity time of a list, or nothing when no record has one. */
  ghost predicate IsLatest(at: string, rs: seq<Record>) {
    (at == "" || exists r :: r in rs && ActivityOf(r) == at) && forall r | r in rs :: !Later(ActivityOf(r), at)
  }

  /** What accumulation collects: the sums, the sets of field values, and the last activity. */
  ghost predicate Collected(b: Bucket, rs: seq<Record>) {
    && b.m == Sum(rs)
    && b.devices == Values(rs, DeviceKey) && b.users == Values(rs, UserKey) && b.agents == Values(rs, AgentCountKey)
    && b.tenants == Values(rs, TenantKey) && b.providers == Values(rs, ProviderKey) && b.models == Values(rs, ModelName)
    && b.pools == Values(rs, PoolOf) - {""} && IsLatest(b.lastActivity, rs)
  }

  lemma LaterTotal(a: string, b: string)
    ensures a == b || Later(a, b) || Later(b, a)
    ensures !(Later(a, b) && Later(b, a))
  {
    if a != "" && b != "" && a[0] == b[0] {
      LaterTotal(a[1..], b[1..]);
      assert a == [a[0]] + a[1..] && b == [b[0]] + b[1..];
    }
  }

  lemma LaterTransitive(a: string, b: string, c: string)
    requires Later(a, b) && (Later(b, c) || b == c)
    ensures Later(a, c)
  {}

  /** Two lists with the same records have the same last activity. */
  lemma LatestUnique(x: string, y: string, a: seq<Record>, b: seq<Record>)
    requires IsLatest(x, a) && IsLatest(y, b) && forall r :: r in a <==> r in b
    ensures x == y
  {
    hide Later, ActivityOf;
    LaterTotal(x, y);
    if x == "" || y == "" { NothingEarlier(x); NothingEarlier(y); }
  }

  lemma NothingEarlier(x: string)
    ensures !Later("", x) && (x != "" ==> Later(x, ""))
  {}

  lemma LatestStep(at: string, rs: seq<Record>, r: Record)
    requires IsLatest(at, rs)
    ensures var t := ActivityOf(r);
      IsLatest(if t != "" && (at == "" || Later(t, at)) then t else at, rs + [r])
  {
    hide ActivityOf, Later;
    var t := ActivityOf(r);
    var next := if t != "" && (at == "" || Later(t, at)) then t else at;
    NothingEarlier(at);
    NothingEarlier(t);
    LaterTotal(t, at);
    assert ActivityOf(r) == t && r in rs + [r];
    forall x | x in rs + [r] ensures !Later(ActivityOf(x), next) {
      var u := ActivityOf(x);
      LaterTotal(t, t);
      if x in rs && Later(u, t) && next == t {
        LaterTotal(u, at);
        LaterTransitive(u, t, at);
      }
    }
  }

  lemma ValuesStep(rs: seq<Record>, r: Record, key: Record -> string)
    ensures Values(rs + [r], key) == Values(rs, key) + {key(r)}
  {
    assert forall x :: x in rs + [r] <==> x in rs || x == r;
  }

  lemma {:induction false} AccumulationCollects(identity: Identity, rs: seq<Record>)
    ensures Collected(AccumulateAll(NewBucket(identity), rs), rs)
    ensures AccumulateAll(NewBucket(identity), rs).identity == identity
  {
    hide MeasuresOf, DeviceKey, UserKey, AgentCountKey, TenantKey, ProviderKey, ModelName, Values, IsLatest, Later;
    if rs != [] {
      var front, r := rs[..|rs| - 1], rs[|rs| - 1];
      assert rs == front + [r];
      AccumulationCollects(identity, front);
      ValuesStep(front, r, PoolOf);
      LatestStep(AccumulateAll(NewBucket(identity), front).lastActivity, front, r);
      ValuesStep(front, r, DeviceKey);
      ValuesStep(front, r, UserKey);
      ValuesStep(front, r, AgentCountKey);
      ValuesStep(front, r, TenantKey);
      ValuesStep(front, r, ProviderKey);
      ValuesStep(front, r, ModelName);
    } else {
      NoValues();
    }
  }

  lemma NoValues()
    ensures forall key: Record -> string :: Values([], key) == {}
    ensures IsLatest("", [])
  {}

  /* ---- conservation ---- */

  /** Sum over the groups of a list of keys. */
  function SumKeys(rs: seq<Record>, key: Record -> string, ks: seq<string>): Measures {
    if ks == [] then ZERO
    else SumKeys(rs, key, ks[..|ks| - 1]).Plus(Sum(InGroup(rs, key, ks[|ks| - 1])))
  }

  lemma SumMore(rs: seq<Record>, r: Record)
    ensures Sum(rs + [r]) == Sum(rs).Plus(MeasuresOf(r))
  {
    assert (rs + [r])[..|rs|] == rs;
  }

  /** One more record adds itself to the group it belongs to, if that is among the keys. */
  lemma {:induction false} SumKeysStep(rs: seq<Record>, i: nat, key: Record -> string, ks: seq<string>)
    requires i < |rs| && forall a, b | 0 <= a < b < |ks| :: ks[a] != ks[b]
    ensures SumKeys(rs[..i + 1], key, ks) ==
      if key(rs[i]) in ks then SumKeys(rs[..i], key, ks).Plus(MeasuresOf(rs[i])) else SumKeys(rs[..i], key, ks)
  {
    hide MeasuresOf, InGroup, Measures.Plus, Sum;
    if ks != [] {
      var front, k := ks[..|ks| - 1], ks[|ks| - 1];
      assert ks == front + [k];
      SumKeysStep(rs, i, key, front);
      InGroupStep(rs, key, i, k);
      var mine := InGroup(rs[..i], key, k);
      var before := SumKeys(rs[..i], key, front);
      if key(rs[i]) == k {
        assert k !in front;
        SumMore(mine, rs[i]);
        PlusAssociates(before, Sum(mine), MeasuresOf(rs[i]));
      } else {
        assert mine + [] == mine;
        PlusSwap(before, MeasuresOf(rs[i]), Sum(mine));
      }
    }
  }

  lemma SumKeysAppend(rs: seq<Record>, key: Record -> string, ks: seq<string>, k: string)
    requires InGroup(rs, key, k) == []
    ensures SumKeys(rs, key, ks + [k]) == SumKeys(rs, key, ks)
  {
    hide InGroup, Measures.Plus;
    assert (ks + [k])[..|ks|] == ks;
    PlusZero(SumKeys(rs, key, ks));
  }

  /** Over any prefix of the records, the groups add up to the whole. */
  lemma {:induction false} KeysConserve(rs: seq<Record>, key: Record -> string, n: nat)
    requires n <= |rs|
    ensures SumKeys(rs[..n], key, GroupKeys(rs[..n], key)) == Sum(rs[..n])
  {
    hide MeasuresOf, InGroup, GroupKeys, Measures.Plus, SumKeys, Sum;
    if n == 0 {
      assert rs[..0] == [];
      NoKeys(key);
    } else {
      var i := n - 1;
      KeysConserve(rs, key, i);
      GroupKeysStep(rs, key, i);
      var ks := GroupKeys(rs[..i], key);
      var ks' := GroupKeys(rs[..n], key);
      SumKeysStep(rs, i, key, ks');
      if key(rs[i]) !in ks {
        EmptyGroup(rs[..i], key, key(rs[i]));
        SumKeysAppend(rs[..i], key, ks, key(rs[i]));
        assert key(rs[i]) in ks' by { assert ks'[|ks|] == key(rs[i]); }
      }
      assert rs[..n] == rs[..i] + [rs[i]];
      SumMore(rs[..i], rs[i]);
    }
  }

  lemma NoKeys(key: Record -> string)
    ensures GroupKeys([], key) == [] && SumKeys([], key, []) == Sum([])
  {}

  lemma {:induction false} SumOfList(names: Naming, rs: seq<Record>, d: Dimension, n: nat)
    requires n <= |GroupKeys(rs, KeyOf(names, d))|
    ensures SumGroups(Groups(names, rs, d)[..n]) == SumKeys(rs, KeyOf(names, d), GroupKeys(rs, KeyOf(names, d))[..n])
  {
    hide GroupKeys, InGroup, GroupIdentity, AccumulateAll, NewBucket, Sum, Measures.Plus, Round4, Values;
    var ks, gs := GroupKeys(rs, KeyOf(names, d)), Groups(names, rs, d);
    if n > 0 {
      SumOfList(names, rs, d, n - 1);
      assert gs[..n][..n - 1] == gs[..n - 1] && ks[..n][..n - 1] == ks[..n - 1];
      var mine := InGroup(rs, KeyOf(names, d), ks[n - 1]);
      AccumulationCollects(if mine == [] then Identity(ks[n - 1], "", NoMeta)
        else GroupIdentity(names, mine[0], d), mine);
    } else {
      assert gs[..0] == [] && ks[..0] == [];
    }
  }

  lemma SumGroupsMore(gs: seq<Group>, g: Group)
    ensures SumGroups(gs + [g]) == SumGroups(gs).Plus(g.m)
  {
    hide Measures.Plus;
    assert (gs + [g])[..|gs|] == gs;
  }

  /** Sorting does not change a sum. */
  lemma {:induction false} InsertSum(g: Group, gs: seq<Group>)
    requires Sorted(gs)
    ensures SumGroups(InsertGroup(g, gs)) == SumGroups(gs).Plus(g.m)
  {
    hide InOrder, Measures.Plus;
    if gs == [] || InOrder(gs[|gs| - 1], g) {
      SumGroupsMore(gs, g);
    } else {
      var n := |gs| - 1;
      InsertSum(g, gs[..n]);
      SumGroupsMore(InsertGroup(g, gs[..n]), gs[n]);
      PlusSwap(SumGroups(gs[..n]), g.m, gs[n].m);
    }
  }

  lemma {:induction false} SortSum(gs: seq<Group>)
    ensures SumGroups(SortGroups(gs)) == SumGroups(gs)
  {
    hide InOrder;
    if gs != [] {
      SortSum(gs[..|gs| - 1]);
      InsertSum(gs[|gs| - 1], SortGroups(gs[..|gs| - 1]));
    }
  }

  /**
  For every record list and dimension, each token, cost, credit, call and record sum over the groups
  of the report equals the total, and every record is either reported or estimated.
  */
  lemma ReportConserves(names: Naming, rs: seq<Record>, d: Dimension)
    ensures SumGroups(Report(names, rs, d)) == Totals(rs).m == Sum(rs)
    ensures Totals(rs).m.records == |rs| == Totals(rs).m.reported + Totals(rs).m.estimated
  {
    hide GroupKeys, InGroup, GroupIdentity, SortGroups, Accumulate, AccumulateAll, Sum, SumGroups, SumKeys, BucketOf,
      Round4, Values, NewBucket;
    var ks, gs := GroupKeys(rs, KeyOf(names, d)), Groups(names, rs, d);
    SortSum(gs);
    SumOfList(names, rs, d, |ks|);
    assert gs[..|ks|] == gs && ks[..|ks|] == ks && rs[..|rs|] == rs;
    KeysConserve(rs, KeyOf(names, d), |rs|);
    AccumulationCollects(TOTALS, rs);
    EveryRecordCounted(rs);
  }

  lemma {:induction false} EveryRecordCounted(rs: seq<Record>)
    ensures Sum(rs).records == |rs| == Sum(rs).reported + Sum(rs).estimated
  {
    hide FieldNumber, FieldString, Contains;
    if rs != [] { EveryRecordCounted(rs[..|rs| - 1]); }
  }

  /* ---- the groups are the partition by key ---- */

  lemma BucketOfGroup(names: Naming, rs: seq<Record>, d: Dimension, k: string)
    requires k in GroupKeys(rs, KeyOf(names, d))
    ensures var mine := InGroup(rs, KeyOf(names, d), k);
      mine != [] && BucketOf(names, rs, d, k).identity == GroupIdentity(names, mine[0], d)
      && BucketOf(names, rs, d, k).identity.key == k && Collected(BucketOf(names, rs, d, k), mine)
  {
    hide GroupKeys, InGroup, GroupIdentity, AccumulateAll, Collected, NewBucket;
    var mine := InGroup(rs, KeyOf(names, d), k);
    EmptyGroup(rs, KeyOf(names, d), k);
    AccumulationCollects(GroupIdentity(names, mine[0], d), mine);
    FirstHasKey(names, rs, d, k);
  }

  lemma FirstHasKey(names: Naming, rs: seq<Record>, d: Dimension, k: string)
    requires InGroup(rs, KeyOf(names, d), k) != []
    ensures GroupIdentity(names, InGroup(rs, KeyOf(names, d), k)[0], d).key == k
  {
    hide GroupIdentity, Select;
    var p := HasKey(KeyOf(names, d), k);
    SelectSome(rs, p);
    assert Select(rs, p)[0] in Select(rs, p);
  }

  /** Every group of a report carries the sums and counts of exactly the records with its key. */
  ghost predicate IsGroupOf(names: Naming, g: Group, rs: seq<Record>, d: Dimension) {
    var mine := InGroup(rs, KeyOf(names, d), g.identity.key);
    && mine != [] && g.identity == GroupIdentity(names, mine[0], d)
    && g.m == Sum(mine) && g.credits == Round4(Sum(mine).credits)
    && g.deviceCount == |Values(mine, DeviceKey)| && g.userCount == |Values(mine, UserKey)|
    && g.agentCount == |Values(mine, AgentCountKey)| && g.tenantCount == |Values(mine, TenantKey)|
    && g.providerCount == |Values(mine, ProviderKey)| && g.modelCount == |Values(mine, ModelName)|
    && g.pools == Values(mine, PoolOf) - {""} && IsLatest(g.lastActivity, mine)
  }

  lemma SortedKeysDistinct(gs: seq<Group>, hs: seq<Group>)
    requires multiset(gs) == multiset(hs)
    requires forall i, j | 0 <= i < j < |gs| :: gs[i].identity.key != gs[j].identity.key
    ensures |hs| == |gs| && forall i, j | 0 <= i < j < |hs| :: hs[i].identity.key != hs[j].identity.key
    ensures forall h | h in hs :: h in gs
  {
    assert |multiset(gs)| == |multiset(hs)|;
    forall h | h in hs ensures h in gs { assert h in multiset(hs); }
    forall i, j | 0 <= i < j < |hs| ensures hs[i].identity.key != hs[j].identity.key {
      assert hs[i] in gs && hs[j] in gs;
      if hs[i].identity.key == hs[j].identity.key {
        assert hs[i] == hs[j];
        Twice(hs, i, j);
        AtMostOnce(gs, hs[i]);
      }
    }
  }

  lemma Twice(hs: seq<Group>, i: nat, j: nat)
    requires i < j < |hs| && hs[i] == hs[j]
    ensures multiset(hs)[hs[i]] >= 2
  {
    assert hs == hs[..i] + [hs[i]] + hs[i + 1..j] + [hs[j]] + hs[j + 1..];
  }

  lemma {:induction false} AtMostOnce(gs: seq<Group>, g: Group)
    requires forall i, j | 0 <= i < j < |gs| :: gs[i].identity.key != gs[j].identity.key
    ensures multiset(gs)[g] <= 1
  {
    if gs != [] {
      var n := |gs| - 1;
      assert gs == gs[..n] + [gs[n]];
      AtMostOnce(gs[..n], g);
      if gs[n] == g && g in gs[..n] { assert false; }
    }
  }

  /** The unsorted groups, one for each key. */
  lemma GroupsByKey(names: Naming, rs: seq<Record>, d: Dimension)
    ensures var ks, all := GroupKeys(rs, KeyOf(names, d)), Groups(names, rs, d);
      |all| == |ks| && forall i | 0 <= i < |ks| :: all[i].identity.key == ks[i] && IsGroupOf(names, all[i], rs, d)
  {
    hide GroupIdentity, BucketOf, InGroup, GroupKeys, Sum, Values, Round4;
    var ks, all := GroupKeys(rs, KeyOf(names, d)), Groups(names, rs, d);
    forall i | 0 <= i < |ks| ensures all[i].identity.key == ks[i] && IsGroupOf(names, all[i], rs, d) {
      BucketOfGroup(names, rs, d, ks[i]);
    }
  }

  lemma KeyCount(rs: seq<Record>, key: Record -> string)
    ensures |GroupKeys(rs, key)| == |Values(rs, key)|
  {
    var ks := GroupKeys(rs, key);
    assert Values(rs, key) == set k | k in ks;
    ListSize(ks);
  }

  /** The report is sorted, has one group per key that occurs, and no key twice. */
  lemma ReportPartitions(names: Naming, rs: seq<Record>, d: Dimension)
    ensures var gs := Report(names, rs, d);
      && Sorted(gs)
      && |gs| == |Values(rs, KeyOf(names, d))|
      && (forall i, j | 0 <= i < j < |gs| :: gs[i].identity.key != gs[j].identity.key)
      && (forall g | g in gs :: IsGroupOf(names, g, rs, d))
      && (forall r | r in rs :: exists g :: g in gs && g.identity.key == GroupIdentity(names, r, d).key)
  {
    hide GroupIdentity, SortGroups, GroupKeys, Groups, IsGroupOf, Values, InOrder;
    var key := KeyOf(names, d);
    var ks, all, gs := GroupKeys(rs, key), Groups(names, rs, d), Report(names, rs, d);
    GroupsByKey(names, rs, d);
    SortedKeysDistinct(all, gs);
    KeyCount(rs, key);
    forall g | g in gs ensures IsGroupOf(names, g, rs, d) { var i :| 0 <= i < |all| && all[i] == g; }
    forall r | r in rs ensures exists g :: g in gs && g.identity.key == GroupIdentity(names, r, d).key {
      assert key(r) in ks;
      var i :| 0 <= i < |ks| && ks[i] == key(r);
      assert all[i] in multiset(gs);
    }
  }

  lemma {:induction false} ListSize(ks: seq<string>)
    requires forall i, j | 0 <= i < j < |ks| :: ks[i] != ks[j]
    ensures |set k | k in ks| == |ks|
  {
    if ks != [] {
      var n := |ks| - 1;
      ListSize(ks[..n]);
      assert ks == ks[..n] + [ks[n]];
      assert (set k | k in ks) == (set k | k in ks[..n]) + {ks[n]};
    }
  }

  /* ---- rounding ---- */

  const HALF_STEP := 0.00005

  function Abs(x: real): real {
    if x < 0.0 then -x else x
  }

  lemma Round4Near(x: real)
    ensures Abs(Round4(x) - x) <= HALF_STEP
  {
    var y := if x < 0.0 then -x else x;
    var n := (y * 10000.0 + 0.5).Floor as real;
    assert n <= y * 10000.0 + 0.5 < n + 1.0;
    assert -HALF_STEP <= n / 10000.0 - y <= HALF_STEP;
  }

  function SumCredits(gs: seq<Group>): real {
    if gs == [] then 0.0 else SumCredits(gs[..|gs| - 1]) + gs[|gs| - 1].credits
  }

  lemma {:induction false} RoundedSum(gs: seq<Group>)
    requires forall g | g in gs :: g.credits == Round4(g.m.credits)
    ensures Abs(SumCredits(gs) - SumGroups(gs).credits) <= |gs| as real * HALF_STEP
  {
    hide Round4;
    if gs != [] {
      var n := |gs| - 1;
      assert gs == gs[..n] + [gs[n]];
      RoundedSum(gs[..n]);
      Round4Near(gs[n].m.credits);
      assert |gs| as real * HALF_STEP == n as real * HALF_STEP + HALF_STEP;
    }
  }

  lemma GroupCreditsRounded(names: Naming, g: Group, rs: seq<Record>, d: Dimension)
    requires IsGroupOf(names, g, rs, d)
    ensures g.credits == Round4(g.m.credits)
  {
    hide Round4, Values, InGroup, GroupIdentity;
  }

  lemma TriangleBound(a: real, b: real, c: real, n: nat)
    requires Abs(a - b) <= n as real * HALF_STEP && Abs(c - b) <= HALF_STEP
    ensures Abs(a - c) <= (n + 1) as real * HALF_STEP
  {
    assert (n + 1) as real * HALF_STEP == n as real * HALF_STEP + HALF_STEP;
  }

  /** The four-decimal credits of k groups add up to the rounded total within k + 1 half steps. */
  lemma CreditsWithinBound(names: Naming, rs: seq<Record>, d: Dimension)
    ensures var gs := Report(names, rs, d);
      Abs(SumCredits(gs) - Totals(rs).credits) <= (|gs| + 1) as real * HALF_STEP
  {
    hide Round4, Report, Totals, IsGroupOf, Sorted, Values, Sum, SumGroups, SumCredits, Abs, HALF_STEP;
    var gs := Report(names, rs, d);
    ReportPartitions(names, rs, d);
    ReportConserves(names, rs, d);
    forall g | g in gs ensures g.credits == Round4(g.m.credits) { GroupCreditsRounded(names, g, rs, d); }
    RoundedSum(gs);
    TotalsCounts(rs);
    Round4Near(Sum(rs).credits);
    TriangleBound(SumCredits(gs), Sum(rs).credits, Totals(rs).credits, |gs|);
  }

  /* ---- distinct counts and order ---- */

  /** For these four dimensions the number of groups is the matching count of the totals. */
  lemma GroupCountsMatchTotals(names: Naming, rs: seq<Record>)
    ensures |Report(names, rs, Device)| == Totals(rs).deviceCount
    ensures |Report(names, rs, User)| == Totals(rs).userCount
    ensures |Report(names, rs, Tenant)| == Totals(rs).tenantCount
    ensures |Report(names, rs, Provider)| == Totals(rs).providerCount
  {
    hide Report, Totals, Values;
    CountMatches(names, rs, Device);
    CountMatches(names, rs, User);
    CountMatches(names, rs, Tenant);
    CountMatches(names, rs, Provider);
    TotalsCounts(rs);
  }

  /** The key that a dimension is counted by in a bucket. */
  function CountKey(d: Dimension): Record -> string {
    match d
    case Device => DeviceKey
    case User => UserKey
    case Agent => AgentCountKey
    case Tenant => TenantKey
    case Model => ModelName
    case Provider => ProviderKey
  }

  lemma TotalsCounts(rs: seq<Record>)
    ensures Totals(rs).deviceCount == |Values(rs, DeviceKey)| && Totals(rs).userCount == |Values(rs, UserKey)|
    ensures Totals(rs).agentCount == |Values(rs, AgentCountKey)| && Totals(rs).tenantCount == |Values(rs, TenantKey)|
    ensures Totals(rs).providerCount == |Values(rs, ProviderKey)| && Totals(rs).modelCount == |Values(rs, ModelName)|
    ensures Totals(rs).m == Sum(rs) && Totals(rs).credits == Round4(Sum(rs).credits)
  {
    hide AccumulateAll, Sum, Values, Round4, NewBucket;
    AccumulationCollects(TOTALS, rs);
  }

  lemma CountMatches(names: Naming, rs: seq<Record>, d: Dimension)
    requires d in {Device, User, Tenant, Provider}
    ensures |Report(names, rs, d)| == |Values(rs, CountKey(d))|
  {
    hide Report, DeviceKey, UserKey, TenantKey, ProviderKey, AgentCountKey, ModelName, IsGroupOf, Sorted;
    ReportPartitions(names, rs, d);
    assert forall r :: KeyOf(names, d)(r) == CountKey(d)(r);
    assert Values(rs, KeyOf(names, d)) == Values(rs, CountKey(d));
  }

  lemma PairValues(a: Record, b: Record, key: Record -> string)
    ensures |Values([a, b], key)| == if key(a) == key(b) then 1 else 2
  {
    assert Values([a, b], key) == {key(a), key(b)};
  }

  /** The report on all usage records has this many groups, and the totals this count of the dimension. */
  ghost predicate GroupsAndCount(names: Naming, parse: string -> Option<int>, rs: seq<Record>, d: Dimension,
      groups: nat, count: nat)
  {
    var mine := ForScope(parse, rs, "", NoBound, NoBound);
    |Report(names, mine, d)| == groups &&
      (if d == Agent then Totals(mine).agentCount else Totals(mine).modelCount) == count
  }

  const USAGE := Cell("ai_model_usage", None)

  lemma UsageInScope(parse: string -> Option<int>, rs: seq<Record>)
    requires forall r | r in rs :: "metric" in r && r["metric"] == USAGE
    ensures ForScope(parse, rs, "", NoBound, NoBound) == rs
  {
    forall r | r in rs ensures InScope(parse, "", None, None)(r) {
      assert FieldString(r, ["metric"], "") == "ai_model_usage";
    }
    SelectAll(rs, InScope(parse, "", None, None));
  }

  /**
  Agents are grouped by object id but counted by name: on usage records the group count can be larger or
  smaller.
  */
  lemma AgentCountsDiffer(names: Naming, parse: string -> Option<int>)
    ensures exists rs :: GroupsAndCount(names, parse, rs, Agent, 2, 1)
    ensures exists rs :: GroupsAndCount(names, parse, rs, Agent, 1, 2)
  {
    hide Groups, SortGroups, InGroup, Accumulate, Report, Totals, ForScope;
    var a, b, c := NamedObject("x", "n"), NamedObject("y", "n"), NamedObject("x", "m");
    AgentPair(names, a, b);
    AgentPair(names, a, c);
    NamedObjectKeys("x", "n");
    NamedObjectKeys("y", "n");
    NamedObjectKeys("x", "m");
    UsageInScope(parse, [a, b]);
    UsageInScope(parse, [a, c]);
    assert GroupsAndCount(names, parse, [a, b], Agent, 2, 1);
    assert GroupsAndCount(names, parse, [a, c], Agent, 1, 2);
  }

  /* When the two rules of a dimension give the same number. */

  /** The records of a list all come from a pool. */
  ghost predicate From(rs: seq<Record>, pool: iset<Record>) {
    forall r | r in rs :: r in pool
  }

  /** Two keys put the same records of a pool together. */
  ghost predicate SamePartition(pool: iset<Record>, g: Record -> string, c: Record -> string) {
    forall a, b | a in pool && b in pool :: g(a) == g(b) <==> c(a) == c(b)
  }

  lemma {:induction false} SamePartitionCounts(pool: iset<Record>, g: Record -> string, c: Record -> string,
      rs: seq<Record>)
    requires SamePartition(pool, g, c) && From(rs, pool)
    ensures |Values(rs, g)| == |Values(rs, c)|
  {
    hide Values;
    if rs == [] {
      NoValues();
      assert Values(rs, g) == {} && Values(rs, c) == {};
    } else {
      var front, r := rs[..|rs| - 1], rs[|rs| - 1];
      assert rs == front + [r];
      SamePartitionCounts(pool, g, c, front);
      assert From(front, pool);
      ValuesStep(front, r, g);
      ValuesStep(front, r, c);
      AddedSize(Values(front, g), g(r));
      AddedSize(Values(front, c), c(r));
      HasValue(front, g, r);
      HasValue(front, c, r);
    }
  }

  lemma AddedSize(s: set<string>, x: string)
    ensures |s + {x}| == |s| + if x in s then 0 else 1
  {
    if x in s { assert s + {x} == s; }
  }

  lemma HasValue(rs: seq<Record>, key: Record -> string, r: Record)
    ensures key(r) in Values(rs, key) <==> exists x :: x in rs && key(x) == key(r)
  {}

  /** Every list from a pool has equally many values of two keys exactly when the keys agree pair by pair. */
  lemma CountsAgreeExactly(pool: iset<Record>, g: Record -> string, c: Record -> string)
    ensures (forall rs | From(rs, pool) :: |Values(rs, g)| == |Values(rs, c)|) <==> SamePartition(pool, g, c)
  {
    hide Values;
    if SamePartition(pool, g, c) {
      forall rs | From(rs, pool) ensures |Values(rs, g)| == |Values(rs, c)| { SamePartitionCounts(pool, g, c, rs); }
    } else {
      var a, b :| a in pool && b in pool && !(g(a) == g(b) <==> c(a) == c(b));
      assert From([a, b], pool);
      PairValues(a, b, g);
      PairValues(a, b, c);
    }
  }

  /**
  For every report on records of a pool the number of agent groups is the agent count, exactly when
  any two of its records share their grouping key just when they share their counting key.
  */
  lemma AgentCountsAgreeExactly(names: Naming, pool: iset<Record>)
    ensures (forall rs | From(rs, pool) :: |Report(names, rs, Agent)| == Totals(rs).agentCount) <==>
      SamePartition(pool, AgentGroupKey, AgentCountKey)
  {
    hide Report, Totals, Values, From, AgentGroupKey, AgentCountKey, IsGroupOf, Sorted, SamePartition;
    forall rs
      ensures |Report(names, rs, Agent)| == |Values(rs, AgentGroupKey)|
      ensures Totals(rs).agentCount == |Values(rs, AgentCountKey)|
    {
      ReportPartitions(names, rs, Agent);
      TotalsCounts(rs);
      ValuesSame(rs, KeyOf(names, Agent), AgentGroupKey);
    }
    CountsAgreeExactly(pool, AgentGroupKey, AgentCountKey);
  }

  function ModelGroupKey(r: Record): string { ProviderKey(r) + "::" + ModelName(r) }

  /** So for models, with provider and model joined against the model name alone. */
  lemma ModelCountsAgreeExactly(names: Naming, pool: iset<Record>)
    ensures (forall rs | From(rs, pool) :: |Report(names, rs, Model)| == Totals(rs).modelCount) <==>
      SamePartition(pool, ModelGroupKey, ModelName)
  {
    hide Report, Totals, Values, From, ProviderKey, ModelName, IsGroupOf, Sorted, SamePartition;
    forall rs
      ensures |Report(names, rs, Model)| == |Values(rs, ModelGroupKey)|
      ensures Totals(rs).modelCount == |Values(rs, ModelName)|
    {
      ReportPartitions(names, rs, Model);
      TotalsCounts(rs);
      ValuesSame(rs, KeyOf(names, Model), ModelGroupKey);
    }
    CountsAgreeExactly(pool, ModelGroupKey, ModelName);
  }

  /** The records of a pool that a report over a scope takes up. */
  ghost function Scoped(pool: iset<Record>, parse: string -> Option<int>, tenant: string, from: Bound,
      to: Bound): iset<Record>
  {
    iset r | r in pool && InScope(parse, tenant, BoundMs(from, false), BoundMs(to, true))(r)
  }

  /** The scopes of lists from a pool are the lists from its scoped part. */
  lemma ScopedLists(pool: iset<Record>, parse: string -> Option<int>, tenant: string, from: Bound, to: Bound,
      rs: seq<Record>)
    ensures From(rs, pool) ==> From(ForScope(parse, rs, tenant, from, to), Scoped(pool, parse, tenant, from, to))
    ensures From(rs, Scoped(pool, parse, tenant, from, to)) ==>
      ForScope(parse, rs, tenant, from, to) == rs && From(rs, pool)
  {
    hide InScope, Select;
    var p := InScope(parse, tenant, BoundMs(from, false), BoundMs(to, true));
    SelectSome(rs, p);
    if From(rs, Scoped(pool, parse, tenant, from, to)) { SelectAll(rs, p); }
  }

  /** On every report over a scope, the same holds for the records of the pool that are in scope. */
  lemma AgentCountsAgreeInScope(names: Naming, pool: iset<Record>, parse: string -> Option<int>, tenant: string,
      from: Bound, to: Bound)
    ensures (forall rs | From(rs, pool) :: var mine := ForScope(parse, rs, tenant, from, to);
        |Report(names, mine, Agent)| == Totals(mine).agentCount) <==>
      SamePartition(Scoped(pool, parse, tenant, from, to), AgentGroupKey, AgentCountKey)
  {
    hide Report, Totals, From, SamePartition, AgentGroupKey, AgentCountKey, ForScope, Scoped;
    forall rs { ScopedLists(pool, parse, tenant, from, to, rs); }
    AgentCountsAgreeExactly(names, Scoped(pool, parse, tenant, from, to));
  }

  lemma ModelCountsAgreeInScope(names: Naming, pool: iset<Record>, parse: string -> Option<int>, tenant: string,
      from: Bound, to: Bound)
    ensures (forall rs | From(rs, pool) :: var mine := ForScope(parse, rs, tenant, from, to);
        |Report(names, mine, Model)| == Totals(mine).modelCount) <==>
      SamePartition(Scoped(pool, parse, tenant, from, to), ModelGroupKey, ModelName)
  {
    hide Report, Totals, From, SamePartition, ModelGroupKey, ModelName, ForScope, Scoped;
    forall rs { ScopedLists(pool, parse, tenant, from, to, rs); }
    ModelCountsAgreeExactly(names, Scoped(pool, parse, tenant, from, to));
  }

  lemma ValuesSame(rs: seq<Record>, g: Record -> string, c: Record -> string)
    requires forall r :: g(r) == c(r)
    ensures Values(rs, g) == Values(rs, c)
  {}

  function NamedObject(id: string, name: string): Record {
    map["metric" := USAGE, "object_id" := Cell(id, None), "agent_name" := Cell(name, None)]
  }

  lemma NamedObjectKeys(id: string, name: string)
    ensures AgentGroupKey(NamedObject(id, name)) == id && AgentCountKey(NamedObject(id, name)) == name
  {
    var r := NamedObject(id, name);
    assert "agent_id" !in r && "entity_id" !in r;
    assert FieldString(r, ["agent_id", "entity_id", "object_id"], "") == FieldString(r, ["entity_id", "object_id"], "");
    FieldSkip(r, "agent_id", ["entity_id", "object_id"], FieldString(r, ["agent_name", "name"], "unknown-agent"));
    FieldSkip(r, "entity_id", ["object_id"], FieldString(r, ["agent_name", "name"], "unknown-agent"));
    FieldSkip(r, "agent_id", ["entity_id"], FieldString(r, ["agent_name"], "unknown-agent"));
    FieldSkip(r, "entity_id", [], FieldString(r, ["agent_name"], "unknown-agent"));
  }

  lemma FieldSkip(r: Record, k: string, ks: seq<string>, fallback: string)
    requires k !in r
    ensures FieldString(r, [k] + ks, fallback) == FieldString(r, ks, fallback)
  {
    assert ([k] + ks)[1..] == ks;
  }

  lemma AgentPair(names: Naming, a: Record, b: Record)
    ensures |Report(names, [a, b], Agent)| == if AgentGroupKey(a) == AgentGroupKey(b) then 1 else 2
    ensures Totals([a, b]).agentCount == if AgentCountKey(a) == AgentCountKey(b) then 1 else 2
  {
    hide Report, Totals, Values, AgentGroupKey, AgentCountKey, IsGroupOf, Sorted;
    ReportPartitions(names, [a, b], Agent);
    TotalsCounts([a, b]);
    PairValues(a, b, KeyOf(names, Agent));
    PairValues(a, b, AgentCountKey);
  }

  function ModelUsage(provider: string, model: string): Record {
    map["metric" := USAGE, "provider" := Cell(provider, None), "model" := Cell(model, None)]
  }

  lemma ModelUsageKeys(provider: string, model: string)
    ensures ModelKeys(ModelUsage(provider, model)) == (provider, model)
  {}

  /**
  Model groups are keyed by provider and model joined with "::", which can merge distinct models of usage
  records.
  */
  lemma ModelCountsDiffer(names: Naming, parse: string -> Option<int>)
    ensures exists rs :: GroupsAndCount(names, parse, rs, Model, 2, 1)
    ensures exists rs :: GroupsAndCount(names, parse, rs, Model, 1, 2)
  {
    hide Groups, SortGroups, InGroup, Accumulate, Report, Totals, ForScope, ProviderKey, ModelName;
    var a, b, c, d := ModelUsage("p", "m"), ModelUsage("q", "m"), ModelUsage("p::m", "n"), ModelUsage("p", "m::n");
    ModelUsageKeys("p", "m");
    ModelUsageKeys("q", "m");
    ModelUsageKeys("p::m", "n");
    ModelUsageKeys("p", "m::n");
    assert "p" + "::" + "m" != "q" + "::" + "m" by { assert ("p" + "::" + "m")[0] != ("q" + "::" + "m")[0]; }
    assert "p::m" + "::" + "n" == "p" + "::" + "m::n";
    ModelPair(names, a, b);
    ModelPair(names, c, d);
    UsageInScope(parse, [a, b]);
    UsageInScope(parse, [c, d]);
    assert GroupsAndCount(names, parse, [a, b], Model, 2, 1);
    assert GroupsAndCount(names, parse, [c, d], Model, 1, 2);
  }

  function ModelKeys(r: Record): (string, string) {
    (ProviderKey(r), ModelName(r))
  }

  lemma ModelPair(names: Naming, a: Record, b: Record)
    ensures |Report(names, [a, b], Model)| ==
      if ProviderKey(a) + "::" + ModelName(a) == ProviderKey(b) + "::" + ModelName(b) then 1 else 2
    ensures Totals([a, b]).modelCount == if ModelName(a) == ModelName(b) then 1 else 2
  {
    hide Report, Totals, Values, ProviderKey, ModelName, IsGroupOf, Sorted;
    ReportPartitions(names, [a, b], Model);
    TotalsCounts([a, b]);
    PairValues(a, b, KeyOf(names, Model));
    PairValues(a, b, ModelName);
  }

  lemma {:induction false} SumWithout(rs: seq<Record>, i: nat)
    requires i < |rs|
    ensures Sum(rs) == Sum(rs[..i] + rs[i + 1..]).Plus(MeasuresOf(rs[i]))
  {
    hide MeasuresOf, Measures.Plus;
    var n := |rs| - 1;
    if i == n {
      assert rs[..i] + rs[i + 1..] == rs[..n];
    } else {
      SumWithout(rs[..n], i);
      var rest := rs[..i] + rs[i + 1..];
      var inner := rs[..n][..i] + rs[..n][i + 1..];
      assert rest[..|rest| - 1] == inner && rest[|rest| - 1] == rs[n];
      PlusSwap(Sum(inner), MeasuresOf(rs[i]), MeasuresOf(rs[n]));
    }
  }

  lemma Removed(b: seq<Record>, i: nat)
    requires i < |b|
    ensures multiset(b[..i] + b[i + 1..]) == multiset(b) - multiset{b[i]}
  {
    assert b == b[..i] + [b[i]] + b[i + 1..];
  }

  /** Sums do not depend on the order of the records. */
  lemma {:induction false} SumOrderFree(a: seq<Record>, b: seq<Record>)
    requires multiset(a) == multiset(b)
    ensures Sum(a) == Sum(b)
  {
    hide MeasuresOf, Measures.Plus;
    assert |multiset(a)| == |multiset(b)|;
    if a != [] {
      var n := |a| - 1;
      assert a[n] in multiset(b);
      var i :| 0 <= i < |b| && b[i] == a[n];
      Removed(a, n);
      Removed(b, i);
      assert a[..n] + a[n + 1..] == a[..n];
      SumOrderFree(a[..n], b[..i] + b[i + 1..]);
      SumWithout(b, i);
    }
  }

  lemma ValuesOrderFree(a: seq<Record>, b: seq<Record>, key: Record -> string)
    requires multiset(a) == multiset(b)
    ensures Values(a, key) == Values(b, key)
  {
    assert forall r :: r in a <==> r in b by {
      forall r ensures r in a <==> r in b { assert r in a <==> r in multiset(a); assert r in b <==> r in multiset(b); }
    }
  }

  lemma SameRecords(a: seq<Record>, b: seq<Record>)
    requires multiset(a) == multiset(b)
    ensures forall r :: r in a <==> r in b
  {
    forall r ensures r in a <==> r in b { assert r in a <==> r in multiset(a); assert r in b <==> r in multiset(b); }
  }

  /** The records of one group are the same for any order of all records. */
  lemma InGroupOrderFree(a: seq<Record>, b: seq<Record>, key: Record -> string, k: string)
    requires multiset(a) == multiset(b)
    ensures multiset(InGroup(a, key, k)) == multiset(InGroup(b, key, k))
  {
    hide Select;
    forall x ensures multiset(InGroup(a, key, k))[x] == multiset(InGroup(b, key, k))[x] {
      SelectCount(a, HasKey(key, k), x);
      SelectCount(b, HasKey(key, k), x);
    }
  }

  /** Everything a group shows but the label, which comes from its first record. */
  ghost predicate SameFigures(g: Group, h: Group) {
    g.identity.key == h.identity.key && g.(identity := h.identity) == h
  }

  /** A group of one record order shows the figures of its group in any other order. */
  lemma FiguresOrderFree(names: Naming, a: seq<Record>, b: seq<Record>, d: Dimension, g: Group, h: Group)
    requires multiset(a) == multiset(b)
    requires IsGroupOf(names, g, a, d) && IsGroupOf(names, h, b, d) && g.identity.key == h.identity.key
    ensures SameFigures(g, h)
  {
    hide InGroup, Sum, Values, IsLatest, GroupIdentity, Round4, PoolOf, DeviceKey, UserKey, TenantKey, ProviderKey,
      AgentCountKey, ModelName;
    var x, y := InGroup(a, KeyOf(names, d), g.identity.key), InGroup(b, KeyOf(names, d), g.identity.key);
    InGroupOrderFree(a, b, KeyOf(names, d), g.identity.key);
    SumOrderFree(x, y);
    SameRecords(x, y);
    LatestUnique(g.lastActivity, h.lastActivity, x, y);
    ValuesOrderFree(x, y, DeviceKey);
    ValuesOrderFree(x, y, UserKey);
    ValuesOrderFree(x, y, AgentCountKey);
    ValuesOrderFree(x, y, TenantKey);
    ValuesOrderFree(x, y, ProviderKey);
    ValuesOrderFree(x, y, ModelName);
    ValuesOrderFree(x, y, PoolOf);
  }

  lemma TotalsOrderFree(a: seq<Record>, b: seq<Record>)
    requires multiset(a) == multiset(b)
    ensures Totals(a) == Totals(b)
  {
    hide AccumulateAll, Sum, Values, Round4, NewBucket, IsLatest, PoolOf;
    AccumulationCollects(TOTALS, a);
    AccumulationCollects(TOTALS, b);
    SumOrderFree(a, b);
    SameRecords(a, b);
    LatestUnique(Totals(a).lastActivity, Totals(b).lastActivity, a, b);
    ValuesOrderFree(a, b, DeviceKey);
    ValuesOrderFree(a, b, UserKey);
    ValuesOrderFree(a, b, AgentCountKey);
    ValuesOrderFree(a, b, TenantKey);
    ValuesOrderFree(a, b, ProviderKey);
    ValuesOrderFree(a, b, ModelName);
    ValuesOrderFree(a, b, PoolOf);
  }

  /**
  For any order of the records the totals are the same, and so is every group but for its label:
  sums, credits, pools, distinct counts and last activity.
  */
  lemma OrderDoesNotMatter(names: Naming, a: seq<Record>, b: seq<Record>, d: Dimension)
    requires multiset(a) == multiset(b)
    ensures Totals(a) == Totals(b)
    ensures |Report(names, a, d)| == |Report(names, b, d)|
    ensures forall g | g in Report(names, a, d) :: exists h :: h in Report(names, b, d) && SameFigures(g, h)
  {
    hide Report, Values, IsGroupOf, Sorted, GroupIdentity, SameFigures, Totals;
    TotalsOrderFree(a, b);
    ReportPartitions(names, a, d);
    ReportPartitions(names, b, d);
    SameRecords(a, b);
    ValuesOrderFree(a, b, KeyOf(names, d));
    forall g | g in Report(names, a, d) ensures exists h :: h in Report(names, b, d) && SameFigures(g, h) {
      var r := RecordOf(names, g, a, d);
      var h :| h in Report(names, b, d) && h.identity.key == GroupIdentity(names, r, d).key;
      FiguresOrderFree(names, a, b, d, g, h);
    }
  }

  lemma RecordOf(names: Naming, g: Group, rs: seq<Record>, d: Dimension) returns (r: Record)
    requires IsGroupOf(names, g, rs, d)
    ensures r in rs && GroupIdentity(names, r, d).key == g.identity.key
  {
    hide GroupIdentity, Select, Values, Sum, Round4, IsLatest;
    SelectSome(rs, HasKey(KeyOf(names, d), g.identity.key));
    r := InGroup(rs, KeyOf(names, d), g.identity.key)[0];
  }

  /* ---- adjacent windows ---- */

  /** A dated record of days a to c is in exactly one of the windows a to b and b+1 to c; an undated one in none. */
  lemma WindowsSplit(parse: string -> Option<int>, r: Record, a: int, b: int, c: int)
    requires a <= b + 1 <= c + 1
    ensures var first := Within(parse, r, BoundMs(DayBound(a), false), BoundMs(DayBound(b), true));
      var second := Within(parse, r, BoundMs(DayBound(b + 1), false), BoundMs(DayBound(c), true));
      var whole := Within(parse, r, BoundMs(DayBound(a), false), BoundMs(DayBound(c), true));
      (whole <==> first || second) && !(first && second) && (Stamp(parse, r).None? ==> !whole)
  {
    hide Stamp;
  }

  /** Two filters together select what either selects, and what both select a second time. */
  lemma {:induction false} SelectOverlap(rs: seq<Record>, p: Record -> bool, q: Record -> bool, either: Record -> bool,
      both: Record -> bool)
    requires forall r | r in rs :: (either(r) <==> p(r) || q(r)) && (both(r) <==> p(r) && q(r))
    ensures Sum(Select(rs, p)).Plus(Sum(Select(rs, q))) == Sum(Select(rs, either)).Plus(Sum(Select(rs, both)))
    ensures |Select(rs, p)| + |Select(rs, q)| == |Select(rs, either)| + |Select(rs, both)|
  {
    hide MeasuresOf, Measures.Plus, Sum;
    if rs != [] {
      var front, r := rs[..|rs| - 1], rs[|rs| - 1];
      assert rs == front + [r];
      SelectOverlap(front, p, q, either, both);
      var x, y, z := Sum(Select(front, p)), Sum(Select(front, q)), MeasuresOf(r);
      var v, w := Sum(Select(front, either)), Sum(Select(front, both));
      SumMore(Select(front, p), r);
      SumMore(Select(front, q), r);
      SumMore(Select(front, either), r);
      SumMore(Select(front, both), r);
      PlusSwap(x, z, y);
      PlusSwap(v, z, w);
      PlusAssociates(x, y, z);
      PlusAssociates(v, w, z);
      PlusAssociates(x.Plus(z), y, z);
      PlusAssociates(v.Plus(z), w, z);
    }
  }

  lemma SumNone()
    ensures Sum([]) == ZERO
  {
  }

  /** A record is in the overlap of two windows exactly when it is in both, and in their union when in either. */
  lemma WindowsMeet(parse: string -> Option<int>, r: Record, tenant: string, lo: Option<int>, upto: int, since: int,
      hi: Option<int>)
    requires since <= upto + 1 && (lo.Some? || hi.Some?)
    requires (lo.Some? ==> lo.value <= since) && (hi.Some? ==> upto <= hi.value)
    ensures var p, q := InScope(parse, tenant, lo, Some(upto)), InScope(parse, tenant, Some(since), hi);
      && (InScope(parse, tenant, lo, hi)(r) <==> p(r) || q(r))
      && (InScope(parse, tenant, Some(since), Some(upto))(r) <==> p(r) && q(r))
  {
    hide Stamp, IsCostToken;
  }

  /** The end of a first window and the start of a second leave no instant of the whole uncovered. */
  predicate Meeting(from: Bound, upto: Bound, since: Bound, to: Bound) {
    var lo, end, start, hi := BoundMs(from, false), BoundMs(upto, true), BoundMs(since, false), BoundMs(to, true);
    && end.Some? && start.Some? && (lo.Some? || hi.Some?) && start.value <= end.value + 1
    && (lo.Some? ==> lo.value <= start.value) && (hi.Some? ==> end.value <= hi.value)
  }

  /**
  Two meeting windows, with dates or instants as bounds: their totals are the totals of the whole and,
  once more, those of the records in the overlap; so they add up exactly when the overlap has none.
  */
  lemma MeetingWindowsAdd(parse: string -> Option<int>, rs: seq<Record>, tenant: string, from: Bound, upto: Bound,
      since: Bound, to: Bound)
    requires Meeting(from, upto, since, to)
    ensures var first, second := ForScope(parse, rs, tenant, from, upto), ForScope(parse, rs, tenant, since, to);
      var whole, overlap := ForScope(parse, rs, tenant, from, to), ForScope(parse, rs, tenant, since, upto);
      && Totals(first).m.Plus(Totals(second).m) == Totals(whole).m.Plus(Totals(overlap).m)
      && |first| + |second| == |whole| + |overlap|
      && (Totals(first).m.Plus(Totals(second).m) == Totals(whole).m <==> overlap == [])
  {
    hide InScope, Select, Totals, Sum;
    var lo, end, start, hi := BoundMs(from, false), BoundMs(upto, true), BoundMs(since, false), BoundMs(to, true);
    forall r { WindowsMeet(parse, r, tenant, lo, end.value, start.value, hi); }
    SelectOverlap(rs, InScope(parse, tenant, lo, end), InScope(parse, tenant, start, hi),
      InScope(parse, tenant, lo, hi), InScope(parse, tenant, start, end));
    TotalsCounts(ForScope(parse, rs, tenant, from, upto));
    TotalsCounts(ForScope(parse, rs, tenant, since, to));
    TotalsCounts(ForScope(parse, rs, tenant, from, to));
    var overlap := ForScope(parse, rs, tenant, since, upto);
    TotalsCounts(overlap);
    EveryRecordCounted(overlap);
    SumNone();
    PlusZero(Totals(ForScope(parse, rs, tenant, from, to)).m);
  }

  /** The totals of two adjacent date windows add up to the totals of the window they form. */
  lemma AdjacentWindowsAdd(parse: string -> Option<int>, rs: seq<Record>, tenant: string, a: int, b: int, c: int)
    requires a <= b + 1 <= c + 1
    ensures var first := ForScope(parse, rs, tenant, DayBound(a), DayBound(b));
      var second := ForScope(parse, rs, tenant, DayBound(b + 1), DayBound(c));
      var whole := ForScope(parse, rs, tenant, DayBound(a), DayBound(c));
      |whole| == |first| + |second| && Totals(whole).m == Totals(first).m.Plus(Totals(second).m)
  {
    hide ForScope, Totals;
    MeetingWindowsAdd(parse, rs, tenant, DayBound(a), DayBound(b), DayBound(b + 1), DayBound(c));
    NoneBetween(parse, rs, tenant, b);
  }

  lemma {:induction false} NoneBetween(parse: string -> Option<int>, rs: seq<Record>, tenant: string, b: int)
    ensures ForScope(parse, rs, tenant, DayBound(b + 1), DayBound(b)) == []
  {
    hide Select, Stamp, IsCostToken;
    SelectSome(rs, InScope(parse, tenant, Some((b + 1) * DAY), Some(b * DAY + DAY - 1)));
  }

  /**
  With an instant as the shared bound, the records stamped at it are counted twice: the totals add
  up exactly when no record in scope has that stamp.
  */
  lemma InstantWindowsAdd(parse: string -> Option<int>, rs: seq<Record>, tenant: string, a: int, m: int, c: int)
    requires a <= m <= c
    ensures var first := ForScope(parse, rs, tenant, InstantBound(a), InstantBound(m));
      var second := ForScope(parse, rs, tenant, InstantBound(m), InstantBound(c));
      var whole, twice := ForScope(parse, rs, tenant, InstantBound(a), InstantBound(c)),
        Select(rs, StampedAt(parse, tenant, m));
      && Totals(first).m.Plus(Totals(second).m) == Totals(whole).m.Plus(Totals(twice).m)
      && (Totals(first).m.Plus(Totals(second).m) == Totals(whole).m <==>
        forall r | r in rs :: !StampedAt(parse, tenant, m)(r))
  {
    hide Totals, Stamp, IsCostToken, Select;
    MeetingWindowsAdd(parse, rs, tenant, InstantBound(a), InstantBound(m), InstantBound(m), InstantBound(c));
    SelectSame(rs, InScope(parse, tenant, Some(m), Some(m)), StampedAt(parse, tenant, m));
    SelectSome(rs, StampedAt(parse, tenant, m));
  }

  /** A cost or token record of the tenant stamped at an instant. */
  function StampedAt(parse: string -> Option<int>, tenant: string, m: int): Record -> bool {
    (r: Record) =>
      IsCostToken(r) && (tenant == "" || ("tenant_id" in r && r["tenant_id"].text == tenant)) &&
        Stamp(parse, r) == Some(m)
  }

  lemma {:induction false} SelectSame(rs: seq<Record>, p: Record -> bool, q: Record -> bool)
    requires forall r :: p(r) == q(r)
    ensures Select(rs, p) == Select(rs, q)
  {
    if rs != [] { SelectSame(rs[..|rs| - 1], p, q); }
  }

  /** A window that includes the stamp of a usage record selects it. */
  lemma OneInWindow(parse: string -> Option<int>, r: Record, from: int, m: int, to: int)
    requires IsCostToken(r) && Stamp(parse, r) == Some(m) && from <= m <= to
    ensures ForScope(parse, [r], "", InstantBound(from), InstantBound(to)) == [r]
  {
    hide IsCostToken, Stamp, Select;
    SelectAll([r], InScope(parse, "", Some(from), Some(to)));
  }

  function UsageAt(stamp: string): Record {
    map["metric" := USAGE, "observed_at" := Cell(stamp, None)]
  }

  lemma UsageStamped(parse: string -> Option<int>, stamp: string)
    requires stamp != ""
    ensures IsCostToken(UsageAt(stamp)) && Stamp(parse, UsageAt(stamp)) == parse(stamp)
  {
    assert FieldString(UsageAt(stamp), ["metric"], "") == "ai_model_usage";
    assert FieldString(UsageAt(stamp), ["observed_at", "recorded_at", "occurred_at"], "") == stamp;
  }

  /** One usage record stamped at the shared instant: each window has it, and so has the whole, once. */
  lemma InstantCountsTwice(parse: string -> Option<int>, stamp: string, a: int, m: int, c: int)
    requires stamp != "" && parse(stamp) == Some(m) && a <= m <= c
    ensures var rs := [UsageAt(stamp)];
      var first := ForScope(parse, rs, "", InstantBound(a), InstantBound(m));
      var second := ForScope(parse, rs, "", InstantBound(m), InstantBound(c));
      var whole := ForScope(parse, rs, "", InstantBound(a), InstantBound(c));
      first == second == whole == rs && Totals(first).m.Plus(Totals(second).m) != Totals(whole).m
  {
    hide Totals, IsCostToken, Stamp, UsageAt, ForScope;
    var r := UsageAt(stamp);
    UsageStamped(parse, stamp);
    OneInWindow(parse, r, a, m, m);
    OneInWindow(parse, r, m, m, c);
    OneInWindow(parse, r, a, m, c);
    InstantWindowsAdd(parse, [r], "", a, m, c);
    assert StampedAt(parse, "", m)(r);
  }
}
