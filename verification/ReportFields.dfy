/**
What a report says in terms of the fields of its records: which field each figure, key and label is read
from, what a scope takes up, the order of the groups, and the rounding of credits.
*/
module ReportFields {
  import opened Lists
  import opened Options
  import opened Reports
  import opened ReportTheorems
  import Text

  /* ---- fields ---- */

  predicate HasNumber(r: Record, k: string) {
    k in r && r[k].number != None
  }

  /** The first listed field that has a finite number. */
  predicate FirstNumber(r: Record, keys: seq<string>, i: nat) {
    i < |keys| && HasNumber(r, keys[i]) && forall j | 0 <= j < i :: !HasNumber(r, keys[j])
  }

  /** Its number, or zero when there is none. */
  ghost predicate NumberIs(r: Record, keys: seq<string>, x: real) {
    || (exists i: nat :: FirstNumber(r, keys, i) && r[keys[i]].number == Some(x))
    || (x == 0.0 && forall i | 0 <= i < |keys| :: !HasNumber(r, keys[i]))
  }

  /** The first listed field that is present. */
  predicate FirstPresent(r: Record, keys: seq<string>, i: nat) {
    i < |keys| && keys[i] in r && forall j | 0 <= j < i :: keys[j] !in r
  }

  predicate PresentText(r: Record, keys: seq<string>, i: nat, t: string) {
    FirstPresent(r, keys, i) && r[keys[i]].text == t
  }

  /** Its text, or the fallback. */
  ghost predicate TextIs(r: Record, keys: seq<string>, fallback: string, t: string) {
    || (exists i: nat :: PresentText(r, keys, i, t))
    || (t == fallback && forall i | 0 <= i < |keys| :: keys[i] !in r)
  }

  predicate OccursAt(part: string, s: string, i: nat) {
    i + |part| <= |s| && s[i..i + |part|] == part
  }

  ghost predicate Occurs(part: string, s: string) {
    exists i: nat :: OccursAt(part, s, i)
  }

  lemma {:induction false} FieldNumberIs(r: Record, keys: seq<string>)
    ensures NumberIs(r, keys, FieldNumber(r, keys))
  {
    if keys != [] {
      var rest := keys[1..];
      FieldNumberIs(r, rest);
      assert forall j | 0 < j < |keys| :: keys[j] == rest[j - 1];
      if HasNumber(r, keys[0]) {
        assert FirstNumber(r, keys, 0);
      } else if i: nat :| FirstNumber(r, rest, i) && r[rest[i]].number == Some(FieldNumber(r, rest)) {
        assert FirstNumber(r, keys, i + 1);
      }
    }
  }

  lemma {:induction false} FieldStringIs(r: Record, keys: seq<string>, fallback: string)
    ensures TextIs(r, keys, fallback, FieldString(r, keys, fallback))
  {
    if keys != [] {
      var rest := keys[1..];
      FieldStringIs(r, rest, fallback);
      assert forall j | 0 < j < |keys| :: keys[j] == rest[j - 1];
      if keys[0] in r {
        assert PresentText(r, keys, 0, FieldString(r, keys, fallback));
      } else if i: nat :| PresentText(r, rest, i, FieldString(r, rest, fallback)) {
        assert PresentText(r, keys, i + 1, FieldString(r, keys, fallback));
      }
    }
  }

  lemma OccursStep(part: string, s: string, i: nat)
    requires s != "" && i > 0
    ensures OccursAt(part, s, i) <==> OccursAt(part, s[1..], i - 1)
  {
    if i + |part| <= |s| { assert s[1..][i - 1..i - 1 + |part|] == s[i..i + |part|]; }
  }

  lemma {:induction false} ContainsIs(s: string, part: string)
    ensures Contains(s, part) <==> Occurs(part, s)
  {
    assert OccursAt(part, s, 0) <==> |part| <= |s| && s[..|part|] == part;
    if s != "" {
      ContainsIs(s[1..], part);
      forall i: nat | i > 0 ensures OccursAt(part, s, i) <==> OccursAt(part, s[1..], i - 1) { OccursStep(part, s, i); }
      if i: nat :| OccursAt(part, s[1..], i) { assert OccursAt(part, s, i + 1); }
    }
  }

  /** Two lists of fields one after the other. */
  lemma FallThrough(r: Record, keys: seq<string>, more: seq<string>, fallback: string, inner: string, t: string)
    requires TextIs(r, more, fallback, inner) && TextIs(r, keys, inner, t)
    ensures TextIs(r, keys + more, fallback, t)
  {
    var all := keys + more;
    assert forall i | 0 <= i < |keys| :: all[i] == keys[i];
    assert forall i | 0 <= i < |more| :: all[|keys| + i] == more[i];
    if i: nat :| PresentText(r, keys, i, t) {
      assert PresentText(r, all, i, t);
    } else if i: nat :| PresentText(r, more, i, inner) {
      assert PresentText(r, all, |keys| + i, t);
    }
  }

  /* ---- figures ---- */

  /** What one record adds to the figures. */
  ghost predicate FiguresOf(r: Record, m: Measures) {
    && NumberIs(r, ["input_tokens", "prompt_tokens"], m.input)
    && NumberIs(r, ["output_tokens", "completion_tokens"], m.output)
    && NumberIs(r, ["cached_input_tokens"], m.cached)
    && (exists stated :: NumberIs(r, ["total_tokens", "tokens"], stated) &&
          m.total == if stated != 0.0 then stated else m.input + m.output)
    && NumberIs(r, ["allocated_cost_cents", "estimated_cost_cents", "cost_cents", "amount_cents"], m.cost)
    && NumberIs(r, ["billed_credits", "credits", "credit_units"], m.credits)
    && NumberIs(r, ["call_count", "calls", "request_count"], m.calls)
    && m.records == 1 && m.reported + m.estimated == 1
    && (exists t :: TextIs(r, ["confidence", "source"], "reported", t) && (m.estimated == 1 <==> Occurs("estimate", t)))
  }

  lemma MeasuresFigures(r: Record)
    ensures FiguresOf(r, MeasuresOf(r))
  {
    hide NumberIs, TextIs, Occurs;
    FieldNumberIs(r, ["input_tokens", "prompt_tokens"]);
    FieldNumberIs(r, ["output_tokens", "completion_tokens"]);
    FieldNumberIs(r, ["cached_input_tokens"]);
    FieldNumberIs(r, ["total_tokens", "tokens"]);
    FieldNumberIs(r, ["allocated_cost_cents", "estimated_cost_cents", "cost_cents", "amount_cents"]);
    FieldNumberIs(r, ["billed_credits", "credits", "credit_units"]);
    FieldNumberIs(r, ["call_count", "calls", "request_count"]);
    FieldStringIs(r, ["confidence", "source"], "reported");
    hide FieldNumber, FieldString, Contains;
    ContainsIs(FieldString(r, ["confidence", "source"], "reported"), "estimate");
  }

  /** The totals of one record are the figures of its fields. */
  lemma OneRecord(r: Record)
    ensures FiguresOf(r, Totals([r]).m)
  {
    hide MeasuresOf, FiguresOf, Totals;
    MeasuresFigures(r);
    TotalsCounts([r]);
    assert [r][..0] == [];
    assert Sum([r]) == Sum([]).Plus(MeasuresOf(r));
    PlusZero(MeasuresOf(r));
  }

  /** Nothing adds up to nothing; and one more record adds its figures, each to its own total. */
  lemma TotalsAddUp(rs: seq<Record>, r: Record)
    ensures Totals([]).m == Measures(0.0, 0.0, 0.0, 0.0, 0.0, 0.0, 0.0, 0, 0, 0)
    ensures var x, y, z := Totals(rs).m, Totals([r]).m, Totals(rs + [r]).m;
      && z.input == x.input + y.input && z.output == x.output + y.output && z.cached == x.cached + y.cached
      && z.total == x.total + y.total && z.cost == x.cost + y.cost && z.credits == x.credits + y.credits
      && z.calls == x.calls + y.calls && z.records == x.records + y.records
      && z.reported == x.reported + y.reported && z.estimated == x.estimated + y.estimated
  {
    hide MeasuresOf, Totals;
    TotalsCounts([]);
    TotalsCounts(rs);
    TotalsCounts([r]);
    TotalsCounts(rs + [r]);
    assert (rs + [r])[..|rs|] == rs && [r][..0] == [];
  }

  /** A group of a report shows the totals of the records with its key, under its first record's identity. */
  lemma GroupShowsTotals(names: Naming, rs: seq<Record>, d: Dimension, g: Group)
    requires g in Report(names, rs, d)
    ensures var mine := Select(rs, (r: Record) => GroupIdentity(names, r, d).key == g.identity.key);
      mine != [] && Totals(mine).(identity := g.identity) == g && g.identity == GroupIdentity(names, mine[0], d)
  {
    hide Report, GroupIdentity, Select, Values, Sum, Round4, IsLatest, Sorted, Totals;
    ReportPartitions(names, rs, d);
    assert IsGroupOf(names, g, rs, d);
    var mine := InGroup(rs, KeyOf(names, d), g.identity.key);
    SelectSame(rs, HasKey(KeyOf(names, d), g.identity.key),
      (r: Record) => GroupIdentity(names, r, d).key == g.identity.key);
    TotalsCollected(mine);
    LatestUnique(g.lastActivity, Totals(mine).lastActivity, mine, mine);
  }

  lemma TotalsCollected(rs: seq<Record>)
    ensures var t := Totals(rs);
      && t.m == Sum(rs) && t.credits == Round4(Sum(rs).credits) && t.pools == Values(rs, PoolOf) - {""}
      && IsLatest(t.lastActivity, rs)
      && t.deviceCount == |Values(rs, DeviceKey)| && t.userCount == |Values(rs, UserKey)|
      && t.agentCount == |Values(rs, AgentCountKey)| && t.tenantCount == |Values(rs, TenantKey)|
      && t.providerCount == |Values(rs, ProviderKey)| && t.modelCount == |Values(rs, ModelName)|
  {
    hide AccumulateAll, Sum, Values, Round4, NewBucket, IsLatest;
    AccumulationCollects(TOTALS, rs);
  }

  /* ---- keys and labels ---- */

  /** The fields that records are counted by, and that pools and activity are read from. */
  lemma CountedFields(r: Record)
    ensures TextIs(r, ["device_id", "device_name"], "unknown-device", DeviceKey(r))
    ensures TextIs(r, ["user_subject", "user_id"], "unknown-user", UserKey(r))
    ensures TextIs(r, ["agent_id", "entity_id", "agent_name"], "unknown-agent", AgentCountKey(r))
    ensures TextIs(r, ["tenant_id"], "unknown-tenant", TenantKey(r))
    ensures TextIs(r, ["provider"], "unknown", ProviderKey(r)) && TextIs(r, ["model"], "unknown", ModelName(r))
    ensures TextIs(r, ["billing_pool_id", "credit_pool_id"], "", PoolOf(r))
    ensures TextIs(r, ["observed_at", "recorded_at"], "", ActivityOf(r))
  {
    hide TextIs;
    FieldStringIs(r, ["device_id", "device_name"], "unknown-device");
    FieldStringIs(r, ["user_subject", "user_id"], "unknown-user");
    FieldStringIs(r, ["tenant_id"], "unknown-tenant");
    FieldStringIs(r, ["provider"], "unknown");
    FieldStringIs(r, ["model"], "unknown");
    FieldStringIs(r, ["billing_pool_id", "credit_pool_id"], "");
    FieldStringIs(r, ["observed_at", "recorded_at"], "");
    AgentFields(r);
  }

  lemma AgentFields(r: Record)
    ensures TextIs(r, ["agent_id", "entity_id", "agent_name"], "unknown-agent", AgentCountKey(r))
    ensures TextIs(r, ["agent_id", "entity_id", "object_id", "agent_name", "name"], "unknown-agent", AgentGroupKey(r))
  {
    hide TextIs, FieldString;
    var inner := FieldString(r, ["agent_name"], "unknown-agent");
    FieldStringIs(r, ["agent_name"], "unknown-agent");
    FieldStringIs(r, ["agent_id", "entity_id"], inner);
    FallThrough(r, ["agent_id", "entity_id"], ["agent_name"], "unknown-agent", inner, AgentCountKey(r));
    assert ["agent_id", "entity_id"] + ["agent_name"] == ["agent_id", "entity_id", "agent_name"];
    var named := FieldString(r, ["agent_name", "name"], "unknown-agent");
    FieldStringIs(r, ["agent_name", "name"], "unknown-agent");
    FieldStringIs(r, ["agent_id", "entity_id", "object_id"], named);
    FallThrough(r, ["agent_id", "entity_id", "object_id"], ["agent_name", "name"], "unknown-agent", named,
      AgentGroupKey(r));
    assert ["agent_id", "entity_id", "object_id"] + ["agent_name", "name"] ==
      ["agent_id", "entity_id", "object_id", "agent_name", "name"];
  }

  /** Key and label of a record in a dimension; a device and a model show more. */
  ghost predicate IdentityOf(names: Naming, r: Record, d: Dimension, i: Identity) {
    match d
    case Device =>
      && TextIs(r, ["device_id", "device_name"], "unknown-device", i.key)
      && TextIs(r, ["device_name", "device_id"], "Unknown device", i.display)
      && i.meta.DeviceMeta? && TextIs(r, ["lcp_id"], "unknown-lcp", i.meta.lcpId) &&
        TextIs(r, ["os_version"], "", i.meta.osVersion)
      && exists os :: TextIs(r, ["os_family"], "unknown", os) && i.meta.osFamily == (names.osFamily)(os)
    case User =>
      && TextIs(r, ["user_subject", "user_id"], "unknown-user", i.key)
      && TextIs(r, ["user_subject", "user_id"], "Unknown user", i.display) && i.meta == NoMeta
    case Agent =>
      && TextIs(r, ["agent_id", "entity_id", "object_id", "agent_name", "name"], "unknown-agent", i.key)
      && TextIs(r, ["agent_name", "name", "agent_id", "entity_id"], "Unknown agent", i.display) && i.meta == NoMeta
    case Tenant =>
      TextIs(r, ["tenant_id"], "unknown-tenant", i.key) && i.display == (names.tenantName)(i.key) && i.meta == NoMeta
    case Model =>
      && i.meta.ModelMeta? && TextIs(r, ["provider"], "unknown", i.meta.provider) &&
        TextIs(r, ["model"], "unknown", i.meta.model)
      && i.key == i.meta.provider + "::" + i.meta.model
      && i.display == (names.trim)(i.meta.provider + " " + i.meta.model)
    case Provider =>
      && TextIs(r, ["provider"], "unknown", i.key)
      && TextIs(r, ["provider"], "Unknown provider", i.display) && i.meta == NoMeta
  }

  lemma IdentityFields(names: Naming, r: Record, d: Dimension)
    ensures IdentityOf(names, r, d, GroupIdentity(names, r, d))
  {
    hide TextIs;
    CountedFields(r);
    AgentFields(r);
    FieldStringIs(r, ["device_name", "device_id"], "Unknown device");
    FieldStringIs(r, ["lcp_id"], "unknown-lcp");
    FieldStringIs(r, ["os_family"], "unknown");
    FieldStringIs(r, ["os_version"], "");
    FieldStringIs(r, ["user_subject", "user_id"], "Unknown user");
    FieldStringIs(r, ["agent_name", "name", "agent_id", "entity_id"], "Unknown agent");
    FieldStringIs(r, ["provider"], "Unknown provider");
    hide FieldString, AgentGroupKey, AgentCountKey, DeviceKey, UserKey, TenantKey, ProviderKey, ModelName;
  }

  /* ---- scope ---- */

  /** A record about cost or tokens. */
  ghost predicate AboutCost(r: Record) {
    || (exists t :: TextIs(r, ["metric"], "", t) && (t == "ai_model_usage" || Occurs("token", t) || Occurs("cost", t)))
    || (exists x :: NumberIs(r, ["total_tokens", "tokens", "input_tokens", "output_tokens"], x) && x > 0.0)
    || (exists x :: NumberIs(r, ["allocated_cost_cents", "estimated_cost_cents", "cost_cents", "amount_cents",
          "billed_credits", "credits"], x) && x > 0.0)
  }

  /** A record stamped within two bounds, both included; without bounds any record. */
  ghost predicate StampedWithin(parse: string -> Option<int>, r: Record, from: Option<int>, to: Option<int>) {
    || (from == None && to == None)
    || exists t, ms ::
         && TextIs(r, ["observed_at", "recorded_at", "occurred_at"], "", t) && t != "" && parse(t) == Some(ms)
         && (from.Some? ==> from.value <= ms) && (to.Some? ==> ms <= to.value)
  }

  lemma TextUnique(r: Record, keys: seq<string>, fallback: string, t: string, u: string)
    requires TextIs(r, keys, fallback, t) && TextIs(r, keys, fallback, u)
    ensures t == u
  {
    if i: nat, j: nat :| PresentText(r, keys, i, t) && PresentText(r, keys, j, u) { assert i == j; }
  }

  lemma NumberUnique(r: Record, keys: seq<string>, x: real, y: real)
    requires NumberIs(r, keys, x) && NumberIs(r, keys, y)
    ensures x == y
  {
    if i: nat :| FirstNumber(r, keys, i) && r[keys[i]].number == Some(x) {
      if j: nat :| FirstNumber(r, keys, j) && r[keys[j]].number == Some(y) {
        assert i == j;
      }
    }
  }

  lemma CostFields(r: Record)
    ensures IsCostToken(r) <==> AboutCost(r)
  {
    hide NumberIs, TextIs, Occurs;
    var tokens := ["total_tokens", "tokens", "input_tokens", "output_tokens"];
    var costs := ["allocated_cost_cents", "estimated_cost_cents", "cost_cents", "amount_cents", "billed_credits",
      "credits"];
    FieldStringIs(r, ["metric"], "");
    FieldNumberIs(r, tokens);
    FieldNumberIs(r, costs);
    hide FieldNumber, FieldString, Contains;
    var metric := FieldString(r, ["metric"], "");
    ContainsIs(metric, "token");
    ContainsIs(metric, "cost");
    forall t | TextIs(r, ["metric"], "", t) ensures t == metric { TextUnique(r, ["metric"], "", t, metric); }
    forall x | NumberIs(r, tokens, x) ensures x == FieldNumber(r, tokens) {
      NumberUnique(r, tokens, x, FieldNumber(r, tokens));
    }
    forall x | NumberIs(r, costs, x) ensures x == FieldNumber(r, costs) {
      NumberUnique(r, costs, x, FieldNumber(r, costs));
    }
  }

  lemma StampFields(parse: string -> Option<int>, r: Record, from: Option<int>, to: Option<int>)
    ensures Within(parse, r, from, to) <==> StampedWithin(parse, r, from, to)
  {
    hide TextIs;
    var keys := ["observed_at", "recorded_at", "occurred_at"];
    FieldStringIs(r, keys, "");
    hide FieldString;
    forall t | TextIs(r, keys, "", t) ensures t == FieldString(r, keys, "") {
      TextUnique(r, keys, "", t, FieldString(r, keys, ""));
    }
  }

  /** The bounds of a day are its first and its last millisecond. */
  lemma DayBounds(d: int, ms: int, end: bool)
    ensures BoundMs(DayBound(d), false) == Some(d * 86400000) &&
      BoundMs(DayBound(d), true) == Some((d + 1) * 86400000 - 1)
    ensures BoundMs(InstantBound(ms), end) == Some(ms) && BoundMs(NoBound, end) == None
  {}

  /** A report takes up, in order, the records about cost of its tenant that are stamped within its bounds. */
  lemma ScopeFields(parse: string -> Option<int>, rs: seq<Record>, tenant: string, from: Bound, to: Bound, r: Record)
    ensures r in ForScope(parse, rs, tenant, from, to) <==>
      && r in rs && AboutCost(r) && (tenant == "" || ("tenant_id" in r && r["tenant_id"].text == tenant))
      && StampedWithin(parse, r, BoundMs(from, false), BoundMs(to, true))
    ensures multiset(ForScope(parse, rs, tenant, from, to))[r] ==
      if r in ForScope(parse, rs, tenant, from, to) then multiset(rs)[r] else 0
  {
    hide Select, IsCostToken, AboutCost, Within, StampedWithin, BoundMs;
    var p := InScope(parse, tenant, BoundMs(from, false), BoundMs(to, true));
    SelectCount(rs, p, r);
    assert r in Select(rs, p) <==> multiset(Select(rs, p))[r] > 0;
    assert r in rs <==> multiset(rs)[r] > 0;
    CostFields(r);
    StampFields(parse, r, BoundMs(from, false), BoundMs(to, true));
  }

  /* ---- order and rounding ---- */

  /** Groups come by descending cost, then descending tokens, then descending calls. */
  ghost predicate Descending(g: Group, h: Group) {
    && g.m.cost >= h.m.cost
    && (g.m.cost == h.m.cost ==> g.m.total >= h.m.total)
    && (g.m.cost == h.m.cost && g.m.total == h.m.total ==> g.m.calls >= h.m.calls)
  }

  function Ties(cost: real, total: real, calls: real): Group -> bool {
    (g: Group) => g.m.cost == cost && g.m.total == total && g.m.calls == calls
  }

  lemma {:induction false} InsertStable(g: Group, gs: seq<Group>, cost: real, total: real, calls: real)
    requires Sorted(gs)
    ensures Select(InsertGroup(g, gs), Ties(cost, total, calls)) == Select(gs + [g], Ties(cost, total, calls))
  {
    hide Select, Sorted;
    var p := Ties(cost, total, calls);
    if gs != [] && !InOrder(gs[|gs| - 1], g) {
      var n := |gs| - 1;
      assert gs == gs[..n] + [gs[n]];
      SortedFront(gs);
      InsertStable(g, gs[..n], cost, total, calls);
      SelectMore(InsertGroup(g, gs[..n]), gs[n], p);
      SelectMore(gs[..n], g, p);
      SelectMore(gs[..n], gs[n], p);
      SelectMore(gs, g, p);
    }
  }

  lemma SortedFront(gs: seq<Group>)
    requires Sorted(gs) && gs != []
    ensures Sorted(gs[..|gs| - 1])
  {
    hide InOrder;
  }

  /** Tied groups keep the order in which they first appeared. */
  lemma {:induction false} SortStable(gs: seq<Group>, cost: real, total: real, calls: real)
    ensures Select(SortGroups(gs), Ties(cost, total, calls)) == Select(gs, Ties(cost, total, calls))
  {
    hide Select, Sorted, InsertGroup, Ties;
    if gs != [] {
      var n := |gs| - 1;
      var front := SortGroups(gs[..n]);
      SortStable(gs[..n], cost, total, calls);
      InsertStable(gs[n], front, cost, total, calls);
      SelectMore(front, gs[n], Ties(cost, total, calls));
      SelectMore(gs[..n], gs[n], Ties(cost, total, calls));
      assert gs == gs[..n] + [gs[n]];
    }
  }

  /** Groups are listed by descending figures; ties are in the order in which a record first had the key. */
  lemma ReportOrder(names: Naming, rs: seq<Record>, d: Dimension, cost: real, total: real, calls: real)
    ensures var gs := Report(names, rs, d); forall i, j | 0 <= i < j < |gs| :: Descending(gs[i], gs[j])
    ensures Select(Report(names, rs, d), Ties(cost, total, calls)) ==
      Select(Groups(names, rs, d), Ties(cost, total, calls))
    ensures var ks := GroupKeys(rs, KeyOf(names, d));
      |Groups(names, rs, d)| == |ks| && forall i | 0 <= i < |ks| :: Groups(names, rs, d)[i].identity.key == ks[i]
    ensures FirstAppearances(rs, KeyOf(names, d), GroupKeys(rs, KeyOf(names, d)))
  {
    hide Select, SortGroups, GroupKeys, Groups, FirstAppearances, IsGroupOf, InOrder;
    SortStable(Groups(names, rs, d), cost, total, calls);
    GroupsByKey(names, rs, d);
    KeysByAppearance(rs, KeyOf(names, d));
    SortedDescends(Report(names, rs, d));
  }

  lemma SortedDescends(gs: seq<Group>)
    requires Sorted(gs)
    ensures forall i, j | 0 <= i < j < |gs| :: Descending(gs[i], gs[j])
  {}

  /** Record i has the first key, and no record up to it has the second. */
  predicate HasFirst(rs: seq<Record>, key: Record -> string, k: string, other: string, i: nat) {
    i < |rs| && key(rs[i]) == k && forall j | 0 <= j <= i :: key(rs[j]) != other
  }

  /** Keys in the order of the first records that have them. */
  ghost predicate FirstAppearances(rs: seq<Record>, key: Record -> string, ks: seq<string>) {
    forall a, b | 0 <= a < b < |ks| :: Precedes(rs, key, ks[a], ks[b])
  }

  ghost predicate Precedes(rs: seq<Record>, key: Record -> string, k: string, other: string) {
    exists i: nat :: HasFirst(rs, key, k, other, i)
  }

  lemma {:induction false} KeysByAppearance(rs: seq<Record>, key: Record -> string)
    ensures FirstAppearances(rs, key, GroupKeys(rs, key))
  {
    hide Precedes;
    if rs != [] {
      var n := |rs| - 1;
      KeysByAppearance(rs[..n], key);
      var front, ks := GroupKeys(rs[..n], key), GroupKeys(rs, key);
      assert ks == front || ks == front + [key(rs[n])];
      forall a, b | 0 <= a < b < |ks| ensures Precedes(rs, key, ks[a], ks[b]) {
        if b < |front| {
          assert Precedes(rs[..n], key, front[a], front[b]);
          StillPrecedes(rs, key, n, front[a], front[b]);
          assert front[a] == ks[a] && front[b] == ks[b];
        } else {
          assert ks == front + [key(rs[n])] && ks[a] == front[a] && ks[b] == key(rs[n]);
          assert front[a] in front;
          LastIsNew(rs, key, ks[a], ks[b]);
        }
      }
    }
  }

  lemma StillPrecedes(rs: seq<Record>, key: Record -> string, n: nat, k: string, other: string)
    requires n <= |rs| && Precedes(rs[..n], key, k, other)
    ensures Precedes(rs, key, k, other)
  {
    var i: nat :| HasFirst(rs[..n], key, k, other, i);
    assert forall j | 0 <= j <= i :: rs[j] == rs[..n][j];
    assert HasFirst(rs, key, k, other, i);
  }

  lemma LastIsNew(rs: seq<Record>, key: Record -> string, k: string, other: string)
    requires rs != [] && key(rs[|rs| - 1]) == other
    requires k in GroupKeys(rs[..|rs| - 1], key) && other !in GroupKeys(rs[..|rs| - 1], key)
    ensures Precedes(rs, key, k, other)
  {
    var n := |rs| - 1;
    var before := rs[..n];
    var r :| r in before && key(r) == k;
    var i: nat :| i < n && before[i] == r;
    forall j | 0 <= j <= i ensures key(rs[j]) != other { assert before[j] in before && rs[j] == before[j]; }
    assert HasFirst(rs, key, k, other, i);
  }

  /**
  Credits are rounded to a multiple of 0.0001, the nearest one, and of two the one farther from zero. From 1e21 on,
  the text of a number has an exponent and nothing is rounded.
  */
  lemma Round4Exactly(x: real)
    ensures if -1000000000000000000000.0 < x < 1000000000000000000000.0
      then exists n: int :: RoundsTo(x, n) && Round4(x) == n as real / 10000.0
      else Round4(x) == x
  {
    if x <= -1000000000000000000000.0 || x >= 1000000000000000000000.0 {
    } else if x < 0.0 {
      var n := (-x * 10000.0 + 0.5).Floor;
      assert RoundsTo(x, -n) && Round4(x) == (-n) as real / 10000.0;
    } else {
      var n := (x * 10000.0 + 0.5).Floor;
      assert RoundsTo(x, n) && Round4(x) == n as real / 10000.0;
    }
  }

  /** The nearest number of steps of 0.0001, away from zero when two are. */
  predicate RoundsTo(x: real, n: int) {
    var d := n as real - x * 10000.0;
    -0.5 <= d <= 0.5 && (d == 0.5 ==> x > 0.0) && (d == -0.5 ==> x < 0.0)
  }

  /**
  Activity times are compared as texts: a longer text is later than its beginning, else the first difference
  decides.
  */
  lemma {:induction false} LaterExactly(a: string, b: string)
    ensures Later(a, b) <==> (b <= a && a != b) || exists i: nat :: Text.AgreeTo(a, b, i) && a[i] > b[i]
  {
    if a != "" && b != "" {
      LaterExactly(a[1..], b[1..]);
      Text.PrefixStep(b, a);
      assert a == [a[0]] + a[1..] && b == [b[0]] + b[1..];
      assert Text.AgreeTo(a, b, 0);
      forall i: nat | i > 0 ensures Text.AgreeTo(a, b, i) <==> a[0] == b[0] && Text.AgreeTo(a[1..], b[1..], i - 1) {
        Text.AgreeStep(a, b, i);
      }
      if i: nat :| Text.AgreeTo(a[1..], b[1..], i) && a[1..][i] > b[1..][i] && a[0] == b[0] {
        assert Text.AgreeTo(a, b, i + 1);
      }
    }
  }
}
