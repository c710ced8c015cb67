/**
 Sharing credits across tiers under an instance-wide limit: one common level for every
 tier, found by a second binary search, then the remainder in registration order.
 */
module InstancePlanning {
  import opened Base
  import opened Sums
  import opened Ledger
  import opened Planning
  import F = Fairness
  import L = Levelling
  import G = GlobalLevelling
  import W = WaterFill
  import opened Work

  datatype TierAllocation = TierAllocation(tierID: TierID, budget: nat, candidates: seq<W.Candidate>)

  /** The credits it takes to raise every tier to `level`, each within its own budget. */
  function CreditsAt(tiers: seq<TierAllocation>, level: int): nat {
    if tiers == [] then 0
    else
      var last := tiers[|tiers| - 1];
      CreditsAt(tiers[..|tiers| - 1], level) + Min(W.Credits(last.candidates, level), last.budget)
  }

  lemma {:induction false} CreditsAtPrefix(tiers: seq<TierAllocation>, level: int, n: nat)
    requires n <= |tiers|
    ensures CreditsAt(tiers[..n], level) <= CreditsAt(tiers, level)
    decreases |tiers|
  {
    if n < |tiers| {
      assert tiers[..|tiers| - 1][..n] == tiers[..n];
      CreditsAtPrefix(tiers[..|tiers| - 1], level, n);
    } else {
      assert tiers[..n] == tiers;
    }
  }

  /** The candidates of all tiers. */
  function Size(tiers: seq<TierAllocation>): nat {
    if tiers == [] then 0 else Size(tiers[..|tiers| - 1]) + |tiers[|tiers| - 1].candidates|
  }

  lemma {:induction false} SizePrefix(tiers: seq<TierAllocation>, n: nat)
    requires n <= |tiers|
    ensures Size(tiers[..n]) <= Size(tiers)
    decreases |tiers|
  {
    if n < |tiers| {
      assert tiers[..|tiers| - 1][..n] == tiers[..n];
      SizePrefix(tiers[..|tiers| - 1], n);
    } else {
      assert tiers[..n] == tiers;
    }
  }

  lemma SizeGrows(tiers: seq<TierAllocation>, n: nat)
    requires n < |tiers|
    ensures Size(tiers[..n + 1]) == Size(tiers[..n]) + |tiers[n].candidates|
  {
    assert tiers[..n + 1][..n] == tiers[..n];
  }

  /** Stops adding as soon as the budget is exceeded. */
  method CountCredits(tiers: seq<TierAllocation>, level: int, budget: nat) returns (total: nat, visits: nat)
    ensures total > budget <==> CreditsAt(tiers, level) > budget
    ensures total <= budget ==> total == CreditsAt(tiers, level)
    ensures visits <= Size(tiers)
  {
    total, visits := 0, 0;
    for index := 0 to |tiers|
      invariant total == CreditsAt(tiers[..index], level) <= budget
      invariant visits <= Size(tiers[..index])
    {
      var credits, inspected := W.CreditsAtLevel(tiers[index].candidates, level, tiers[index].budget);
      visits := visits + inspected;
      if credits > tiers[index].budget {
        credits := tiers[index].budget;
      }
      assert tiers[..index + 1][..index] == tiers[..index];
      total := total + credits;
      if total > budget {
        CreditsAtPrefix(tiers, level, index + 1);
        SizePrefix(tiers, index + 1);
        return budget + 1, visits;
      }
    }
    assert tiers[..|tiers|] == tiers;
  }

  lemma {:induction false} CreditsAtFloors(tiers: seq<TierAllocation>, level: int)
    requires forall i, c :: 0 <= i < |tiers| && 0 <= c < |tiers[i].candidates| ==> level <= tiers[i].candidates[c].floor
    ensures CreditsAt(tiers, level) == 0
  {
    if tiers != [] {
      CreditsAtFloors(tiers[..|tiers| - 1], level);
      W.CreditsBelowFloors(tiers[|tiers| - 1].candidates, level);
    }
  }

  /** The highest level the instance's budget pays for in every tier. */
  method InstanceLevel(tiers: seq<TierAllocation>, budget: nat, minimum: nat, maximum: nat)
    returns (level: nat, visits: nat)
    requires minimum <= maximum && CreditsAt(tiers, minimum) <= budget
    ensures level <= maximum && CreditsAt(tiers, level) <= budget
    ensures level == maximum || CreditsAt(tiers, level + 1) > budget
    ensures Few(0, visits, Size(tiers), 1 + Log2Up(maximum - minimum + 1))
  {
    hide Few;
    var atMaximum, searched := CountCredits(tiers, maximum, budget);
    level, visits := maximum, searched;
    FewAtMost(0, visits, Size(tiers), 1);
    FewAtMost(0, visits, Size(tiers), 1 + Log2Up(maximum - minimum + 1));
    if atMaximum > budget {
      level, searched := SearchLevel(tiers, budget, minimum, maximum);
      FewShifts(0, searched, Size(tiers), Log2Up(maximum - minimum + 1), visits);
      FewInTurn(0, visits, visits + searched, Size(tiers), 1, Log2Up(maximum - minimum + 1));
      visits := visits + searched;
    }
  }

  method SearchLevel(tiers: seq<TierAllocation>, budget: nat, minimum: nat, maximum: nat)
    returns (level: nat, visits: nat)
    requires minimum <= maximum && CreditsAt(tiers, minimum) <= budget
    ensures level <= maximum && CreditsAt(tiers, level) <= budget
    ensures level == maximum || CreditsAt(tiers, level + 1) > budget
    ensures Few(0, visits, Size(tiers), Log2Up(maximum - minimum + 1))
  {
    hide *;
    var low, high := minimum, maximum;
    visits := 0;
    ghost var size, span := Size(tiers), maximum - minimum + 1;
    SearchStarts(size, span);
    while low < high
      invariant minimum <= low <= high <= maximum
      invariant CreditsAt(tiers, low) <= budget
      invariant high == maximum || CreditsAt(tiers, high + 1) > budget
      invariant Searching(visits, size, high - low + 1, span)
    {
      var middle := low + (high - low + 1) / 2;
      var credits, inspected := CountCredits(tiers, middle, budget);
      if credits <= budget {
        SearchNarrows(visits, inspected, size, high - low + 1, high - middle + 1, span);
        low := middle;
      } else {
        SearchNarrows(visits, inspected, size, high - low + 1, middle - low, span);
        high := middle - 1;
      }
      visits := visits + inspected;
    }
    level := low;
    SearchEnds(visits, size, high - low + 1, span);
  }

  // ---- the tiers that take part ----

  ghost predicate Entry(m: F.Market, e: TierAllocation)
    requires F.WellFormed(m)
  {
    match e
    case TierAllocation(tierID, budget, candidates) =>
      && tierID in m.parallelism
      && 0 < budget == G.TierBudget(m, tierID)
      && L.Lists(m, tierID, Min(G.Budget(m), budget), candidates)
      && forall i, j :: 0 <= i < j < |candidates| ==> candidates[i].key != candidates[j].key
  }

  /** Tier `t` has credit to give and nobody to give it to, or no credit at all. */
  ghost predicate Idle(m: F.Market, t: TierID)
    requires F.WellFormed(m) && t in m.parallelism
  {
    G.TierBudget(m, t) <= 0 || forall k :: k in F.Members(m, t) ==> !L.Candidate(m, k)
  }

  ghost predicate Entries(m: F.Market, tiers: seq<TierAllocation>)
    requires F.WellFormed(m)
  {
    && (forall i :: 0 <= i < |tiers| ==> Entry(m, tiers[i]))
    && (forall i, j :: 0 <= i < j < |tiers| ==> tiers[i].tierID != tiers[j].tierID)
  }

  ghost function TierIDs(tiers: seq<TierAllocation>): set<TierID> { set i | 0 <= i < |tiers| :: tiers[i].tierID }

  ghost predicate Spans(tiers: seq<TierAllocation>, minimum: int, maximum: int) {
    forall i, c :: 0 <= i < |tiers| && 0 <= c < |tiers[i].candidates| ==>
      minimum <= tiers[i].candidates[c].floor && tiers[i].candidates[c].ceiling <= maximum
  }

  /** The instance's pools are the market's tiers. */
  ghost predicate PoolsOf(m: F.Market, pools: map<TierID, Pool>) {
    pools.Keys == m.parallelism.Keys && forall t {:trigger PoolOf(m, t, pools[t])} :: t in pools ==> PoolOf(m, t, pools[t])
  }

  method GatherEntry(ghost m: F.Market, t: TierID, pool: Pool, budget: int) returns (entry: Option<TierAllocation>)
    requires PoolOf(m, t, pool) && 0 < budget == G.Budget(m)
    ensures entry.Some? ==> entry.value.tierID == t && Entry(m, entry.value) && entry.value.candidates != []
    ensures entry.None? ==> Idle(m, t)
  {
    var tierBudget := pool.parallelism - pool.active;
    if tierBudget <= 0 {
      return None;
    }
    var candidateBudget := budget;
    if tierBudget < candidateBudget {
      candidateBudget := tierBudget;
    }
    var candidates := CandidatesOf(m, t, pool, candidateBudget);
    if |candidates| == 0 {
      return None;
    }
    return Some(TierAllocation(t, tierBudget, candidates));
  }

  /** Takes a tier's candidates into the range of levels; `have` says whether there is one yet. */
  method WidenLevels(candidates: seq<W.Candidate>, minimum: nat, maximum: nat, have: bool)
    returns (lowest: nat, highest: nat)
    ensures forall c :: 0 <= c < |candidates| ==> lowest <= candidates[c].floor && candidates[c].ceiling <= highest
    ensures (have ==> lowest <= minimum) && maximum <= highest
    ensures highest == maximum || exists c :: 0 <= c < |candidates| && candidates[c].ceiling == highest
  {
    lowest, highest := minimum, maximum;
    var any := have;
    for index := 0 to |candidates|
      invariant any <==> have || index > 0
      invariant (have ==> lowest <= minimum) && maximum <= highest
      invariant highest == maximum || exists c :: 0 <= c < index && candidates[c].ceiling == highest
      invariant forall c :: 0 <= c < index ==> lowest <= candidates[c].floor && candidates[c].ceiling <= highest
    {
      if !any || candidates[index].floor < lowest {
        lowest := candidates[index].floor;
      }
      if candidates[index].ceiling > highest {
        highest := candidates[index].ceiling;
      }
      any := true;
    }
  }

  /** The instance's budget bounds every ceiling, whatever the demand. */
  lemma CeilingsWithinLimit(m: F.Market, e: TierAllocation)
    requires F.WellFormed(m) && Entry(m, e)
    ensures forall c :: 0 <= c < |e.candidates| ==> e.candidates[c].ceiling <= m.limit
  {
    forall c | 0 <= c < |e.candidates| ensures e.candidates[c].ceiling <= m.limit {
      SumAtLeast(F.Keys(m), F.Floors(m), e.candidates[c].key, e.candidates[c].key);
    }
  }

  ghost predicate Gathered(m: F.Market, tiers: seq<TierAllocation>, minimum: nat, maximum: nat, seen: set<TierID>)
    requires F.WellFormed(m)
  {
    && Entries(m, tiers) && Spans(tiers, minimum, maximum)
    && (tiers != [] ==> minimum <= maximum) && maximum <= m.limit
    && TierIDs(tiers) <= seen <= m.parallelism.Keys
    && (forall t {:trigger Idle(m, t)} :: t in seen && t !in TierIDs(tiers) ==> Idle(m, t))
  }

  lemma AddEntry(m: F.Market, tiers: seq<TierAllocation>, e: TierAllocation)
    requires F.WellFormed(m) && Entries(m, tiers) && Entry(m, e) && e.tierID !in TierIDs(tiers)
    ensures Entries(m, tiers + [e]) && TierIDs(tiers + [e]) == TierIDs(tiers) + {e.tierID}
  {
    var longer := tiers + [e];
    assert longer[|tiers|] == e;
    assert forall i :: 0 <= i < |tiers| ==> longer[i] == tiers[i];
  }

  lemma AddSpan(tiers: seq<TierAllocation>, e: TierAllocation, minimum: int, maximum: int, lowest: int, highest: int)
    requires Spans(tiers, minimum, maximum) && (tiers != [] ==> lowest <= minimum) && maximum <= highest
    requires forall c :: 0 <= c < |e.candidates| ==> lowest <= e.candidates[c].floor && e.candidates[c].ceiling <= highest
    ensures Spans(tiers + [e], lowest, highest)
  {
    assert forall i :: 0 <= i < |tiers| ==> (tiers + [e])[i] == tiers[i];
  }

  method GatherTier(ghost m: F.Market, t: TierID, pool: Pool, budget: int,
                    tiers: seq<TierAllocation>, minimum: nat, maximum: nat, ghost seen: set<TierID>)
    returns (tiers': seq<TierAllocation>, minimum': nat, maximum': nat)
    requires PoolOf(m, t, pool) && 0 < budget == G.Budget(m)
    requires Gathered(m, tiers, minimum, maximum, seen) && t !in seen
    ensures Gathered(m, tiers', minimum', maximum', seen + {t})
  {
    var entry := GatherEntry(m, t, pool, budget);
    tiers', minimum', maximum' := tiers, minimum, maximum;
    if entry.Some? {
      minimum', maximum' := WidenLevels(entry.value.candidates, minimum, maximum, tiers != []);
      CeilingsWithinLimit(m, entry.value);
      AddEntry(m, tiers, entry.value);
      AddSpan(tiers, entry.value, minimum, maximum, minimum', maximum');
      assert minimum' <= entry.value.candidates[0].floor <= entry.value.candidates[0].ceiling <= maximum';
      tiers' := tiers + [entry.value];
    }
  }

  method GatherTiers(ghost m: F.Market, pools: map<TierID, Pool>, budget: int)
    returns (tiers: seq<TierAllocation>, minimum: nat, maximum: nat)
    requires F.WellFormed(m) && PoolsOf(m, pools) && 0 < budget == G.Budget(m)
    ensures Gathered(m, tiers, minimum, maximum, m.parallelism.Keys)
  {
    tiers, minimum, maximum := [], 0, 0;
    var ids := InSomeOrder(pools.Keys);
    for index := 0 to |ids|
      invariant Gathered(m, tiers, minimum, maximum, ToSet(ids[..index]))
    {
      SeenGrows(ids, index);
      assert PoolOf(m, ids[index], pools[ids[index]]);
      tiers, minimum, maximum :=
        GatherTier(m, ids[index], pools[ids[index]], budget, tiers, minimum, maximum, ToSet(ids[..index]));
    }
    assert ids[..|ids|] == ids;
  }

  // ---- first pass: every tier to the common level ----

  lemma AgreeKeepsTotal(m: F.Market, x: F.Capacities, y: F.Capacities, t: TierID)
    requires F.Shaped(m, x) && F.Shaped(m, y) && L.Agree(m, x, y, t)
    ensures F.TierTotal(m, y, t) == F.TierTotal(m, x, t)
  {
    SumLe(F.Members(m, t), x, y);
  }

  lemma AgreeKeepsOrder(m: F.Market, x: F.Capacities, y: F.Capacities, t: TierID, clip: int, level: int)
    requires F.Shaped(m, x) && F.Shaped(m, y) && L.Agree(m, x, y, t) && L.Orderly(m, x, t, clip, level)
    ensures L.Orderly(m, y, t, clip, level)
  {
    forall i, j | i in F.Members(m, t) && j in F.Members(m, t) && F.Grown(m, y, i) && L.Short(m, y, clip, level, j)
      ensures F.Before(m, y[i] - 1, i, y[j], j)
    {
      assert F.Grown(m, x, i) && L.Short(m, x, clip, level, j);
    }
  }

  lemma AgreeKeepsStage(m: F.Market, x: F.Capacities, y: F.Capacities, t: TierID, level: int)
    requires F.Shaped(m, x) && F.Shaped(m, y) && t in m.parallelism
    requires L.Agree(m, x, y, t) && G.StagedTier(m, x, level, t)
    ensures G.StagedTier(m, y, level, t)
  {
    AgreeKeepsTotal(m, x, y, t);
    if G.TierBudget(m, t) > 0 {
      var clip := Min(G.Budget(m), G.TierBudget(m, t));
      AgreeKeepsOrder(m, x, y, t, clip, level);
      assert forall k :: k in F.Members(m, t) && L.Short(m, y, clip, level, k) ==> L.Short(m, x, clip, level, k);
    }
  }

  /** A tier nobody takes part in stands at every level. */
  lemma IdleIsStaged(m: F.Market, x: F.Capacities, t: TierID, level: int)
    requires F.Shaped(m, x) && t in m.parallelism && Idle(m, t) && AtFloors(m, x, t)
    ensures G.StagedTier(m, x, level, t)
  {
    SumLe(F.Members(m, t), x, F.Floors(m));
  }

  /** Moving one tier moves the instance by as much. */
  lemma TotalMoves(m: F.Market, x: F.Capacities, y: F.Capacities, t: TierID)
    requires F.Shaped(m, x) && F.Shaped(m, y) && SameElsewhere(m, x, y, t)
    ensures F.Total(m, y) - F.Total(m, x) == F.TierTotal(m, y, t) - F.TierTotal(m, x, t)
  {
    var rest := F.Keys(m) - F.Members(m, t);
    SumUnion(F.Members(m, t), rest, x);
    SumUnion(F.Members(m, t), rest, y);
    SumLe(rest, x, y);
    assert F.Members(m, t) + rest == F.Keys(m);
  }

  /** Writing a filled tier over its floors. */
  lemma WrittenIsStaged(m: F.Market, e: TierAllocation, level: int, capacities: seq<int>, x: F.Capacities, y: F.Capacities)
    requires F.WellFormed(m) && Entry(m, e) && W.Filled(e.candidates, e.budget, level, capacities)
    requires F.Shaped(m, x) && AtFloors(m, x, e.tierID) && Overlays(x, y, e.candidates, capacities)
    ensures F.Shaped(m, y) && G.StagedTier(m, y, level, e.tierID) && SameElsewhere(m, x, y, e.tierID)
    ensures F.TierTotal(m, y, e.tierID) == F.TierTotal(m, F.Floors(m), e.tierID) + W.Spent(e.candidates, capacities)
  {
    var clip := Min(G.Budget(m), e.budget);
    OverlayCarries(m, e.tierID, clip, x, y, e.candidates, capacities);
    L.SpentIsGained(m, y, e.tierID, clip, e.candidates, capacities);
    L.FilledIsLevelled(m, y, e.tierID, clip, e.budget, level, e.candidates, capacities);
  }

  method FillEntry(ghost m: F.Market, e: TierAllocation, level: nat)
    returns (capacities: seq<int>, used: int, visits: nat)
    requires F.WellFormed(m) && Entry(m, e)
    ensures Writable(m, e.tierID, e.candidates, capacities)
    ensures W.Filled(e.candidates, e.budget, level, capacities)
    ensures used == W.Spent(e.candidates, capacities) == Min(W.Credits(e.candidates, level), e.budget)
    ensures Few(0, visits, |e.candidates|, 4 + Log2Up(m.limit + 1))
  {
    hide Few;
    CeilingsWithinLimit(m, e);
    capacities, used, visits := W.WaterFill(e.candidates, e.budget, level, m.limit);
  }

  ghost predicate StagedSoFar(m: F.Market, x: F.Capacities, level: int, done: set<TierID>, used: int)
    requires F.Shaped(m, x)
  {
    && done <= m.parallelism.Keys
    && (forall t {:trigger G.StagedTier(m, x, level, t)} :: t in done ==> G.StagedTier(m, x, level, t))
    && (forall t {:trigger AtFloors(m, x, t)} :: t in m.parallelism && t !in done ==> AtFloors(m, x, t))
    && F.Total(m, x) == F.Total(m, F.Floors(m)) + used
  }

  ghost function RoomsOf(m: F.Market, x: F.Capacities, tiers: set<TierID>): map<TierID, int>
    requires F.Shaped(m, x) && tiers <= m.parallelism.Keys
  {
    map t | t in tiers :: m.parallelism[t] - F.TierTotal(m, x, t)
  }

  ghost predicate NonNegative(remaining: map<TierID, int>) {
    forall t :: t in remaining ==> 0 <= remaining[t]
  }

  /** What each filled tier may still take. */
  ghost predicate Rooms(m: F.Market, x: F.Capacities, remaining: map<TierID, int>)
    requires F.Shaped(m, x)
  {
    remaining.Keys <= m.parallelism.Keys && remaining == RoomsOf(m, x, remaining.Keys) && NonNegative(remaining)
  }

  ghost predicate Stage(m: F.Market, x: F.Capacities, level: int, used: int, remaining: map<TierID, int>)
    requires F.Shaped(m, x)
  {
    StagedSoFar(m, x, level, remaining.Keys, used) && Rooms(m, x, remaining)
  }

  lemma StageStarts(m: F.Market, x: F.Capacities, level: int)
    requires F.Shaped(m, x) && x == F.Floors(m)
    ensures Stage(m, x, level, 0, map[])
  {
  }

  lemma StageAdvances(m: F.Market, x: F.Capacities, y: F.Capacities, level: int, done: set<TierID>, used: int,
                      t: TierID, tierUsed: int)
    requires F.Shaped(m, x) && F.Shaped(m, y) && StagedSoFar(m, x, level, done, used)
    requires t in m.parallelism && t !in done && SameElsewhere(m, x, y, t) && G.StagedTier(m, y, level, t)
    requires F.TierTotal(m, y, t) == F.TierTotal(m, F.Floors(m), t) + tierUsed
    ensures StagedSoFar(m, y, level, done + {t}, used + tierUsed)
  {
    assert AtFloors(m, x, t);
    SumLe(F.Members(m, t), x, F.Floors(m));
    TotalMoves(m, x, y, t);
    forall s | s in done ensures G.StagedTier(m, y, level, s) {
      assert G.StagedTier(m, x, level, s);
      AgreeKeepsStage(m, x, y, s, level);
    }
    forall s | s in m.parallelism && s !in done + {t} ensures AtFloors(m, y, s) {
      assert AtFloors(m, x, s);
    }
  }

  lemma RoomsAdvance(m: F.Market, x: F.Capacities, y: F.Capacities, remaining: map<TierID, int>, t: TierID, left: int)
    requires F.Shaped(m, x) && F.Shaped(m, y) && Rooms(m, x, remaining) && SameElsewhere(m, x, y, t)
    requires t in m.parallelism && 0 <= left == m.parallelism[t] - F.TierTotal(m, y, t)
    ensures Rooms(m, y, remaining[t := left])
  {
    forall s | s in remaining && s != t ensures F.TierTotal(m, y, s) == F.TierTotal(m, x, s) {
      AgreeKeepsTotal(m, x, y, s);
    }
  }

  /** From `x` to `y` the entry's tier rose to the level on `tierUsed` credits, and nothing else moved. */
  ghost predicate Raises(m: F.Market, x: F.Capacities, y: F.Capacities, level: int, e: TierAllocation, tierUsed: int)
    requires F.Shaped(m, x) && F.Shaped(m, y)
  {
    match e
    case TierAllocation(t, budget, candidates) =>
      && t in m.parallelism && budget == G.TierBudget(m, t)
      && SameElsewhere(m, x, y, t) && G.StagedTier(m, y, level, t)
      && F.TierTotal(m, y, t) == F.TierTotal(m, F.Floors(m), t) + tierUsed
      && tierUsed == Min(W.Credits(candidates, level), budget)
  }

  method WriteEntry(ghost m: F.Market, plan: Plan, e: TierAllocation, level: nat)
    returns (p: Plan, tierUsed: int, visits: nat)
    requires F.WellFormed(m) && Entry(m, e) && Reflects(m.tierOf, m.parallelism.Keys, plan)
    requires F.Shaped(m, plan.desired) && AtFloors(m, plan.desired, e.tierID)
    ensures Reflects(m.tierOf, m.parallelism.Keys, p) && F.Shaped(m, p.desired)
    ensures Raises(m, plan.desired, p.desired, level, e, tierUsed)
    ensures tierUsed == Min(W.Credits(e.candidates, level), e.budget)
    ensures Few(0, visits, |e.candidates|, 4 + Log2Up(m.limit + 1))
    ensures p == plan.(desired := p.desired, byTier := p.byTier, totalAdvertised := p.totalAdvertised)
  {
    hide *;
    var capacities;
    capacities, tierUsed, visits := FillEntry(m, e, level);
    p := Write(m, plan, e.tierID, e.candidates, capacities);
    WrittenRaises(m, e, level, capacities, plan.desired, p.desired);
  }

  lemma WrittenRaises(m: F.Market, e: TierAllocation, level: int, capacities: seq<int>, x: F.Capacities, y: F.Capacities)
    requires F.WellFormed(m) && Entry(m, e) && |capacities| == |e.candidates|
    requires W.Filled(e.candidates, e.budget, level, capacities)
    requires W.Spent(e.candidates, capacities) == Min(W.Credits(e.candidates, level), e.budget)
    requires F.Shaped(m, x) && F.Shaped(m, y) && AtFloors(m, x, e.tierID) && Overlays(x, y, e.candidates, capacities)
    ensures Raises(m, x, y, level, e, W.Spent(e.candidates, capacities))
  {
    hide Sum, Distinct, ToSet;
    WrittenIsStaged(m, e, level, capacities, x, y);
  }

  lemma StageStep(m: F.Market, x: F.Capacities, y: F.Capacities, level: int, e: TierAllocation,
                  used: int, remaining: map<TierID, int>, tierUsed: int)
    requires F.Shaped(m, x) && F.Shaped(m, y) && Stage(m, x, level, used, remaining)
    requires Raises(m, x, y, level, e, tierUsed) && e.tierID !in remaining
    ensures Stage(m, y, level, used + tierUsed, remaining[e.tierID := e.budget - tierUsed])
  {
    hide Sum, Distinct, ToSet;
    StageAdvances(m, x, y, level, remaining.Keys, used, e.tierID, tierUsed);
    RoomsAdvance(m, x, y, remaining, e.tierID, e.budget - tierUsed);
    assert remaining[e.tierID := e.budget - tierUsed].Keys == remaining.Keys + {e.tierID};
  }

  lemma StillAtFloors(m: F.Market, x: F.Capacities, level: int, used: int, remaining: map<TierID, int>, e: TierAllocation)
    requires F.Shaped(m, x) && Entry(m, e) && Stage(m, x, level, used, remaining) && e.tierID !in remaining
    ensures AtFloors(m, x, e.tierID)
  {
  }

  method FillAndWrite(ghost m: F.Market, plan: Plan, e: TierAllocation, level: nat, used: int, remaining: map<TierID, int>)
    returns (p: Plan, used': int, remaining': map<TierID, int>, visits: nat)
    requires F.WellFormed(m) && Entry(m, e) && e.tierID !in remaining
    requires Reflects(m.tierOf, m.parallelism.Keys, plan) && F.Shaped(m, plan.desired)
    requires Stage(m, plan.desired, level, used, remaining)
    ensures Reflects(m.tierOf, m.parallelism.Keys, p) && F.Shaped(m, p.desired)
    ensures Stage(m, p.desired, level, used', remaining')
    ensures remaining'.Keys == remaining.Keys + {e.tierID}
    ensures used' == used + Min(W.Credits(e.candidates, level), e.budget)
    ensures Few(0, visits, |e.candidates|, 4 + Log2Up(m.limit + 1))
    ensures p == plan.(desired := p.desired, byTier := p.byTier, totalAdvertised := p.totalAdvertised)
  {
    hide *;
    StillAtFloors(m, plan.desired, level, used, remaining, e);
    var tierUsed;
    p, tierUsed, visits := WriteEntry(m, plan, e, level);
    StageStep(m, plan.desired, p.desired, level, e, used, remaining, tierUsed);
    used' := used + tierUsed;
    remaining' := remaining[e.tierID := e.budget - tierUsed];
  }

  /** The first `n` tiers have been raised, at the cost of `used` credits and `visits` looks. */
  ghost predicate Filling(m: F.Market, tiers: seq<TierAllocation>, n: nat, level: int,
                          used: int, done: set<TierID>, visits: nat)
    requires n <= |tiers|
  {
    && done == TierIDs(tiers[..n]) && used == CreditsAt(tiers[..n], level)
    && Few(0, visits, Size(tiers[..n]), 4 + Log2Up(m.limit + 1))
  }

  lemma FillingStarts(m: F.Market, tiers: seq<TierAllocation>, level: int)
    ensures Filling(m, tiers, 0, level, 0, {}, 0)
  {
    assert tiers[..0] == [];
    FewAtMost(0, 0, 0, 4 + Log2Up(m.limit + 1));
  }

  lemma FillingAdvances(m: F.Market, tiers: seq<TierAllocation>, n: nat, level: int,
                        used: int, done: set<TierID>, visits: nat, inspected: nat)
    requires F.WellFormed(m) && Entries(m, tiers) && n < |tiers| && Filling(m, tiers, n, level, used, done, visits)
    requires Few(0, inspected, |tiers[n].candidates|, 4 + Log2Up(m.limit + 1))
    ensures tiers[n].tierID !in done
    ensures Filling(m, tiers, n + 1, level, used + Min(W.Credits(tiers[n].candidates, level), tiers[n].budget),
                    done + {tiers[n].tierID}, visits + inspected)
  {
    hide Few, Distinct, ToSet, Sum;
    TierIDsGrow(m, tiers, n);
    SizeGrows(tiers, n);
    FewShifts(0, inspected, |tiers[n].candidates|, 4 + Log2Up(m.limit + 1), visits);
    FewTogether(0, visits, visits + inspected, Size(tiers[..n]), |tiers[n].candidates|, 4 + Log2Up(m.limit + 1));
  }

  lemma NextEntry(m: F.Market, tiers: seq<TierAllocation>, n: nat, level: int, used: int, done: set<TierID>, visits: nat)
    requires F.WellFormed(m) && Entries(m, tiers) && n < |tiers| && Filling(m, tiers, n, level, used, done, visits)
    ensures Entry(m, tiers[n]) && tiers[n].tierID !in done
  {
    TierIDsGrow(m, tiers, n);
  }

  /** Raises every tier that takes part to the level. */
  method FillTiers(ghost m: F.Market, plan: Plan, tiers: seq<TierAllocation>, level: nat)
    returns (p: Plan, used: int, remaining: map<TierID, int>, visits: nat)
    requires F.WellFormed(m) && Entries(m, tiers) && Reflects(m.tierOf, m.parallelism.Keys, plan)
    requires F.Shaped(m, plan.desired) && plan.desired == F.Floors(m)
    ensures Reflects(m.tierOf, m.parallelism.Keys, p) && F.Shaped(m, p.desired)
    ensures Stage(m, p.desired, level, used, remaining)
    ensures Filling(m, tiers, |tiers|, level, used, remaining.Keys, visits)
    ensures p == plan.(desired := p.desired, byTier := p.byTier, totalAdvertised := p.totalAdvertised)
  {
    hide *;
    p, used, remaining, visits := plan, 0, map[], 0;
    StageStarts(m, p.desired, level);
    FillingStarts(m, tiers, level);
    assert remaining.Keys == {};
    for index := 0 to |tiers|
      invariant Reflects(m.tierOf, m.parallelism.Keys, p) && F.Shaped(m, p.desired)
      invariant Stage(m, p.desired, level, used, remaining)
      invariant Filling(m, tiers, index, level, used, remaining.Keys, visits)
      invariant p == plan.(desired := p.desired, byTier := p.byTier, totalAdvertised := p.totalAdvertised)
    {
      NextEntry(m, tiers, index, level, used, remaining.Keys, visits);
      ghost var before, done := used, remaining.Keys;
      var inspected;
      p, used, remaining, inspected := FillAndWrite(m, p, tiers[index], level, used, remaining);
      FillingAdvances(m, tiers, index, level, before, done, visits, inspected);
      visits := visits + inspected;
    }
  }

  lemma TierIDsGrow(m: F.Market, tiers: seq<TierAllocation>, n: nat)
    requires F.WellFormed(m) && Entries(m, tiers) && n < |tiers|
    ensures tiers[n].tierID !in TierIDs(tiers[..n])
    ensures TierIDs(tiers[..n + 1]) == TierIDs(tiers[..n]) + {tiers[n].tierID}
    ensures forall level ::
              CreditsAt(tiers[..n + 1], level)
              == CreditsAt(tiers[..n], level) + Min(W.Credits(tiers[n].candidates, level), tiers[n].budget)
  {
    var longer := tiers[..n + 1];
    assert longer[..n] == tiers[..n] && longer[n] == tiers[n];
    assert forall i :: 0 <= i < n ==> longer[i] == tiers[..n][i] == tiers[i];
  }

  // ---- second pass: the remainder, in registration order ----

  /** Nobody in a tier that takes no part can be given a credit. */
  lemma IdleIsPassed(m: F.Market, x: F.Capacities, y: F.Capacities, level: int, n: nat, k: BindingKey)
    requires F.Shaped(m, x) && F.Shaped(m, y) && k in m.claims && G.Steps(m, x, y, level, n)
    requires Idle(m, m.tierOf[k]) && AtFloors(m, x, m.tierOf[k])
    ensures !F.Eligible(m, y, k)
  {
    var t := m.tierOf[k];
    assert k in F.Members(m, t);
    if G.TierBudget(m, t) <= 0 {
      SumLe(F.Members(m, t), F.Floors(m), y);
    }
  }

  lemma GrantKeepsRooms(m: F.Market, y: F.Capacities, remaining: map<TierID, int>, k: BindingKey)
    requires F.Shaped(m, y) && Rooms(m, y, remaining) && k in m.claims && m.tierOf[k] in remaining
    requires remaining[m.tierOf[k]] > 0
    ensures Rooms(m, F.Grant(y, k), remaining[m.tierOf[k] := remaining[m.tierOf[k]] - 1])
  {
    F.GrantTotals(m, y, k);
  }

  /** Tiers without an entry take no part. */
  ghost predicate OthersIdle(m: F.Market, x: F.Capacities, listed: set<TierID>)
    requires F.Shaped(m, x)
  {
    forall t {:trigger Idle(m, t)} :: t in m.parallelism && t !in listed ==> Idle(m, t) && AtFloors(m, x, t)
  }

  lemma IdleTurn(m: F.Market, x: F.Capacities, y: F.Capacities, level: int, n: nat, listed: set<TierID>)
    requires F.Shaped(m, x) && F.Shaped(m, y) && n < |m.order| && 0 < m.limit && F.Total(m, x) <= m.limit
    requires OthersIdle(m, x, listed) && G.Reached(m, x, y, level, n)
    ensures m.order[n] in m.claims
    ensures m.tierOf[m.order[n]] in listed || !F.Eligible(m, y, m.order[n])
  {
    hide G.Reached;
    var k := m.order[n];
    assert k in ToSet(m.order);
    if m.tierOf[k] !in listed {
      assert Idle(m, m.tierOf[k]);
      G.ReachedIs(m, x, y, level, n);
      G.HandOutHandsOut(m, x, level, n);
      IdleIsPassed(m, x, y, level, n, k);
    }
  }

  /** Whether a binding may take one of the credits left, as its turn comes. */
  method MayTake(ghost m: F.Market, y: F.Capacities, k: BindingKey, t: TierID, binding: Binding,
                 level: nat, byTier: map<TierID, int>)
    returns (takes: bool)
    requires F.Shaped(m, y) && k in m.claims && t == m.tierOf[k] && binding.Claim() == m.claims[k]
    requires Rooms(m, y, byTier) && F.InstanceRoom(m, y) && (t in byTier || !F.Eligible(m, y, k))
    ensures takes <==> F.Eligible(m, y, k) && y[k] == level
    ensures takes ==> t in byTier && 0 < byTier[t]
  {
    if t !in byTier || byTier[t] == 0 {
      return false;
    }
    return !(binding.held || y[k] != level || y[k] >= binding.assignedDemand);
  }

  /** Credits left after one was taken. */
  lemma TakenCredit(m: F.Market, y: F.Capacities, k: BindingKey, spare: int, byTier: map<TierID, int>)
    requires F.Shaped(m, y) && k in m.claims && Rooms(m, y, byTier)
    requires m.tierOf[k] in byTier && 0 < byTier[m.tierOf[k]] && spare == m.limit - F.Total(m, y)
    ensures Rooms(m, F.Grant(y, k), byTier[m.tierOf[k] := byTier[m.tierOf[k]] - 1])
    ensures spare - 1 == m.limit - F.Total(m, F.Grant(y, k))
    ensures byTier[m.tierOf[k] := byTier[m.tierOf[k]] - 1].Keys == byTier.Keys
  {
    F.GrantTotals(m, y, k);
    GrantKeepsRooms(m, y, byTier, k);
  }

  /** Writing a taken credit into the plan is the binding's turn. */
  lemma WrittenCredit(m: F.Market, y: F.Capacities, z: F.Capacities, k: BindingKey, level: nat, spare: int, byTier: map<TierID, int>)
    requires F.Shaped(m, y) && k in m.claims && F.Eligible(m, y, k) && y[k] == level && z == F.Grant(y, k)
    requires Rooms(m, y, byTier) && spare == m.limit - F.Total(m, y)
    requires m.tierOf[k] in byTier && 0 < byTier[m.tierOf[k]]
    ensures z == G.Turn(m, y, level, k) && spare - 1 == m.limit - F.Total(m, z)
    ensures Rooms(m, z, byTier[m.tierOf[k] := byTier[m.tierOf[k]] - 1])
  {
    TakenCredit(m, y, k, spare, byTier);
  }

  lemma SetIsGrant(m: F.Market, plan: Plan, k: BindingKey)
    requires Reflects(m.tierOf, m.parallelism.Keys, plan) && k in m.tierOf
    ensures Reflects(m.tierOf, m.parallelism.Keys, SetDesired(plan, m.tierOf[k], k, plan.desired[k] + 1))
    ensures SetDesired(plan, m.tierOf[k], k, plan.desired[k] + 1).desired == F.Grant(plan.desired, k)
  {
    SetReflects(m.tierOf, m.parallelism.Keys, plan, k, plan.desired[k] + 1);
  }

  method HandOutOne(ghost m: F.Market, plan: Plan, k: BindingKey, t: TierID, binding: Binding,
                    level: nat, spare: int, byTier: map<TierID, int>)
    returns (p: Plan, spare': int, byTier': map<TierID, int>)
    requires F.Shaped(m, plan.desired) && k in m.claims && t == m.tierOf[k] && binding.Claim() == m.claims[k]
    requires Reflects(m.tierOf, m.parallelism.Keys, plan) && Rooms(m, plan.desired, byTier)
    requires 0 < spare == m.limit - F.Total(m, plan.desired)
    requires t in byTier || !F.Eligible(m, plan.desired, k)
    ensures Reflects(m.tierOf, m.parallelism.Keys, p) && p.desired == G.Turn(m, plan.desired, level, k)
    ensures Rooms(m, p.desired, byTier') && byTier'.Keys == byTier.Keys
    ensures 0 <= spare' == m.limit - F.Total(m, p.desired)
    ensures p == plan.(desired := p.desired, byTier := p.byTier, totalAdvertised := p.totalAdvertised)
  {
    hide Distinct, ToSet, Sum;
    var takes := MayTake(m, plan.desired, k, t, binding, level, byTier);
    if !takes {
      return plan, spare, byTier;
    }
    SetIsGrant(m, plan, k);
    p := SetDesired(plan, t, k, plan.desired[k] + 1);
    spare', byTier' := spare - 1, byTier[t := byTier[t] - 1];
    WrittenCredit(m, plan.desired, p.desired, k, level, spare, byTier);
  }

  /** The first `n` bindings had their turn, `spare` credits are left to the instance and `byTier` to the tiers. */
  ghost predicate HandingOut(m: F.Market, x: F.Capacities, y: F.Capacities, level: int, n: nat,
                             spare: int, byTier: map<TierID, int>)
  {
    && F.Shaped(m, x) && F.Shaped(m, y) && n <= |m.order| && 0 < m.limit && F.Total(m, x) <= m.limit
    && G.Reached(m, x, y, level, n)
    && 0 <= spare == m.limit - F.Total(m, y)
    && Rooms(m, y, byTier) && OthersIdle(m, x, byTier.Keys)
  }

  /** The plan says so too. */
  ghost predicate HandedIn(m: F.Market, plan: Plan, p: Plan, pools: map<TierID, Pool>, level: int, n: nat,
                           spare: int, byTier: map<TierID, int>)
  {
    && HandingOut(m, plan.desired, p.desired, level, n, spare, byTier)
    && PoolsOf(m, pools) && Reflects(m.tierOf, m.parallelism.Keys, p)
    && p == plan.(desired := p.desired, byTier := p.byTier, totalAdvertised := p.totalAdvertised)
  }

  lemma HandingStarts(m: F.Market, plan: Plan, pools: map<TierID, Pool>, level: int, spare: int, byTier: map<TierID, int>)
    requires F.WellFormed(m) && PoolsOf(m, pools) && 0 < m.limit && Reflects(m.tierOf, m.parallelism.Keys, plan)
    requires 0 <= spare == m.limit - F.Total(m, plan.desired)
    requires Rooms(m, plan.desired, byTier) && OthersIdle(m, plan.desired, byTier.Keys)
    ensures HandedIn(m, plan, plan, pools, level, 0, spare, byTier)
  {
    G.ReachedIs(m, plan.desired, plan.desired, level, 0);
  }

  lemma HandingEnds(m: F.Market, plan: Plan, p: Plan, pools: map<TierID, Pool>, level: int, n: nat,
                    spare: int, byTier: map<TierID, int>)
    requires HandedIn(m, plan, p, pools, level, n, spare, byTier) && (n == |m.order| || spare == 0)
    ensures Reflects(m.tierOf, m.parallelism.Keys, p)
    ensures G.Reached(m, plan.desired, p.desired, level, |m.order|)
    ensures p == plan.(desired := p.desired, byTier := p.byTier, totalAdvertised := p.totalAdvertised)
  {
    hide G.Reached;
    if n < |m.order| {
      G.HandOutStops(m, plan.desired, p.desired, level, n, |m.order|);
    }
  }

  lemma HandingAdvances(m: F.Market, x: F.Capacities, y: F.Capacities, z: F.Capacities, level: int, n: nat,
                        spare: int, byTier: map<TierID, int>)
    requires F.Shaped(m, x) && F.Shaped(m, y) && n < |m.order| && m.order[n] in m.claims
    requires 0 < m.limit && F.Total(m, x) <= m.limit && OthersIdle(m, x, byTier.Keys)
    requires G.Reached(m, x, y, level, n) && z == G.Turn(m, y, level, m.order[n])
    requires 0 <= spare == m.limit - F.Total(m, z) && Rooms(m, z, byTier)
    ensures HandingOut(m, x, z, level, n + 1, spare, byTier)
  {
    hide G.Reached;
    G.TurnReaches(m, x, y, z, level, n);
  }

  /** One more binding's turn. */
  method HandOutNext(ghost m: F.Market, ghost plan: Plan, p: Plan, ghost n: nat, k: BindingKey, tierOf: map<BindingKey, TierID>,
                     pools: map<TierID, Pool>, level: nat, spare: int, byTier: map<TierID, int>)
    returns (p': Plan, spare': int, byTier': map<TierID, int>)
    requires HandedIn(m, plan, p, pools, level, n, spare, byTier) && 0 < spare
    requires n < |m.order| && k == m.order[n] && tierOf == m.tierOf
    ensures HandedIn(m, plan, p', pools, level, n + 1, spare', byTier') && 0 <= spare'
  {
    PoolHasMember(m, pools, k);
    var t := tierOf[k];
    IdleTurn(m, plan.desired, p.desired, level, n, byTier.Keys);
    p', spare', byTier' := HandOutOne(m, p, k, t, pools[t].state[k], level, spare, byTier);
    HandingAdvances(m, plan.desired, p.desired, p'.desired, level, n, spare', byTier');
  }

  method HandOutRest(ghost m: F.Market, plan: Plan, order: seq<BindingKey>, tierOf: map<BindingKey, TierID>,
                     pools: map<TierID, Pool>, level: nat, spare: int, byTier: map<TierID, int>)
    returns (p: Plan)
    requires F.WellFormed(m) && order == m.order && tierOf == m.tierOf && PoolsOf(m, pools) && 0 < m.limit
    requires Reflects(m.tierOf, m.parallelism.Keys, plan)
    requires 0 <= spare == m.limit - F.Total(m, plan.desired)
    requires Rooms(m, plan.desired, byTier) && OthersIdle(m, plan.desired, byTier.Keys)
    ensures Reflects(m.tierOf, m.parallelism.Keys, p)
    ensures G.Reached(m, plan.desired, p.desired, level, |m.order|)
    ensures p == plan.(desired := p.desired, byTier := p.byTier, totalAdvertised := p.totalAdvertised)
  {
    hide G.Reached;
    HandingStarts(m, plan, pools, level, spare, byTier);
    var n, remaining, remainingByTier;
    p, n, remaining, remainingByTier := HandOutUntil(m, plan, order, tierOf, pools, level, spare, byTier);
    HandingEnds(m, plan, p, pools, level, n, remaining, remainingByTier);
  }

  /** Stops when the instance has nothing left. */
  method HandOutUntil(ghost m: F.Market, plan: Plan, order: seq<BindingKey>, tierOf: map<BindingKey, TierID>,
                      pools: map<TierID, Pool>, level: nat, spare: int, byTier: map<TierID, int>)
    returns (p: Plan, index: nat, remaining: int, remainingByTier: map<TierID, int>)
    requires order == m.order && tierOf == m.tierOf && HandedIn(m, plan, plan, pools, level, 0, spare, byTier) && 0 <= spare
    ensures index <= |order| && HandedIn(m, plan, p, pools, level, index, remaining, remainingByTier)
    ensures index == |order| || remaining == 0
  {
    hide *;
    p, index, remaining, remainingByTier := plan, 0, spare, byTier;
    for i := 0 to |order|
      invariant index == i && 0 <= remaining
      invariant HandedIn(m, plan, p, pools, level, index, remaining, remainingByTier)
    {
      if remaining == 0 {
        return;
      }
      p, remaining, remainingByTier :=
        HandOutNext(m, plan, p, index, order[index], tierOf, pools, level, remaining, remainingByTier);
      index := i + 1;
    }
  }

  lemma PoolHasMember(m: F.Market, pools: map<TierID, Pool>, k: BindingKey)
    requires F.WellFormed(m) && PoolsOf(m, pools) && k in m.order
    ensures k in m.tierOf && m.tierOf[k] in pools
    ensures k in pools[m.tierOf[k]].state && pools[m.tierOf[k]].state[k].Claim() == m.claims[k]
  {
    assert k in ToSet(m.order);
    assert PoolOf(m, m.tierOf[k], pools[m.tierOf[k]]);
    assert k in F.Members(m, m.tierOf[k]);
  }

  // ---- the level was the right one ----

  lemma {:induction false} CreditsAreGained(cs: seq<W.Candidate>, level: int, g: map<BindingKey, int>)
    requires L.KeysOf(cs) <= g.Keys
    requires forall i, j :: 0 <= i < j < |cs| ==> cs[i].key != cs[j].key
    requires forall i :: 0 <= i < |cs| ==> W.Lift(cs[i], level) <= g[cs[i].key]
    ensures W.Credits(cs, level) <= Sum(L.KeysOf(cs), g)
  {
    if cs == [] {
    } else {
      var n := |cs| - 1;
      var k := cs[n].key;
      assert k in L.KeysOf(cs) && k !in L.KeysOf(cs[..n]);
      assert L.KeysOf(cs) - {k} == L.KeysOf(cs[..n]);
      CreditsAreGained(cs[..n], level, g);
      SumPick(L.KeysOf(cs), g, k);
    }
  }

  /** A tier that is full or reached the level gained at least what the level costs it. */
  lemma ReachedTierGains(m: F.Market, y: F.Capacities, e: TierAllocation, level: int)
    requires F.Shaped(m, y) && Entry(m, e) && G.AboveFloors(m, y) && G.ReachedTier(m, y, level, e.tierID)
    ensures Min(W.Credits(e.candidates, level), e.budget) <= Sum(F.Members(m, e.tierID), L.Gains(m, y))
  {
    var t, g := e.tierID, L.Gains(m, y);
    if F.TierRoom(m, y, t) {
      CreditsAreGained(e.candidates, level, g);
      var rest := F.Members(m, t) - L.KeysOf(e.candidates);
      SumUnion(L.KeysOf(e.candidates), rest, g);
      SumNonNegative(rest, g);
      assert L.KeysOf(e.candidates) + rest == F.Members(m, t);
    } else {
      L.GainsOf(m, y, F.Members(m, t));
    }
  }

  ghost function MembersOf(m: F.Market, ids: set<TierID>): set<BindingKey> {
    set k | k in m.tierOf && m.tierOf[k] in ids
  }

  lemma {:induction false} ReachedTiersGain(m: F.Market, y: F.Capacities, tiers: seq<TierAllocation>, level: int)
    requires F.Shaped(m, y) && Entries(m, tiers) && G.AboveFloors(m, y)
    requires forall t :: t in m.parallelism ==> G.ReachedTier(m, y, level, t)
    ensures CreditsAt(tiers, level) <= Sum(MembersOf(m, TierIDs(tiers)), L.Gains(m, y))
  {
    hide Distinct;
    if tiers == [] {
      assert MembersOf(m, TierIDs(tiers)) == {};
    } else {
      var n := |tiers| - 1;
      assert tiers[..n + 1] == tiers;
      TierIDsGrow(m, tiers, n);
      ReachedTiersGain(m, y, tiers[..n], level);
      assert Entry(m, tiers[n]);
      ReachedTierGains(m, y, tiers[n], level);
      SumUnion(MembersOf(m, TierIDs(tiers[..n])), F.Members(m, tiers[n].tierID), L.Gains(m, y));
      assert MembersOf(m, TierIDs(tiers)) == MembersOf(m, TierIDs(tiers[..n])) + F.Members(m, tiers[n].tierID);
    }
  }

  /** A level the instance cannot pay for in every tier is one it cannot reach in every tier. */
  lemma DearLevelOverflows(m: F.Market, y: F.Capacities, tiers: seq<TierAllocation>, level: int)
    requires F.Shaped(m, y) && Entries(m, tiers) && G.AboveFloors(m, y) && G.Budget(m) < CreditsAt(tiers, level)
    ensures G.Overflows(m, y, level)
  {
    hide Sum;
    if forall t :: t in m.parallelism ==> G.ReachedTier(m, y, level, t) {
      var g, ids := L.Gains(m, y), TierIDs(tiers);
      ReachedTiersGain(m, y, tiers, level);
      var rest := F.Keys(m) - MembersOf(m, ids);
      SumUnion(MembersOf(m, ids), rest, g);
      SumNonNegative(rest, g);
      assert MembersOf(m, ids) + rest == F.Keys(m);
      L.GainsOf(m, y, F.Keys(m));
    }
  }

  lemma HighestLevelIsTop(m: F.Market, tiers: seq<TierAllocation>, minimum: nat, maximum: nat)
    requires F.WellFormed(m) && Gathered(m, tiers, minimum, maximum, m.parallelism.Keys)
    ensures G.Top(m, maximum)
  {
    forall k | k in m.claims && L.Candidate(m, k) && G.TierBudget(m, m.tierOf[k]) > 0
      ensures G.ClipOf(m, k) <= maximum
    {
      var t := m.tierOf[k];
      assert k in F.Members(m, t) && !Idle(m, t);
      var i :| 0 <= i < |tiers| && tiers[i].tierID == t;
      assert Entry(m, tiers[i]);
      var c :| 0 <= c < |tiers[i].candidates| && tiers[i].candidates[c].key == k;
    }
  }

  /** Nobody can be given a credit: running work is the whole distribution. */
  lemma NothingToShare(m: F.Market, x: F.Capacities)
    requires F.WellFormed(m) && x == F.Floors(m)
    requires (0 < m.limit && G.Budget(m) <= 0) || (forall t :: t in m.parallelism ==> Idle(m, t))
    ensures x == F.Distribution(m)
  {
    forall k | k in m.claims ensures !F.Eligible(m, x, k) {
      var t := m.tierOf[k];
      assert k in F.Members(m, t);
      if forall t :: t in m.parallelism ==> Idle(m, t) {
        assert Idle(m, t);
      }
    }
    F.FairIsDistribution(m, x);
  }

  lemma FilledTiersAreStaged(m: F.Market, tiers: seq<TierAllocation>, minimum: nat, maximum: nat,
                             x: F.Capacities, level: int, used: int, remaining: map<TierID, int>)
    requires F.Shaped(m, x) && Gathered(m, tiers, minimum, maximum, m.parallelism.Keys)
    requires Stage(m, x, level, used, remaining) && remaining.Keys == TierIDs(tiers)
    requires 0 < m.limit && 0 < G.Budget(m)
    ensures G.Staged(m, x, level) && OthersIdle(m, x, remaining.Keys)
  {
    forall t | t in m.parallelism ensures G.StagedTier(m, x, level, t) {
      if t !in remaining {
        assert Idle(m, t) && AtFloors(m, x, t);
        IdleIsStaged(m, x, t, level);
      }
    }
    forall t | t in m.parallelism && t !in remaining ensures Idle(m, t) && AtFloors(m, x, t) {
    }
  }

  lemma HandOutIsDistribution(m: F.Market, tiers: seq<TierAllocation>, minimum: nat, maximum: nat,
                              x: F.Capacities, level: int)
    requires F.Shaped(m, x) && Gathered(m, tiers, minimum, maximum, m.parallelism.Keys)
    requires G.Staged(m, x, level) && F.Total(m, x) <= m.limit
    requires level == maximum || CreditsAt(tiers, level + 1) > G.Budget(m)
    ensures G.HandOut(m, x, level, |m.order|) == F.Distribution(m)
  {
    var y := G.HandOut(m, x, level, |m.order|);
    G.HandOutHandsOut(m, x, level, |m.order|);
    G.HandedOutIsBounded(m, x, y, level);
    if level == maximum {
      HighestLevelIsTop(m, tiers, minimum, maximum);
    } else {
      DearLevelOverflows(m, y, tiers, level + 1);
    }
    G.HandedOutIsDistribution(m, x, y, level);
  }

  // ---- how much work it was ----

  lemma {:induction false} KeysAreAsMany(cs: seq<W.Candidate>)
    requires forall i, j :: 0 <= i < j < |cs| ==> cs[i].key != cs[j].key
    ensures |L.KeysOf(cs)| == |cs|
  {
    if cs != [] {
      var n := |cs| - 1;
      KeysAreAsMany(cs[..n]);
      assert cs[n].key !in L.KeysOf(cs[..n]);
      assert L.KeysOf(cs) == L.KeysOf(cs[..n]) + {cs[n].key};
    }
  }

  lemma DisjointParts<T>(a: set<T>, b: set<T>, whole: set<T>)
    requires a !! b && a <= whole && b <= whole
    ensures |a| + |b| <= |whole|
  {
    assert whole == a + b + (whole - (a + b));
  }

  /** Candidates of different tiers are different bindings. */
  lemma {:induction false} SizeWithinMembers(m: F.Market, tiers: seq<TierAllocation>)
    requires F.WellFormed(m) && Entries(m, tiers)
    ensures Size(tiers) <= |MembersOf(m, TierIDs(tiers))|
  {
    if tiers != [] {
      var n := |tiers| - 1;
      SizeWithinMembers(m, tiers[..n]);
      EntryAddsMembers(m, tiers, n);
    }
  }

  lemma EntryAddsMembers(m: F.Market, tiers: seq<TierAllocation>, n: nat)
    requires F.WellFormed(m) && Entries(m, tiers) && n + 1 == |tiers|
    ensures |MembersOf(m, TierIDs(tiers[..n]))| + |tiers[n].candidates| <= |MembersOf(m, TierIDs(tiers))|
  {
    assert tiers[..n + 1] == tiers;
    TierIDsGrow(m, tiers, n);
    assert Entry(m, tiers[n]);
    KeysAreAsMany(tiers[n].candidates);
    DisjointParts(MembersOf(m, TierIDs(tiers[..n])), L.KeysOf(tiers[n].candidates), MembersOf(m, TierIDs(tiers)));
  }

  lemma SizeWithinOrder(m: F.Market, tiers: seq<TierAllocation>)
    requires F.WellFormed(m) && Entries(m, tiers)
    ensures Size(tiers) <= |m.order|
  {
    SizeWithinMembers(m, tiers);
    DistinctCount(m.order);
    var members := MembersOf(m, TierIDs(tiers));
    assert ToSet(m.order) == members + (ToSet(m.order) - members);
  }

  /** One search over all tiers, one in each, and the hand-out: a logarithm of the limit per binding. */
  lemma WorkAddsUp(m: F.Market, tiers: seq<TierAllocation>, minimum: nat, maximum: nat, searched: nat, inspected: nat)
    requires F.WellFormed(m) && Entries(m, tiers) && minimum <= maximum <= m.limit
    requires Few(0, searched, Size(tiers), 1 + Log2Up(maximum - minimum + 1))
    requires Few(0, inspected, Size(tiers), 4 + Log2Up(m.limit + 1))
    ensures Few(0, searched + inspected + |m.order|, |m.order|, 6 + 2 * Log2Up(m.limit + 1))
  {
    hide Few;
    var n, rounds := |m.order|, Log2Up(m.limit + 1);
    SizeWithinOrder(m, tiers);
    Log2UpMonotone(maximum - minimum + 1, m.limit + 1);
    FewWidens(0, searched, Size(tiers), n, 1 + Log2Up(maximum - minimum + 1), 1 + rounds);
    FewWidens(0, inspected, Size(tiers), n, 4 + rounds, 4 + rounds);
    FewShifts(0, inspected, n, 4 + rounds, searched);
    FewInTurn(0, searched, searched + inspected, n, 1 + rounds, 4 + rounds);
    FewAtMost(searched + inspected, searched + inspected + n, n, 1);
    FewInTurn(0, searched + inspected, searched + inspected + n, n, 5 + 2 * rounds, 1);
  }

  /** Both passes, once the tiers that take part are known. */
  method ShareInstance(ghost m: F.Market, plan: Plan, order: seq<BindingKey>, tierOf: map<BindingKey, TierID>,
                       pools: map<TierID, Pool>, tiers: seq<TierAllocation>, minimum: nat, maximum: nat, budget: nat)
    returns (p: Plan)
    requires F.WellFormed(m) && order == m.order && tierOf == m.tierOf && PoolsOf(m, pools) && 0 < m.limit
    requires Reflects(m.tierOf, m.parallelism.Keys, plan) && plan.desired == F.Floors(m)
    requires Gathered(m, tiers, minimum, maximum, m.parallelism.Keys) && tiers != [] && 0 < budget == G.Budget(m)
    ensures Reflects(m.tierOf, m.parallelism.Keys, p) && p.desired == F.Distribution(m)
    ensures p == plan.(desired := p.desired, byTier := p.byTier, totalAdvertised := p.totalAdvertised,
                       allocationVisits := p.allocationVisits)
    ensures Few(plan.allocationVisits, p.allocationVisits, |order|, 6 + 2 * Log2Up(m.limit + 1))
  {
    hide Few, G.HandOut, G.Turn, G.Reached, F.Distribution, CreditsAt, Size, Sum, Log2Up, Reflects, PoolsOf, Idle;
    CreditsAtFloors(tiers, minimum);
    var level, searched := InstanceLevel(tiers, budget, minimum, maximum);
    var filled, used, remaining, inspected := FillTiers(m, plan, tiers, level);
    assert tiers[..|tiers|] == tiers;
    FilledTiersAreStaged(m, tiers, minimum, maximum, filled.desired, level, used, remaining);
    HandOutIsDistribution(m, tiers, minimum, maximum, filled.desired, level);
    p := HandOutRest(m, filled, order, tierOf, pools, level, budget - used, remaining);
    G.ReachedIs(m, filled.desired, p.desired, level, |order|);
    WorkReflects(m.tierOf, m.parallelism.Keys, p, p.allocationVisits + searched + inspected + |order|);
    p := p.(allocationVisits := p.allocationVisits + searched + inspected + |order|);
    WorkAddsUp(m, tiers, minimum, maximum, searched, inspected);
    FewShifts(0, searched + inspected + |order|, |order|, 6 + 2 * Log2Up(m.limit + 1), plan.allocationVisits);
  }

  /** Shares the instance's free credits across tiers, each within its own parallelism. */
  method AllocateGlobal(ghost m: F.Market, plan: Plan, order: seq<BindingKey>, tierOf: map<BindingKey, TierID>,
                        pools: map<TierID, Pool>, globalParallelism: nat, activeCount: int)
    returns (p: Plan)
    requires F.WellFormed(m) && order == m.order && tierOf == m.tierOf && PoolsOf(m, pools)
    requires 0 < globalParallelism == m.limit && activeCount == F.Total(m, F.Floors(m))
    requires Reflects(m.tierOf, m.parallelism.Keys, plan) && plan.desired == F.Floors(m)
    ensures Reflects(m.tierOf, m.parallelism.Keys, p) && p.desired == F.Distribution(m)
    ensures p == plan.(desired := p.desired, byTier := p.byTier, totalAdvertised := p.totalAdvertised,
                       allocationVisits := p.allocationVisits)
    ensures Few(plan.allocationVisits, p.allocationVisits, |order|, 6 + 2 * Log2Up(globalParallelism + 1))
  {
    hide Few, Sum;
    var budget := globalParallelism - activeCount;
    FewAtMost(plan.allocationVisits, plan.allocationVisits, |order|, 6 + 2 * Log2Up(globalParallelism + 1));
    if budget <= 0 {
      NothingToShare(m, plan.desired);
      return plan;
    }
    var tiers, minimum, maximum := GatherTiers(m, pools, budget);
    if tiers == [] {
      assert TierIDs(tiers) == {};
      NothingToShare(m, plan.desired);
      return plan;
    }
    p := ShareInstance(m, plan, order, tierOf, pools, tiers, minimum, maximum, budget);
  }
}
