/**
 Building an allocation plan from the allocator's state.

 `Desired` is the promise: running work, then the credit-at-a-time distribution, then one
 discovery credit out of what is still idle. `BuildPlan` is the batch computation, and its
 contract is that promise, whatever order the pools are met in.
 */
module Planning {
  import opened Base
  import opened Sums
  import opened Ledger
  import F = Fairness
  import L = Levelling
  import G = GlobalLevelling
  import W = WaterFill
  import opened Work

  datatype Plan = Plan(
    generation: nat,
    desired: F.Capacities,
    byTier: map<TierID, F.Capacities>,
    discoveryByTier: map<TierID, BindingKey>,
    totalAdvertised: int,
    allocationVisits: nat)

  // ---- the promise ----

  ghost function Shares(v: View): (x: F.Capacities)
    requires ValidView(v)
    ensures x.Keys == v.bindings.Keys
  {
    MarketIsWellFormed(v);
    F.Distribution(MarketOf(v))
  }

  /** Whose turn it is in the ring. */
  function HolderOf(r: Ring): Option<BindingKey> {
    if r.cursor < |r.order| then Some(r.order[r.cursor]) else None
  }

  /** `k` holds the discovery credit of its ring: the instance's, or its tier's. */
  ghost predicate Holds(v: View, k: BindingKey)
    requires ValidView(v) && k in v.bindings
  {
    Some(k) == HolderOf(if v.limit > 0 then v.ring else v.rings[v.tierOf[k]])
  }

  /** Idle capacity is left for `k` to look at its own queue with. */
  ghost predicate Funded(v: View, x: F.Capacities, k: BindingKey)
    requires ValidView(v) && k in v.bindings && x.Keys == v.bindings.Keys
  {
    && v.bindings[k].Silent()
    && Sum(Members(v, v.tierOf[k]), x) < v.parallelism[v.tierOf[k]]
    && (v.limit > 0 ==> Sum(v.bindings.Keys, x) < v.limit)
  }

  ghost function DesiredFor(v: View, k: BindingKey): int
    requires ValidView(v) && k in v.bindings
  {
    if Holds(v, k) && Funded(v, Shares(v), k) then 1 else Shares(v)[k]
  }

  ghost function Desired(v: View): (d: F.Capacities)
    requires ValidView(v)
    ensures d.Keys == v.bindings.Keys
  {
    map k | k in v.bindings :: DesiredFor(v, k)
  }

  /** Whose turn it is to look at its queue, in each ring. */
  ghost function Discoveries(v: View): map<TierID, BindingKey>
    requires ValidView(v)
  {
    if v.limit == 0 then map t | t in v.rings && HolderOf(v.rings[t]).Some? :: HolderOf(v.rings[t]).value
    else
      match HolderOf(v.ring)
      case None => map[]
      case Some(k) => assert k in ToSet(v.ring.order); map[v.tierOf[k] := k]
  }

  /** The plan's three ways of telling the capacities agree. */
  ghost predicate Reflects(tierOf: map<BindingKey, TierID>, tiers: set<TierID>, p: Plan) {
    match p
    case Plan(_, desired, byTier, _, totalAdvertised, _) =>
      && desired.Keys == tierOf.Keys
      && byTier.Keys == tiers
      && (forall k :: k in tierOf ==> tierOf[k] in tiers)
      && (forall k {:trigger byTier[tierOf[k]]} :: k in tierOf ==> k in byTier[tierOf[k]])
      && (forall t, k {:trigger k in byTier[t]} {:trigger byTier[t][k]} :: t in tiers && k in byTier[t] ==>
           k in tierOf && tierOf[k] == t && byTier[t][k] == desired[k])
      && totalAdvertised == Sum(tierOf.Keys, desired)
  }

  /** What a plan says is what the state promises; the visit count is not part of it. */
  ghost predicate PlanOf(v: View, p: Plan)
    requires ValidView(v)
  {
    && Reflects(v.tierOf, v.parallelism.Keys, p)
    && p.desired == Desired(v)
    && p.discoveryByTier == Discoveries(v)
  }

  // ---- the computation ----

  /** A map is walked in an order of its own; nothing may depend on which. */
  method InSomeOrder<T(==)>(s: set<T>) returns (r: seq<T>)
    ensures Distinct(r) && ToSet(r) == s
  {
    r := [];
    var todo := s;
    while todo != {}
      invariant Distinct(r) && ToSet(r) + todo == s && ToSet(r) !! todo
      decreases |todo|
    {
      var x :| x in todo;
      todo := todo - {x};
      r := r + [x];
    }
  }

  lemma SeenGrows<T>(r: seq<T>, n: nat)
    requires Distinct(r) && n < |r|
    ensures r[n] !in ToSet(r[..n]) && ToSet(r[..n + 1]) == ToSet(r[..n]) + {r[n]}
  {
    assert r[..n + 1] == r[..n] + [r[n]];
  }

  function SetDesired(p: Plan, t: TierID, k: BindingKey, capacity: int): Plan
    requires k in p.desired && t in p.byTier
  {
    var tier: F.Capacities := p.byTier[t][k := capacity];
    p.(desired := p.desired[k := capacity],
       byTier := p.byTier[t := tier],
       totalAdvertised := p.totalAdvertised + capacity - p.desired[k])
  }

  /** How much work it was is no part of what a plan says. */
  lemma WorkReflects(tierOf: map<BindingKey, TierID>, tiers: set<TierID>, p: Plan, visits: nat)
    requires Reflects(tierOf, tiers, p)
    ensures Reflects(tierOf, tiers, p.(allocationVisits := visits))
  {
  }

  lemma SetReflects(tierOf: map<BindingKey, TierID>, tiers: set<TierID>, p: Plan, k: BindingKey, capacity: int)
    requires Reflects(tierOf, tiers, p) && k in tierOf
    ensures Reflects(tierOf, tiers, SetDesired(p, tierOf[k], k, capacity))
  {
    hide Sum;
    SumUpdate(tierOf.Keys, p.desired, k, capacity);
  }

  ghost predicate Listed(order: seq<BindingKey>, state: map<BindingKey, Binding>, budget: int, c: W.Candidate) {
    && c.key in order && c.key in state
    && Hungry(state[c.key])
    && c.floor == state[c.key].active
    && c.ceiling == c.floor + Min(state[c.key].assignedDemand - c.floor, budget)
  }

  predicate Hungry(b: Binding) { !b.held && b.active < b.assignedDemand }

  /** The bindings that want more than they hold, in order, with their demand clipped to the budget. */
  ghost predicate Picks(order: seq<BindingKey>, state: map<BindingKey, Binding>, budget: int, cs: seq<W.Candidate>) {
    && (forall i :: 0 <= i < |cs| ==> Listed(order, state, budget, cs[i]))
    && (forall i, j :: 0 <= i < j < |cs| ==> Rank(order, cs[i].key) < Rank(order, cs[j].key))
    && (forall k :: k in state && Hungry(state[k]) ==> exists i :: 0 <= i < |cs| && cs[i].key == k)
  }

  method AllocationCandidates(order: seq<BindingKey>, state: map<BindingKey, Binding>, budget: int)
    returns (cs: seq<W.Candidate>)
    requires Distinct(order) && ToSet(order) == state.Keys && 0 < budget
    ensures Picks(order, state, budget, cs) && |cs| <= |order|
  {
    hide Distinct;
    cs := [];
    for index := 0 to |order|
      invariant |cs| <= index
      invariant forall i :: 0 <= i < |cs| ==> Listed(order, state, budget, cs[i]) && Rank(order, cs[i].key) < index
      invariant forall i, j :: 0 <= i < j < |cs| ==> Rank(order, cs[i].key) < Rank(order, cs[j].key)
      invariant forall a :: 0 <= a < index && Hungry(state[order[a]]) ==> exists i :: 0 <= i < |cs| && cs[i].key == order[a]
    {
      var binding := state[order[index]];
      RankAt(order, index);
      if binding.held || binding.assignedDemand <= binding.active {
        continue;
      }
      var headroom := binding.assignedDemand - binding.active;
      if headroom > budget {
        headroom := budget;
      }
      ghost var before := cs;
      cs := cs + [W.Candidate(order[index], binding.active, binding.active + headroom)];
      assert cs[|before|].key == order[index];
      assert forall i :: 0 <= i < |before| ==> cs[i] == before[i];
    }
    forall k | k in state && Hungry(state[k]) ensures exists i :: 0 <= i < |cs| && cs[i].key == k {
      assert order[Rank(order, k)] == k;
    }
  }

  /** The tier's bindings, each once, and what they claim. */
  ghost predicate Roster(m: F.Market, t: TierID, order: seq<BindingKey>, state: map<BindingKey, Binding>) {
    && Distinct(order) && ToSet(order) == state.Keys == F.Members(m, t) <= m.claims.Keys
    && (forall k :: k in state ==> m.claims[k] == state[k].Claim())
  }

  /** `pool` is tier `t` of the market. */
  ghost predicate PoolOf(m: F.Market, t: TierID, pool: Pool) {
    && F.WellFormed(m)
    && t in m.parallelism && m.parallelism[t] == pool.parallelism
    && Roster(m, t, pool.order, pool.state)
    && SameOrder(pool.order, m.order)
    && pool.active == F.TierTotal(m, F.Floors(m), t)
  }

  lemma PicksIsLists(m: F.Market, t: TierID, pool: Pool, budget: int, cs: seq<W.Candidate>)
    requires PoolOf(m, t, pool) && Picks(pool.order, pool.state, budget, cs)
    ensures L.Lists(m, t, budget, cs)
    ensures forall i, j :: 0 <= i < j < |cs| ==> cs[i].key != cs[j].key
  {
    hide Distinct, ToSet, Sum;
    forall i, j | 0 <= i < j < |cs| ensures Rank(m.order, cs[i].key) < Rank(m.order, cs[j].key) {
      var a, b := Rank(pool.order, cs[i].key), Rank(pool.order, cs[j].key);
      assert pool.order[a] == cs[i].key && pool.order[b] == cs[j].key;
    }
    forall k | k in F.Members(m, t) && L.Candidate(m, k) ensures exists i :: 0 <= i < |cs| && cs[i].key == k {
      assert Hungry(pool.state[k]);
    }
  }

  /** A tier's candidates for `budget` credits. */
  method CandidatesOf(ghost m: F.Market, t: TierID, pool: Pool, budget: int) returns (cs: seq<W.Candidate>)
    requires PoolOf(m, t, pool) && 0 < budget
    ensures L.Lists(m, t, budget, cs) && |cs| <= |pool.order|
    ensures forall i, j :: 0 <= i < j < |cs| ==> cs[i].key != cs[j].key
  {
    cs := AllocationCandidates(pool.order, pool.state, budget);
    PicksIsLists(m, t, pool, budget, cs);
  }

  /** `x` is `base` with the candidates' capacities written over it. */
  ghost predicate Overlays(base: F.Capacities, x: F.Capacities, cs: seq<W.Candidate>, capacities: seq<int>)
    requires |capacities| == |cs|
  {
    && x.Keys == base.Keys
    && (forall i :: 0 <= i < |cs| ==> cs[i].key in x && x[cs[i].key] == capacities[i])
    && (forall k :: k in x && k !in L.KeysOf(cs) ==> x[k] == base[k])
  }

  lemma OverlayOne(base: F.Capacities, x: F.Capacities, cs: seq<W.Candidate>, capacities: seq<int>, n: nat)
    requires |capacities| == |cs| && n < |cs| && Overlays(base, x, cs[..n], capacities[..n])
    requires cs[n].key in x && 0 <= capacities[n]
    requires forall i, j :: 0 <= i < j < |cs| ==> cs[i].key != cs[j].key
    ensures Overlays(base, x[cs[n].key := capacities[n]], cs[..n + 1], capacities[..n + 1])
  {
    hide Sum;
    var key := cs[n].key;
    assert forall k :: k in L.KeysOf(cs[..n]) ==> k in L.KeysOf(cs[..n + 1]) by {
      forall k | k in L.KeysOf(cs[..n]) ensures k in L.KeysOf(cs[..n + 1]) {
        var i :| 0 <= i < n && cs[..n][i].key == k;
        assert cs[..n + 1][i].key == k;
      }
    }
    assert cs[..n + 1][n].key == key;
    forall i | 0 <= i < n ensures cs[..n + 1][i].key != key && cs[..n + 1][i] == cs[..n][i] {
    }
  }

  lemma OverlaysNone(base: F.Capacities)
    ensures Overlays(base, base, [], [])
  {
  }

  method ApplyCapacities(ghost tierOf: map<BindingKey, TierID>, plan: Plan, t: TierID,
                         cs: seq<W.Candidate>, capacities: seq<int>)
    returns (p: Plan)
    requires Reflects(tierOf, plan.byTier.Keys, plan) && |capacities| == |cs|
    requires forall i :: 0 <= i < |cs| ==> cs[i].key in tierOf && tierOf[cs[i].key] == t && 0 <= capacities[i]
    requires forall i, j :: 0 <= i < j < |cs| ==> cs[i].key != cs[j].key
    ensures Reflects(tierOf, plan.byTier.Keys, p) && Overlays(plan.desired, p.desired, cs, capacities)
    ensures p == plan.(desired := p.desired, byTier := p.byTier, totalAdvertised := p.totalAdvertised)
  {
    hide Sum, L.KeysOf;
    p := plan;
    OverlaysNone(plan.desired);
    assert cs[..0] == [] && capacities[..0] == [];
    for index := 0 to |cs|
      invariant Reflects(tierOf, plan.byTier.Keys, p)
      invariant Overlays(plan.desired, p.desired, cs[..index], capacities[..index])
      invariant p == plan.(desired := p.desired, byTier := p.byTier, totalAdvertised := p.totalAdvertised)
    {
      SetReflects(tierOf, plan.byTier.Keys, p, cs[index].key, capacities[index]);
      OverlayOne(plan.desired, p.desired, cs, capacities, index);
      p := SetDesired(p, t, cs[index].key, capacities[index]);
    }
    assert cs[..|cs|] == cs && capacities[..|cs|] == capacities;
  }

  /** Tier `t` of `x` is still what it runs. */
  ghost predicate AtFloors(m: F.Market, x: F.Capacities, t: TierID)
    requires F.Shaped(m, x)
  {
    forall k :: k in F.Members(m, t) ==> x[k] == m.claims[k].active
  }

  /** Nothing outside tier `t` moved. */
  ghost predicate SameElsewhere(m: F.Market, x: F.Capacities, y: F.Capacities, t: TierID)
    requires F.Shaped(m, x) && F.Shaped(m, y)
  {
    forall k :: k in m.claims && m.tierOf[k] != t ==> y[k] == x[k]
  }

  lemma OverlayCarries(m: F.Market, t: TierID, budget: int, x: F.Capacities, y: F.Capacities,
                       cs: seq<W.Candidate>, capacities: seq<int>)
    requires F.Shaped(m, x) && AtFloors(m, x, t) && |capacities| == |cs| && L.Lists(m, t, budget, cs)
    requires Overlays(x, y, cs, capacities)
    ensures F.Shaped(m, y) && L.Carries(m, y, t, cs, capacities) && SameElsewhere(m, x, y, t)
  {
    forall k | k in L.KeysOf(cs) ensures k in F.Members(m, t) && L.Candidate(m, k) {
    }
  }

  /** No ceiling rises above the tier's parallelism. */
  lemma CeilingsWithinParallelism(m: F.Market, t: TierID, cs: seq<W.Candidate>, clip: int)
    requires F.WellFormed(m) && t in m.parallelism && L.Lists(m, t, clip, cs)
    requires clip <= m.parallelism[t] - F.TierTotal(m, F.Floors(m), t)
    ensures forall i :: 0 <= i < |cs| ==> cs[i].ceiling <= m.parallelism[t]
  {
    forall i | 0 <= i < |cs| ensures cs[i].ceiling <= m.parallelism[t] {
      SumAtLeast(F.Members(m, t), F.Floors(m), cs[i].key, cs[i].key);
    }
  }

  method HighestCeiling(cs: seq<W.Candidate>) returns (highest: nat)
    ensures forall i :: 0 <= i < |cs| ==> cs[i].ceiling <= highest
    ensures highest == 0 || exists i :: 0 <= i < |cs| && cs[i].ceiling == highest
  {
    highest := 0;
    for index := 0 to |cs|
      invariant forall i :: 0 <= i < index ==> cs[i].ceiling <= highest
      invariant highest == 0 || exists i :: 0 <= i < |cs| && cs[i].ceiling == highest
    {
      if cs[index].ceiling > highest {
        highest := cs[index].ceiling;
      }
    }
  }

  lemma FilledTierIsFair(m: F.Market, t: TierID, pool: Pool, x: F.Capacities, level: int,
                         cs: seq<W.Candidate>, capacities: seq<int>)
    requires PoolOf(m, t, pool) && F.Shaped(m, x) && L.Lists(m, t, pool.parallelism - pool.active, cs)
    requires W.Filled(cs, pool.parallelism - pool.active, level, capacities)
    requires L.Carries(m, x, t, cs, capacities)
    requires forall i :: 0 <= i < |cs| ==> cs[i].ceiling <= level
    ensures L.TierFair(m, x, t)
  {
    hide Distinct, ToSet, Sum;
    var budget := pool.parallelism - pool.active;
    L.FilledIsLevelled(m, x, t, budget, budget, level, cs, capacities);
    L.LevelledIsTierFair(m, x, t, budget, level);
  }

  /** Candidates of tier `t`, ready to be written into a plan. */
  ghost predicate Writable(m: F.Market, t: TierID, cs: seq<W.Candidate>, capacities: seq<int>) {
    && |capacities| == |cs|
    && (forall i :: 0 <= i < |cs| ==> cs[i].key in m.tierOf && m.tierOf[cs[i].key] == t && 0 <= capacities[i])
    && (forall i, j :: 0 <= i < j < |cs| ==> cs[i].key != cs[j].key)
  }

  /** The tier's free credits are dealt out: what is to be written where, up to `level`. */
  ghost predicate Dealt(m: F.Market, t: TierID, pool: Pool, level: int, cs: seq<W.Candidate>, capacities: seq<int>)
    requires PoolOf(m, t, pool)
  {
    && L.Lists(m, t, pool.parallelism - pool.active, cs)
    && W.Filled(cs, pool.parallelism - pool.active, level, capacities)
    && (forall i :: 0 <= i < |cs| ==> cs[i].ceiling <= level)
  }

  /** Writing what was dealt over a tier that stands at its floors makes the tier fair. */
  lemma WrittenIsFair(m: F.Market, t: TierID, pool: Pool, level: int, cs: seq<W.Candidate>, capacities: seq<int>,
                      x: F.Capacities, y: F.Capacities)
    requires PoolOf(m, t, pool) && t in m.parallelism && |capacities| == |cs| && Dealt(m, t, pool, level, cs, capacities)
    requires F.Shaped(m, x) && AtFloors(m, x, t) && Overlays(x, y, cs, capacities)
    ensures F.Shaped(m, y) && L.TierFair(m, y, t) && SameElsewhere(m, x, y, t)
  {
    hide PoolOf, F.Shaped, AtFloors, Overlays, L.Lists, W.Filled, L.Carries, L.TierFair, SameElsewhere;
    OverlayCarries(m, t, pool.parallelism - pool.active, x, y, cs, capacities);
    FilledTierIsFair(m, t, pool, y, level, cs, capacities);
  }

  lemma PoolFits(m: F.Market, t: TierID, pool: Pool, cs: seq<W.Candidate>)
    requires PoolOf(m, t, pool) && L.Lists(m, t, pool.parallelism - pool.active, cs)
    ensures forall i :: 0 <= i < |cs| ==> cs[i].ceiling <= pool.parallelism
  {
    hide Sum, Distinct, ToSet, L.Lists;
    CeilingsWithinParallelism(m, t, cs, pool.parallelism - pool.active);
  }

  lemma DealtIsWritable(m: F.Market, t: TierID, pool: Pool, level: int, cs: seq<W.Candidate>, capacities: seq<int>)
    requires PoolOf(m, t, pool) && Dealt(m, t, pool, level, cs, capacities)
    requires forall i, j :: 0 <= i < j < |cs| ==> cs[i].key != cs[j].key
    ensures Writable(m, t, cs, capacities)
  {
    hide Sum, Distinct, ToSet, L.Lists, W.Filled;
    FilledIsWritable(m, t, pool.parallelism - pool.active, pool.parallelism - pool.active, level, cs, capacities);
  }

  method ShareTier(ghost m: F.Market, t: TierID, pool: Pool)
    returns (cs: seq<W.Candidate>, capacities: seq<int>, ghost level: int, visits: nat)
    requires PoolOf(m, t, pool) && pool.active < pool.parallelism
    ensures Writable(m, t, cs, capacities) && |capacities| == |cs| && Dealt(m, t, pool, level, cs, capacities)
    ensures Few(0, visits, |pool.order|, 4 + Log2Up(pool.parallelism + 1))
  {
    hide PoolOf, L.Lists, W.Filled, Writable, Few, Log2Up, W.Credits, W.Spent;
    var budget := pool.parallelism - pool.active;
    cs := CandidatesOf(m, t, pool, budget);
    PoolFits(m, t, pool, cs);
    var highest := HighestCeiling(cs);
    var used;
    capacities, used, visits := W.WaterFill(cs, budget, highest, pool.parallelism);
    level := highest;
    FewWidens(0, visits, |cs|, |pool.order|, 4 + Log2Up(pool.parallelism + 1), 4 + Log2Up(pool.parallelism + 1));
    DealtIsWritable(m, t, pool, level, cs, capacities);
  }

  lemma FilledIsWritable(m: F.Market, t: TierID, clip: int, budget: int, level: int,
                         cs: seq<W.Candidate>, capacities: seq<int>)
    requires F.WellFormed(m) && L.Lists(m, t, clip, cs) && W.Filled(cs, budget, level, capacities)
    requires forall i, j :: 0 <= i < j < |cs| ==> cs[i].key != cs[j].key
    ensures Writable(m, t, cs, capacities)
  {
  }

  /** The tier holds what it runs, and of its free credits as many as its bindings want. */
  ghost predicate Spends(m: F.Market, x: F.Capacities, t: TierID)
    requires F.Shaped(m, x) && t in m.parallelism
  {
    var running := F.TierTotal(m, F.Floors(m), t);
    F.TierTotal(m, x, t)
    == running + Min(Max(0, m.parallelism[t] - running), F.TierTotal(m, L.Ceilings(m), t) - running)
  }

  /** Writes the candidates' capacities into the market's plan. */
  method Write(ghost m: F.Market, plan: Plan, t: TierID, cs: seq<W.Candidate>, capacities: seq<int>) returns (p: Plan)
    requires Reflects(m.tierOf, m.parallelism.Keys, plan) && F.Shaped(m, plan.desired) && Writable(m, t, cs, capacities)
    ensures Reflects(m.tierOf, m.parallelism.Keys, p) && F.Shaped(m, p.desired)
    ensures |capacities| == |cs| && Overlays(plan.desired, p.desired, cs, capacities)
    ensures p == plan.(desired := p.desired, byTier := p.byTier, totalAdvertised := p.totalAdvertised)
  {
    p := ApplyCapacities(m.tierOf, plan, t, cs, capacities);
  }

  method AllocateFree(ghost m: F.Market, plan: Plan, t: TierID, pool: Pool) returns (p: Plan)
    requires PoolOf(m, t, pool) && t in m.parallelism && Reflects(m.tierOf, m.parallelism.Keys, plan)
    requires F.Shaped(m, plan.desired) && AtFloors(m, plan.desired, t) && pool.active < pool.parallelism
    ensures Reflects(m.tierOf, m.parallelism.Keys, p) && F.Shaped(m, p.desired)
    ensures L.TierFair(m, p.desired, t) && SameElsewhere(m, plan.desired, p.desired, t)
    ensures p == plan.(desired := p.desired, byTier := p.byTier, totalAdvertised := p.totalAdvertised,
                       allocationVisits := p.allocationVisits)
    ensures Few(plan.allocationVisits, p.allocationVisits, |pool.order|, 4 + Log2Up(pool.parallelism + 1))
  {
    hide *;
    var candidates, capacities, level, visits := ShareTier(m, t, pool);
    WorkReflects(m.tierOf, m.parallelism.Keys, plan, plan.allocationVisits + visits);
    p := Write(m, plan.(allocationVisits := plan.allocationVisits + visits), t, candidates, capacities);
    WrittenIsFair(m, t, pool, level, candidates, capacities, plan.desired, p.desired);
    FewShifts(0, visits, |pool.order|, 4 + Log2Up(pool.parallelism + 1), plan.allocationVisits);
  }

  lemma FullTierStays(m: F.Market, x: F.Capacities, t: TierID, pool: Pool)
    requires PoolOf(m, t, pool) && F.Shaped(m, x) && AtFloors(m, x, t) && pool.parallelism <= pool.active
    ensures L.TierFair(m, x, t) && SameElsewhere(m, x, x, t)
  {
    hide Sum, Distinct, ToSet;
    L.FullTierIsFair(m, x, t);
  }

  /** Shares one independent tier's free credits; its work does not grow with the demand. */
  method AllocateTier(ghost m: F.Market, plan: Plan, t: TierID, pool: Pool) returns (p: Plan)
    requires PoolOf(m, t, pool) && t in m.parallelism && Reflects(m.tierOf, m.parallelism.Keys, plan)
    requires F.Shaped(m, plan.desired) && AtFloors(m, plan.desired, t)
    ensures Reflects(m.tierOf, m.parallelism.Keys, p) && F.Shaped(m, p.desired)
    ensures L.TierFair(m, p.desired, t) && Spends(m, p.desired, t) && SameElsewhere(m, plan.desired, p.desired, t)
    ensures p == plan.(desired := p.desired, byTier := p.byTier, totalAdvertised := p.totalAdvertised,
                       allocationVisits := p.allocationVisits)
    ensures Few(plan.allocationVisits, p.allocationVisits, |pool.order|, 4 + Log2Up(pool.parallelism + 1))
  {
    hide *;
    if pool.parallelism <= pool.active {
      FullTierStays(m, plan.desired, t, pool);
      FewAtMost(plan.allocationVisits, plan.allocationVisits, |pool.order|, 4 + Log2Up(pool.parallelism + 1));
      p := plan;
    } else {
      p := AllocateFree(m, plan, t, pool);
    }
    FairTierSpends(m, p.desired, t);
  }

  lemma FairTierSpends(m: F.Market, x: F.Capacities, t: TierID)
    requires F.Shaped(m, x) && t in m.parallelism && L.TierFair(m, x, t)
    ensures Spends(m, x, t)
  {
    L.TierFairSpends(m, x, t);
  }
}
