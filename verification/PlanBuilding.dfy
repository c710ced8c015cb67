/**
 A whole plan: running work seeded into every tier, the shares in the instance's mode, and
 the discovery credit on top. Its contract is `PlanOf`, which mentions neither the mode's
 algorithm nor the order in which pools are met.
 */
module PlanBuilding {
  import opened Base
  import opened Sums
  import opened Ledger
  import opened Planning
  import opened InstancePlanning
  import F = Fairness
  import L = Levelling
  import opened Work

  lemma FloorsAreActives(v: View)
    ensures F.Floors(MarketOf(v)) == Actives(v.bindings)
  {
  }

  lemma TierOfMarket(v: View, t: TierID, pool: Pool)
    requires ValidView(v) && Tallied(v, t, pool)
    ensures PoolOf(MarketOf(v), t, pool)
  {
    MarketIsWellFormed(v);
    FloorsAreActives(v);
    assert TierRing(v, t);
    assert F.Members(MarketOf(v), t) == Members(v, t);
  }

  lemma PoolsOfMarket(l: Ledger, v: View)
    requires ValidView(v) && Represents(l, v)
    ensures F.WellFormed(MarketOf(v)) && PoolsOf(MarketOf(v), l.pools)
    ensures l.activeCount == F.Total(MarketOf(v), F.Floors(MarketOf(v)))
  {
    MarketIsWellFormed(v);
    FloorsAreActives(v);
    forall t | t in l.pools ensures PoolOf(MarketOf(v), t, l.pools[t]) {
      assert Tallied(v, t, l.pools[t]);
      TierOfMarket(v, t, l.pools[t]);
    }
  }

  // ---- running work ----

  function Enter(p: Plan, t: TierID, k: BindingKey, active: int): Plan
    requires t in p.byTier
  {
    var tier: F.Capacities := p.byTier[t][k := active];
    p.(desired := p.desired[k := active], byTier := p.byTier[t := tier], totalAdvertised := p.totalAdvertised + active)
  }

  lemma EnterReflects(part: map<BindingKey, TierID>, tiers: set<TierID>, p: Plan, t: TierID, k: BindingKey, active: int)
    requires Reflects(part, tiers, p) && t in tiers && k !in part
    ensures Reflects(part[k := t], tiers, Enter(p, t, k, active))
  {
    hide Sum;
    var desired := p.desired[k := active];
    SumPick(part[k := t].Keys, desired, k);
    assert part[k := t].Keys - {k} == part.Keys;
    SumLe(part.Keys, p.desired, desired);
  }

  lemma OpenTierReflects(part: map<BindingKey, TierID>, tiers: set<TierID>, p: Plan, t: TierID)
    requires Reflects(part, tiers, p) && t !in tiers
    ensures Reflects(part, tiers + {t}, p.(byTier := p.byTier[t := map[]]))
  {
  }

  /** `desired` has the running work of the bindings in `part`, and nothing else yet. */
  ghost predicate Running(m: F.Market, part: map<BindingKey, TierID>, desired: F.Capacities) {
    desired.Keys == part.Keys <= m.claims.Keys * m.tierOf.Keys
    && forall k :: k in part ==> part[k] == m.tierOf[k] && desired[k] == m.claims[k].active
  }

  lemma EnterRuns(m: F.Market, part: map<BindingKey, TierID>, tiers: set<TierID>, p: Plan, t: TierID, k: BindingKey)
    requires Reflects(part, tiers, p) && Running(m, part, p.desired) && t in tiers && k !in part
    requires k in m.claims && k in m.tierOf && m.tierOf[k] == t
    ensures Reflects(part[k := t], tiers, Enter(p, t, k, m.claims[k].active))
    ensures Running(m, part[k := t], Enter(p, t, k, m.claims[k].active).desired)
  {
    hide Sum;
    EnterReflects(part, tiers, p, t, k, m.claims[k].active);
  }

  lemma NextUp(m: F.Market, t: TierID, order: seq<BindingKey>, state: map<BindingKey, Binding>, n: nat)
    requires Roster(m, t, order, state) && n < |order|
    ensures order[n] in state && order[n] in m.claims && m.claims[order[n]].active == state[order[n]].active
    ensures order[n] in m.tierOf && m.tierOf[order[n]] == t
    ensures order[n] !in ToSet(order[..n]) && ToSet(order[..n + 1]) == ToSet(order[..n]) + {order[n]}
  {
    SeenGrows(order, n);
    assert order[n] in ToSet(order);
  }

  method SeedTier(ghost m: F.Market, plan: Plan, t: TierID, order: seq<BindingKey>, state: map<BindingKey, Binding>,
                  ghost part: map<BindingKey, TierID>, ghost tiers: set<TierID>)
    returns (p: Plan, ghost part': map<BindingKey, TierID>)
    requires Roster(m, t, order, state) && Reflects(part, tiers, plan) && Running(m, part, plan.desired)
    requires t in tiers && part.Keys !! F.Members(m, t)
    ensures Reflects(part', tiers, p) && Running(m, part', p.desired)
    ensures part'.Keys == part.Keys + F.Members(m, t)
    ensures p == plan.(desired := p.desired, byTier := p.byTier, totalAdvertised := p.totalAdvertised)
  {
    p, part' := plan, part;
    for index := 0 to |order|
      invariant Reflects(part', tiers, p) && Running(m, part', p.desired)
      invariant part'.Keys == part.Keys + ToSet(order[..index])
      invariant p == plan.(desired := p.desired, byTier := p.byTier, totalAdvertised := p.totalAdvertised)
    {
      var key := order[index];
      NextUp(m, t, order, state, index);
      EnterRuns(m, part', tiers, p, t, key);
      part' := part'[key := t];
      p := Enter(p, t, key, state[key].active);
    }
    assert order[..|order|] == order;
  }

  /** The tiers in `seen` have their running work in the plan. */
  ghost predicate Seeded(m: F.Market, seen: set<TierID>, part: map<BindingKey, TierID>, p: Plan) {
    && Reflects(part, seen, p) && Running(m, part, p.desired) && p.allocationVisits == |part.Keys|
    && (forall k :: k in m.tierOf ==> (k in part <==> m.tierOf[k] in seen))
  }

  function Together(a: set<BindingKey>, b: set<BindingKey>): nat { |a + b| }

  /** A tier that is about to be seeded: nothing of it is in the plan. */
  lemma SeedOpens(m: F.Market, t: TierID, pool: Pool, seen: set<TierID>, part: map<BindingKey, TierID>, p: Plan)
    requires Roster(m, t, pool.order, pool.state) && Seeded(m, seen, part, p) && t !in seen
    ensures Reflects(part, seen + {t}, p.(byTier := p.byTier[t := map[]])) && Running(m, part, p.desired)
    ensures part.Keys !! F.Members(m, t)
    ensures p.allocationVisits + |pool.order| == Together(part.Keys, F.Members(m, t))
  {
    hide Sum, Reflects;
    OpenTierReflects(part, seen, p, t);
    DistinctCount(pool.order);
  }

  lemma SeedCloses(m: F.Market, t: TierID, seen: set<TierID>, part: map<BindingKey, TierID>, part': map<BindingKey, TierID>,
                   plan: Plan, p: Plan)
    requires Seeded(m, seen, part, plan) && part'.Keys == part.Keys + F.Members(m, t)
    requires Reflects(part', seen + {t}, p) && Running(m, part', p.desired)
    requires p.allocationVisits == Together(part.Keys, F.Members(m, t))
    ensures Seeded(m, seen + {t}, part', p)
  {
    hide Sum, Reflects, Running;
  }

  method SeedPool(ghost m: F.Market, plan: Plan, t: TierID, pool: Pool,
                  ghost seen: set<TierID>, ghost part: map<BindingKey, TierID>)
    returns (p: Plan, ghost part': map<BindingKey, TierID>)
    requires Roster(m, t, pool.order, pool.state) && Seeded(m, seen, part, plan) && t !in seen
    ensures Seeded(m, seen + {t}, part', p)
    ensures p == plan.(desired := p.desired, byTier := p.byTier, totalAdvertised := p.totalAdvertised,
                       allocationVisits := p.allocationVisits)
  {
    hide *;
    SeedOpens(m, t, pool, seen, part, plan);
    p := plan.(byTier := plan.byTier[t := map[]]);
    p, part' := SeedTier(m, p, t, pool.order, pool.state, part, seen + {t});
    WorkReflects(part', seen + {t}, p, p.allocationVisits + |pool.order|);
    p := p.(allocationVisits := p.allocationVisits + |pool.order|);
    SeedCloses(m, t, seen, part, part', plan, p);
  }

  method Seed(ghost m: F.Market, generation: nat, pools: map<TierID, Pool>) returns (p: Plan)
    requires F.WellFormed(m) && PoolsOf(m, pools)
    ensures Reflects(m.tierOf, m.parallelism.Keys, p) && p.desired == F.Floors(m)
    ensures p.generation == generation && p.discoveryByTier == map[] && p.allocationVisits == |m.order|
  {
    hide ValidView;
    p := Plan(generation, map[], map[], map[], 0, 0);
    ghost var part: map<BindingKey, TierID> := map[];
    var ids := InSomeOrder(pools.Keys);
    for index := 0 to |ids|
      invariant Seeded(m, ToSet(ids[..index]), part, p)
      invariant p.generation == generation && p.discoveryByTier == map[]
    {
      SeenGrows(ids, index);
      var t := ids[index];
      assert t in ToSet(ids) && PoolOf(m, t, pools[t]);
      p, part := SeedPool(m, p, t, pools[t], ToSet(ids[..index]), part);
    }
    assert ids[..|ids|] == ids;
    SeededIsFloors(m, part, p);
  }

  lemma SeededIsFloors(m: F.Market, part: map<BindingKey, TierID>, p: Plan)
    requires F.WellFormed(m) && Seeded(m, m.parallelism.Keys, part, p)
    ensures Reflects(m.tierOf, m.parallelism.Keys, p) && p.desired == F.Floors(m) && p.allocationVisits == |m.order|
  {
    hide Distinct, ToSet, Sum;
    assert part == m.tierOf;
    DistinctCount(m.order);
  }

  // ---- the discovery credit ----

  method TotalForTier(ghost m: F.Market, p: Plan, t: TierID) returns (total: int)
    requires Reflects(m.tierOf, m.parallelism.Keys, p) && t in p.byTier
    ensures total == Sum(F.Members(m, t), p.desired)
  {
    total := 0;
    var tier := p.byTier[t];
    var keys := InSomeOrder(tier.Keys);
    for index := 0 to |keys|
      invariant ToSet(keys[..index]) <= tier.Keys && total == Sum(ToSet(keys[..index]), tier)
    {
      SeenGrows(keys, index);
      assert keys[index] in ToSet(keys);
      SumPick(ToSet(keys[..index + 1]), tier, keys[index]);
      assert ToSet(keys[..index + 1]) - {keys[index]} == ToSet(keys[..index]);
      total := total + tier[keys[index]];
    }
    assert keys[..|keys|] == keys;
    assert F.Members(m, t) == tier.Keys;
    SumLe(tier.Keys, tier, p.desired);
  }

  /** Tier `t` has its shares in `x`. */
  ghost predicate Shared(v: View, x: F.Capacities, t: TierID)
    requires ValidView(v) && x.Keys == v.bindings.Keys
  {
    forall k :: k in Members(v, t) ==> x[k] == Shares(v)[k]
  }

  /** From `x` to `y` tier `t` got what it is promised; nothing else moved. */
  ghost predicate Promised(v: View, x: F.Capacities, y: F.Capacities, t: TierID)
    requires ValidView(v) && x.Keys == y.Keys == v.bindings.Keys
  {
    forall k :: k in v.bindings ==> y[k] == if v.tierOf[k] == t then Desired(v)[k] else x[k]
  }

  lemma SharedTotal(v: View, x: F.Capacities, t: TierID)
    requires ValidView(v) && x.Keys == v.bindings.Keys && Shared(v, x, t)
    ensures Sum(Members(v, t), x) == Sum(Members(v, t), Shares(v))
  {
    SumLe(Members(v, t), x, Shares(v));
  }

  /** The holder's own ring decides; every other member keeps its share. */
  lemma HolderIsUnique(v: View, t: TierID, holder: BindingKey)
    requires ValidView(v) && v.limit == 0 && t in v.rings && HolderOf(v.rings[t]) == Some(holder)
    ensures holder in Members(v, t)
    ensures forall k :: k in Members(v, t) ==> (Holds(v, k) <==> k == holder)
  {
    assert TierRing(v, t);
    assert holder in ToSet(v.rings[t].order);
  }

  /** Only the holder of tier `t`'s ring can differ from its share. */
  lemma TierDiscoveryLands(v: View, x: F.Capacities, y: F.Capacities, t: TierID, holder: BindingKey, total: int)
    requires ValidView(v) && v.limit == 0 && x.Keys == v.bindings.Keys && Shared(v, x, t)
    requires t in v.rings && HolderOf(v.rings[t]) == Some(holder) && total == Sum(Members(v, t), x)
    requires holder in v.bindings
    requires y == if total < v.parallelism[t] && v.bindings[holder].Silent() then x[holder := 1] else x
    ensures Promised(v, x, y, t)
  {
    hide Distinct, ToSet, Sum;
    HolderIsUnique(v, t, holder);
    SharedTotal(v, x, t);
  }

  /** One credit for a holder that is silent, if there is room for it. */
  method FundHolder(ghost v: View, plan: Plan, t: TierID, holder: BindingKey, binding: Binding, room: bool)
    returns (p: Plan)
    requires Reflects(v.tierOf, v.parallelism.Keys, plan) && holder in v.tierOf && v.tierOf[holder] == t
    ensures Reflects(v.tierOf, v.parallelism.Keys, p)
    ensures p.desired == if room && binding.Silent() then plan.desired[holder := 1] else plan.desired
    ensures p == plan.(desired := p.desired, byTier := p.byTier, totalAdvertised := p.totalAdvertised)
  {
    p := plan;
    if !room {
      return;
    }
    if !binding.held && binding.assignedDemand == 0 && binding.active == 0 {
      SetReflects(v.tierOf, v.parallelism.Keys, p, holder, 1);
      p := SetDesired(p, t, holder, 1);
    }
  }

  /** Names the tier's holder and funds it out of what the tier has left. */
  method NameHolder(ghost v: View, plan: Plan, t: TierID, holder: BindingKey, binding: Binding, parallelism: nat)
    returns (p: Plan)
    requires ValidView(v) && v.limit == 0 && t in v.rings && HolderOf(v.rings[t]) == Some(holder)
    requires v.parallelism[t] == parallelism
    requires holder in v.tierOf && v.tierOf[holder] == t && v.bindings[holder] == binding
    requires Reflects(v.tierOf, v.parallelism.Keys, plan) && Shared(v, plan.desired, t)
    ensures Reflects(v.tierOf, v.parallelism.Keys, p) && Promised(v, plan.desired, p.desired, t)
    ensures p == plan.(desired := p.desired, byTier := p.byTier, totalAdvertised := p.totalAdvertised,
                       discoveryByTier := Recorded(plan.discoveryByTier, t, HolderOf(v.rings[t])))
  {
    hide Distinct, ToSet, Sum;
    p := plan.(discoveryByTier := plan.discoveryByTier[t := holder]);
    var total := TotalForTier(MarketOf(v), p, t);
    p := FundHolder(v, p, t, holder, binding, total < parallelism);
    TierDiscoveryLands(v, plan.desired, p.desired, t, holder, total);
  }

  /** The ring of tier `t` is empty exactly when the tier is; otherwise its cursor is on a member. */
  lemma RingOfTier(v: View, t: TierID, pool: Pool)
    requires ValidView(v) && Shows(v, t, pool)
    ensures pool.order == [] ==> Members(v, t) == {} && HolderOf(v.rings[t]) == None
    ensures pool.order != [] ==>
              && pool.discovery < |pool.order|
              && var holder := pool.order[pool.discovery];
              && HolderOf(v.rings[t]) == Some(holder) && holder in pool.state
              && holder in v.tierOf && v.tierOf[holder] == t && v.bindings[holder] == pool.state[holder]
  {
    assert TierRing(v, t);
    if pool.order == [] {
      assert ToSet(pool.order) == {};
    } else {
      assert pool.order[pool.discovery] in ToSet(pool.order);
    }
  }

  method SetTierDiscovery(ghost v: View, plan: Plan, t: TierID, pool: Pool) returns (p: Plan)
    requires ValidView(v) && Shows(v, t, pool) && v.limit == 0
    requires Reflects(v.tierOf, v.parallelism.Keys, plan) && Shared(v, plan.desired, t)
    ensures Reflects(v.tierOf, v.parallelism.Keys, p) && Promised(v, plan.desired, p.desired, t)
    ensures p == plan.(desired := p.desired, byTier := p.byTier, totalAdvertised := p.totalAdvertised,
                       discoveryByTier := Recorded(plan.discoveryByTier, t, HolderOf(v.rings[t])))
  {
    RingOfTier(v, t, pool);
    if |pool.order| == 0 {
      return plan;
    }
    var holder := pool.order[pool.discovery];
    p := NameHolder(v, plan, t, holder, pool.state[holder], pool.parallelism);
  }

  ghost function Recorded(d: map<TierID, BindingKey>, t: TierID, holder: Option<BindingKey>): map<TierID, BindingKey> {
    match holder
    case None => d
    case Some(k) => d[t := k]
  }

  // ---- independent tiers ----

  ghost function Mix(tierOf: map<BindingKey, TierID>, done: set<TierID>, d: F.Capacities, a: F.Capacities): F.Capacities
    requires d.Keys == a.Keys == tierOf.Keys
  {
    map k | k in tierOf :: if tierOf[k] in done then d[k] else a[k]
  }

  lemma MixAdvances(tierOf: map<BindingKey, TierID>, done: set<TierID>, d: F.Capacities, a: F.Capacities,
                    t: TierID, x: F.Capacities, y: F.Capacities)
    requires d.Keys == a.Keys == x.Keys == y.Keys == tierOf.Keys
    requires forall k :: k in tierOf && tierOf[k] != t ==> x[k] == Mix(tierOf, done, d, a)[k]
    requires forall k :: k in tierOf ==> y[k] == if tierOf[k] == t then d[k] else x[k]
    ensures y == Mix(tierOf, done + {t}, d, a)
  {
  }

  /** The tiers in `done` have what they are promised; the others only what they run. */
  ghost function Underway(v: View, done: set<TierID>): F.Capacities
    requires ValidView(v)
  {
    Mix(v.tierOf, done, Desired(v), Actives(v.bindings))
  }

  ghost function DiscoveriesIn(v: View, done: set<TierID>): map<TierID, BindingKey> {
    map t | t in v.rings && t in done && HolderOf(v.rings[t]).Some? :: HolderOf(v.rings[t]).value
  }

  lemma UnderwayIsAtFloors(v: View, done: set<TierID>, t: TierID)
    requires ValidView(v) && t !in done
    ensures F.Shaped(MarketOf(v), Underway(v, done)) && AtFloors(MarketOf(v), Underway(v, done), t)
  {
    MarketIsWellFormed(v);
  }

  lemma TierIsShared(v: View, x: F.Capacities, t: TierID)
    requires ValidView(v) && v.limit == 0 && t in v.parallelism
    requires F.Shaped(MarketOf(v), x) && L.TierFair(MarketOf(v), x, t)
    ensures Shared(v, x, t)
  {
    L.TierFairIsShare(MarketOf(v), x, t);
  }

  lemma UnderwayAdvances(v: View, done: set<TierID>, t: TierID, x: F.Capacities, y: F.Capacities)
    requires ValidView(v) && F.Shaped(MarketOf(v), x) && y.Keys == x.Keys
    requires SameElsewhere(MarketOf(v), Underway(v, done), x, t) && Promised(v, x, y, t)
    ensures y == Underway(v, done + {t})
  {
    MixAdvances(v.tierOf, done, Desired(v), Actives(v.bindings), t, x, y);
  }

  lemma DiscoveriesAdvance(v: View, done: set<TierID>, t: TierID)
    requires t in v.rings
    ensures DiscoveriesIn(v, done + {t}) == Recorded(DiscoveriesIn(v, done), t, HolderOf(v.rings[t]))
  {
  }

  ghost predicate Halfway(v: View, generation: nat, done: set<TierID>, p: Plan)
    requires ValidView(v)
  {
    match p
    case Plan(g, desired, _, discoveryByTier, _, visits) =>
      && g == generation && Reflects(v.tierOf, v.parallelism.Keys, p)
      && desired == Underway(v, done) && discoveryByTier == DiscoveriesIn(v, done)
      && done <= v.rings.Keys && WithinWork(v, done, visits)
  }

  // ---- how much work a plan is ----

  /** What sharing one tier may cost: the tier's bindings, a logarithm of its parallelism times. */
  ghost function TierWork(v: View): map<TierID, int>
    requires ValidView(v)
  {
    map t | t in v.rings :: Looks(|v.rings[t].order|, 4 + Log2Up(v.parallelism[t] + 1))
  }

  /** Every binding once, and the work of the tiers in `done`. */
  ghost predicate WithinWork(v: View, done: set<TierID>, visits: nat)
    requires ValidView(v) && done <= v.rings.Keys
  {
    visits <= |v.ring.order| + Sum(done, TierWork(v))
  }

  lemma TierAddsWork(v: View, done: set<TierID>, t: TierID, pool: Pool, before: nat, after: nat)
    requires ValidView(v) && done <= v.rings.Keys && t in v.rings && t !in done && WithinWork(v, done, before)
    requires pool.order == v.rings[t].order && pool.parallelism == v.parallelism[t]
    requires Few(before, after, |pool.order|, 4 + Log2Up(pool.parallelism + 1))
    ensures WithinWork(v, done + {t}, after)
  {
    hide ValidView, Sum, Distinct, ToSet;
    SumPick(done + {t}, TierWork(v), t);
    assert done + {t} - {t} == done;
  }

  /** The work of a plan is a logarithm of the widest budget per binding, whatever the demand. */
  ghost predicate Bounded(v: View, visits: nat)
    requires ValidView(v)
  {
    if v.limit > 0 then Few(0, visits, |v.ring.order|, 7 + 2 * Log2Up(v.limit + 1))
    else WithinWork(v, v.rings.Keys, visits)
  }

  /** Shares one tier's credits and gives its holder the discovery credit. */
  method PlanTier(ghost v: View, ghost generation: nat, plan: Plan, t: TierID, pool: Pool, ghost done: set<TierID>)
    returns (p: Plan)
    requires ValidView(v) && v.limit == 0 && Tallied(v, t, pool) && t !in done && Halfway(v, generation, done, plan)
    ensures Halfway(v, generation, done + {t}, p)
  {
    hide ValidView;
    TierOfMarket(v, t, pool);
    UnderwayIsAtFloors(v, done, t);
    p := AllocateTier(MarketOf(v), plan, t, pool);
    TierIsShared(v, p.desired, t);
    TierAddsWork(v, done, t, pool, plan.allocationVisits, p.allocationVisits);
    ghost var x := p.desired;
    p := SetTierDiscovery(v, p, t, pool);
    UnderwayAdvances(v, done, t, x, p.desired);
    DiscoveriesAdvance(v, done, t);
  }

  lemma UnderwayStarts(v: View)
    requires ValidView(v)
    ensures Underway(v, {}) == F.Floors(MarketOf(v)) && DiscoveriesIn(v, {}) == map[]
  {
  }

  lemma UnderwayEnds(v: View)
    requires ValidView(v)
    ensures Underway(v, v.parallelism.Keys) == Desired(v)
    ensures v.limit == 0 ==> DiscoveriesIn(v, v.parallelism.Keys) == Discoveries(v)
  {
  }

  lemma HalfwayEnds(v: View, generation: nat, done: set<TierID>, p: Plan)
    requires ValidView(v) && v.limit == 0 && Halfway(v, generation, done, p) && done == v.parallelism.Keys
    ensures PlanOf(v, p) && p.generation == generation && WithinWork(v, v.rings.Keys, p.allocationVisits)
  {
    UnderwayEnds(v);
  }

  method PlanTiers(ghost v: View, pools: map<TierID, Pool>, ghost generation: nat, plan: Plan) returns (p: Plan)
    requires ValidView(v) && AllTallied(v, pools) && v.limit == 0 && Halfway(v, generation, {}, plan)
    ensures PlanOf(v, p) && p.generation == generation && WithinWork(v, v.rings.Keys, p.allocationVisits)
  {
    p := plan;
    var ids := InSomeOrder(pools.Keys);
    assert ToSet(ids[..0]) == {};
    for index := 0 to |ids|
      invariant Halfway(v, generation, ToSet(ids[..index]), p)
    {
      SeenGrows(ids, index);
      var t := ids[index];
      assert t in ToSet(ids) && Tallied(v, t, pools[t]);
      p := PlanTier(v, generation, p, t, pools[t], ToSet(ids[..index]));
    }
    assert ids[..|ids|] == ids;
    HalfwayEnds(v, generation, ToSet(ids), p);
  }

  // ---- one instance-wide budget ----

  lemma InstanceDiscoveryLands(v: View, y: F.Capacities, holder: BindingKey, room: bool)
    requires ValidView(v) && 0 < v.limit && HolderOf(v.ring) == Some(holder) && holder in v.tierOf
    requires room <==> && Sum(v.tierOf.Keys, Shares(v)) < v.limit
                       && Sum(Members(v, v.tierOf[holder]), Shares(v)) < v.parallelism[v.tierOf[holder]]
    requires y == if room && v.bindings[holder].Silent() then Shares(v)[holder := 1] else Shares(v)
    ensures y == Desired(v)
  {
    hide Sum;
    forall k | k in v.bindings ensures DesiredFor(v, k) == y[k] {
    }
  }

  lemma NobodyHolds(v: View)
    requires ValidView(v) && 0 < v.limit && v.ring.order == []
    ensures Shares(v) == Desired(v) && Discoveries(v) == map[]
  {
    assert ToSet(v.ring.order) == {};
  }

  /** The ring's cursor is on a registered binding. */
  lemma RingOfInstance(v: View)
    requires ValidView(v) && v.ring.order != []
    ensures v.ring.cursor < |v.ring.order|
    ensures HolderOf(v.ring) == Some(v.ring.order[v.ring.cursor])
    ensures v.ring.order[v.ring.cursor] in v.bindings && v.ring.order[v.ring.cursor] in v.tierOf
  {
    assert v.ring.order[v.ring.cursor] in ToSet(v.ring.order);
  }

  /** Names the instance's holder and funds it out of what its tier and the instance have left. */
  method NameInstanceHolder(ghost v: View, plan: Plan, t: TierID, holder: BindingKey, binding: Binding,
                            parallelism: nat, limit: nat)
    returns (p: Plan)
    requires ValidView(v) && 0 < v.limit == limit && HolderOf(v.ring) == Some(holder)
    requires holder in v.tierOf && v.tierOf[holder] == t && v.parallelism[t] == parallelism && v.bindings[holder] == binding
    requires Reflects(v.tierOf, v.parallelism.Keys, plan) && plan.desired == Shares(v)
    ensures Reflects(v.tierOf, v.parallelism.Keys, p) && p.desired == Desired(v)
    ensures p == plan.(desired := p.desired, byTier := p.byTier, totalAdvertised := p.totalAdvertised)
  {
    var total := TotalForTier(MarketOf(v), plan, t);
    var room := !(plan.totalAdvertised >= limit || total >= parallelism);
    p := FundHolder(v, plan, t, holder, binding, room);
    InstanceDiscoveryLands(v, p.desired, holder, room);
  }

  /** Where the ledger keeps the instance's holder. */
  lemma InstanceHolderAt(l: Ledger, v: View)
    requires ValidView(v) && Represents(l, v) && l.order != []
    ensures l.discovery < |l.order|
    ensures var holder := l.order[l.discovery];
            && HolderOf(v.ring) == Some(holder) && holder in l.tierOf && holder in v.tierOf && l.tierOf[holder] == v.tierOf[holder]
            && l.tierOf[holder] in l.pools && v.parallelism[v.tierOf[holder]] == l.pools[l.tierOf[holder]].parallelism
            && holder in l.pools[l.tierOf[holder]].state && v.bindings[holder] == l.pools[l.tierOf[holder]].state[holder]
  {
    RingOfInstance(v);
    var holder := l.order[l.discovery];
    assert Tallied(v, v.tierOf[holder], l.pools[v.tierOf[holder]]) && holder in Members(v, v.tierOf[holder]);
  }

  lemma OneDiscovery(v: View, holder: BindingKey, d: map<TierID, BindingKey>)
    requires ValidView(v) && 0 < v.limit && HolderOf(v.ring) == Some(holder) && holder in v.tierOf && d == map[]
    ensures d[v.tierOf[holder] := holder] == Discoveries(v)
  {
  }

  method SetGlobalDiscovery(ghost v: View, l: Ledger, plan: Plan) returns (p: Plan)
    requires ValidView(v) && Represents(l, v) && 0 < v.limit
    requires Reflects(v.tierOf, v.parallelism.Keys, plan) && plan.desired == Shares(v) && plan.discoveryByTier == map[]
    ensures PlanOf(v, p) && p.generation == plan.generation && p.allocationVisits == plan.allocationVisits
  {
    if |l.order| == 0 {
      NobodyHolds(v);
      return plan;
    }
    InstanceHolderAt(l, v);
    var holder := l.order[l.discovery];
    var t := l.tierOf[holder];
    var pool := l.pools[t];
    OneDiscovery(v, holder, plan.discoveryByTier);
    p := plan.(discoveryByTier := plan.discoveryByTier[t := holder]);
    p := NameInstanceHolder(v, p, t, holder, pool.state[holder], pool.parallelism, l.globalParallelism);
  }

  lemma SeedAddsWork(v: View, after: nat)
    requires ValidView(v) && v.limit > 0 && Few(|v.ring.order|, after, |v.ring.order|, 6 + 2 * Log2Up(v.limit + 1))
    ensures Bounded(v, after)
  {
    var n, rounds := |v.ring.order|, 6 + 2 * Log2Up(v.limit + 1);
    FewAtMost(0, n, n, 1);
    FewInTurn(0, n, after, n, 1, rounds);
  }

  /** The plan the allocator's state promises, in either mode, and how much work it is. */
  method BuildPlan(ghost v: View, l: Ledger, generation: nat) returns (p: Plan)
    requires ValidView(v) && Represents(l, v)
    ensures PlanOf(v, p) && p.generation == generation && Bounded(v, p.allocationVisits)
  {
    PoolsOfMarket(l, v);
    p := Seed(MarketOf(v), generation, l.pools);
    if l.globalParallelism > 0 {
      p := AllocateGlobal(MarketOf(v), p, l.order, l.tierOf, l.pools, l.globalParallelism, l.activeCount);
      SeedAddsWork(v, p.allocationVisits);
      p := SetGlobalDiscovery(v, l, p);
      return;
    }
    UnderwayStarts(v);
    p := PlanTiers(v, l.pools, generation, p);
  }

  lemma {:induction false} WorkAdds(v: View, done: set<TierID>, most: nat)
    requires ValidView(v) && done <= v.rings.Keys && forall t :: t in v.parallelism ==> v.parallelism[t] <= most
    ensures Sum(done, TierWork(v)) <= Looks(|MembersIn(v, done)|, 4 + Log2Up(most + 1))
    decreases |done|
  {
    hide TierWork, Looks, Log2Up, MembersIn, Distinct, ToSet, TierRing;
    if t :| t in done {
      WorkAdds(v, done - {t}, most);
      WorkAddsOne(v, done, t, most);
    } else {
      assert done == {};
    }
  }

  lemma WorkAddsOne(v: View, done: set<TierID>, t: TierID, most: nat)
    requires ValidView(v) && done <= v.rings.Keys && t in done && v.parallelism[t] <= most
    requires Sum(done - {t}, TierWork(v)) <= Looks(|MembersIn(v, done - {t})|, 4 + Log2Up(most + 1))
    ensures Sum(done, TierWork(v)) <= Looks(|MembersIn(v, done)|, 4 + Log2Up(most + 1))
  {
    hide Sum, Looks, Log2Up, Distinct, ToSet;
    SumPick(done, TierWork(v), t);
    TierWorkIsBounded(v, t, most);
    MembersAdd(v, done, t);
    LooksTogether(|MembersIn(v, done - {t})|, |Members(v, t)|, 4 + Log2Up(most + 1));
  }

  lemma MembersAdd(v: View, done: set<TierID>, t: TierID)
    requires t in done
    ensures |MembersIn(v, done)| == |MembersIn(v, done - {t})| + |Members(v, t)|
  {
    assert MembersIn(v, done) == MembersIn(v, done - {t}) + Members(v, t);
    assert MembersIn(v, done - {t}) !! Members(v, t);
  }

  ghost function MembersIn(v: View, tiers: set<TierID>): set<BindingKey> {
    set k | k in v.tierOf && v.tierOf[k] in tiers
  }

  lemma TierWorkIsBounded(v: View, t: TierID, most: nat)
    requires ValidView(v) && t in v.rings && v.parallelism[t] <= most
    ensures TierWork(v)[t] <= Looks(|Members(v, t)|, 4 + Log2Up(most + 1))
  {
    assert TierRing(v, t);
    DistinctCount(v.rings[t].order);
    Log2UpMonotone(v.parallelism[t] + 1, most + 1);
    LooksMonotone(|v.rings[t].order|, 4 + Log2Up(v.parallelism[t] + 1), 4 + Log2Up(most + 1));
  }

  lemma TiersWorkIsBounded(v: View, visits: nat, most: nat)
    requires ValidView(v) && v.limit == 0 && Bounded(v, visits)
    requires forall t :: t in v.parallelism ==> v.parallelism[t] <= most
    ensures Few(0, visits, |v.ring.order|, 5 + Log2Up(most + 1))
  {
    hide Sum, Looks, Log2Up, TierWork, TierRing;
    var n := |v.ring.order|;
    WorkAdds(v, v.rings.Keys, most);
    DistinctCount(v.ring.order);
    assert MembersIn(v, v.rings.Keys) == ToSet(v.ring.order);
    LooksMore(n, 4 + Log2Up(most + 1));
  }

  lemma LooksMore(n: nat, rounds: nat)
    ensures Looks(n, 1 + rounds) == n + Looks(n, rounds)
  {
  }

  /** A whole plan looks at each binding a logarithm of the widest budget times, whatever the demand. */
  lemma PlanWorkIsBounded(v: View, visits: nat, most: nat)
    requires ValidView(v) && Bounded(v, visits) && v.limit <= most
    requires forall t :: t in v.parallelism ==> v.parallelism[t] <= most
    ensures visits <= |v.ring.order| * (7 + 2 * Log2Up(most + 1))
  {
    hide ValidView, Few, Log2Up, WithinWork;
    var n, rounds := |v.ring.order|, 7 + 2 * Log2Up(most + 1);
    if v.limit == 0 {
      TiersWorkIsBounded(v, visits, most);
      FewWidens(0, visits, n, n, 5 + Log2Up(most + 1), rounds);
    } else {
      Log2UpMonotone(v.limit + 1, most + 1);
      FewWidens(0, visits, n, n, 7 + 2 * Log2Up(v.limit + 1), rounds);
    }
    FewIsProduct(0, visits, n, rounds);
  }
}
