/**
 The allocator's state, twice.

 `Ledger` is what the allocator holds under its mutex: nested pools with running counters.
 `View` is what those fields mean: the bindings, the registration orders and the discovery
 cursors, with no counter and nothing cached. `Represents` ties the two together.
 */
module Ledger {
  import opened Base
  import opened Sums
  import F = Fairness

  datatype PendingPoll = PendingPoll(id: nat, capacity: nat)

  datatype Binding = Binding(
    active: nat,
    assignedDemand: nat,
    held: bool,
    published: nat,
    pending: Option<PendingPoll>,
    pollID: nat,
    remoteKnown: bool)
  {
    /** The largest capacity that may be in force remotely. */
    function Effective(): nat {
      if pending.Some? && pending.value.capacity > published then pending.value.capacity else published
    }

    /** Nothing to see, nothing to run: the discovery credit is for such a binding. */
    predicate Silent() { !held && assignedDemand == 0 && active == 0 }

    function Claim(): F.Claim { F.Claim(active, assignedDemand, held) }
  }

  datatype Pool = Pool(
    parallelism: nat,
    order: seq<BindingKey>,
    state: map<BindingKey, Binding>,
    active: int,
    remote: int,
    unknown: int,
    discovery: nat,
    discoveryGeneration: nat)

  datatype Ledger = Ledger(
    globalParallelism: nat,
    pools: map<TierID, Pool>,
    tierOf: map<BindingKey, TierID>,
    order: seq<BindingKey>,
    discovery: nat,
    discoveryGeneration: nat,
    activeCount: int,
    remoteCapacity: int,
    unknownSessions: int,
    held: bool)

  // ---- the abstract state ----

  datatype Ring = Ring(order: seq<BindingKey>, cursor: nat, generation: nat)

  datatype View = View(
    limit: nat,
    parallelism: map<TierID, nat>,
    rings: map<TierID, Ring>,
    ring: Ring,
    tierOf: map<BindingKey, TierID>,
    bindings: map<BindingKey, Binding>,
    held: bool)

  ghost predicate RingOf(r: Ring, members: set<BindingKey>) {
    && Distinct(r.order)
    && ToSet(r.order) == members
    && (r.cursor < |r.order| || (r.order == [] && r.cursor == 0))
  }

  ghost function Members(v: View, t: TierID): set<BindingKey> {
    set k | k in v.tierOf && v.tierOf[k] == t
  }

  /** Tier rings list their bindings in the instance's registration order. */
  ghost predicate SameOrder(sub: seq<BindingKey>, order: seq<BindingKey>) {
    && (forall k :: k in sub ==> k in order)
    && forall i, j :: 0 <= i < j < |sub| ==> Rank(order, sub[i]) < Rank(order, sub[j])
  }

  ghost predicate ValidBinding(b: Binding) {
    b.pending.Some? ==> 1 <= b.pending.value.id <= b.pollID
  }

  /** The ring of tier `t` has exactly its members, in registration order. */
  ghost predicate TierRing(v: View, t: TierID) {
    t in v.rings && RingOf(v.rings[t], Members(v, t)) && SameOrder(v.rings[t].order, v.ring.order)
  }

  ghost predicate ValidView(v: View) {
    match v
    case View(_, parallelism, rings, ring, tierOf, bindings, held) =>
      && bindings.Keys == tierOf.Keys
      && rings.Keys == parallelism.Keys
      && RingOf(ring, bindings.Keys)
      && (forall k :: k in tierOf ==> tierOf[k] in parallelism)
      && (forall t {:trigger TierRing(v, t)} :: t in rings ==> TierRing(v, t))
      && (forall k {:trigger ValidBinding(bindings[k])} {:trigger bindings[k].held} :: k in bindings ==>
           ValidBinding(bindings[k]) && bindings[k].held == held)
  }

  function MarketOf(v: View): F.Market {
    F.Market(v.limit, v.parallelism, v.ring.order, v.tierOf, map k | k in v.bindings :: v.bindings[k].Claim())
  }

  lemma MarketIsWellFormed(v: View)
    requires ValidView(v)
    ensures F.WellFormed(MarketOf(v))
    ensures forall t :: F.Members(MarketOf(v), t) == Members(v, t)
  {
  }

  // ---- what the counters count ----

  ghost function Actives(bs: map<BindingKey, Binding>): map<BindingKey, int> {
    map k | k in bs :: bs[k].active
  }

  ghost function Effectives(bs: map<BindingKey, Binding>): map<BindingKey, int> {
    map k | k in bs :: bs[k].Effective()
  }

  ghost function Unknowns(bs: map<BindingKey, Binding>): map<BindingKey, int> {
    map k | k in bs :: if bs[k].remoteKnown then 0 else 1
  }

  ghost predicate Counts(v: View, s: set<BindingKey>, active: int, remote: int, unknown: int)
    requires s <= v.bindings.Keys
  {
    && active == Sum(s, Actives(v.bindings))
    && remote == Sum(s, Effectives(v.bindings))
    && unknown == Sum(s, Unknowns(v.bindings))
  }

  /** `pool` is tier `t` as the view has it. */
  ghost predicate Shows(v: View, t: TierID, pool: Pool) {
    match pool
    case Pool(parallelism, order, state, _, _, _, discovery, discoveryGeneration) =>
      && t in v.parallelism && v.parallelism[t] == parallelism
      && t in v.rings && v.rings[t] == Ring(order, discovery, discoveryGeneration)
      && state.Keys == Members(v, t) <= v.bindings.Keys
      && (forall k :: k in state ==> v.bindings[k] == state[k])
  }

  ghost predicate PoolCounts(v: View, t: TierID, pool: Pool)
    requires Members(v, t) <= v.bindings.Keys
  {
    Counts(v, Members(v, t), pool.active, pool.remote, pool.unknown)
  }

  ghost predicate Tallied(v: View, t: TierID, pool: Pool) {
    Shows(v, t, pool) && PoolCounts(v, t, pool)
  }

  ghost predicate AllTallied(v: View, pools: map<TierID, Pool>) {
    && v.parallelism.Keys == v.rings.Keys == pools.Keys
    && (forall t {:trigger Tallied(v, t, pools[t])} :: t in pools ==> Tallied(v, t, pools[t]))
  }

  /** The fields of `l` say what `v` says. */
  ghost predicate Represents(l: Ledger, v: View) {
    match l
    case Ledger(globalParallelism, pools, tierOf, order, discovery, discoveryGeneration, activeCount, remoteCapacity,
      unknownSessions, held) =>
      && v.limit == globalParallelism && v.tierOf == tierOf && v.held == held
      && v.ring == Ring(order, discovery, discoveryGeneration)
      && AllTallied(v, pools)
      && Counts(v, v.bindings.Keys, activeCount, remoteCapacity, unknownSessions)
  }

  ghost predicate RemoteWithinTier(v: View, t: TierID)
    requires Members(v, t) <= v.bindings.Keys && t in v.parallelism
  {
    Sum(Members(v, t), Effectives(v.bindings)) <= v.parallelism[t]
  }

  /** Capacity that may be in force remotely never exceeds a budget. */
  ghost predicate RemoteWithinBudgets(v: View)
    requires ValidView(v)
  {
    && (forall t {:trigger RemoteWithinTier(v, t)} :: t in v.parallelism ==> RemoteWithinTier(v, t))
    && (v.limit > 0 ==> Sum(v.bindings.Keys, Effectives(v.bindings)) <= v.limit)
  }
}
