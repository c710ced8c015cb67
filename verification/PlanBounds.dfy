/**
 What every plan keeps to, with the discovery credit counted in.
 */
module PlanBounds {
  import opened Base
  import opened Sums
  import opened Ledger
  import opened Planning
  import F = Fairness

  /** A total may exceed its budget only by work that was already running. */
  lemma FairTotal(m: F.Market, x: F.Capacities, s: set<BindingKey>, budget: int)
    requires F.Shaped(m, x) && F.Bounded(m, x) && s <= m.claims.Keys
    requires forall k :: k in s && F.Grown(m, x, k) ==> Sum(s, x) <= budget
    ensures Sum(s, x) <= Max(budget, Sum(s, F.Floors(m)))
  {
    if forall k :: k in s ==> x[k] == m.claims[k].active {
      SumLe(s, x, F.Floors(m));
    }
  }

  /** One credit at most, and only out of what was left. */
  lemma OneMore(s: set<BindingKey>, x: F.Capacities, d: F.Capacities, bound: int, budget: int)
    requires s <= x.Keys && s <= d.Keys && Sum(s, x) <= bound && budget <= bound
    requires forall k :: k in s ==> d[k] == x[k] || (d[k] <= x[k] + 1 && Sum(s, x) < budget)
    requires forall i, j :: i in s && j in s && d[i] != x[i] && d[j] != x[j] ==> i == j
    ensures Sum(s, d) <= bound
  {
    if k :| k in s && d[k] != x[k] {
      SumUpdate(s, x, k, d[k]);
      SumLe(s, d, x[k := d[k]]);
    } else {
      SumLe(s, d, x);
    }
  }

  /** Among the bindings of a tier, or of an instance with a limit, at most one holds the credit. */
  lemma OneHolder(v: View, s: set<BindingKey>)
    requires ValidView(v) && s <= v.bindings.Keys
    requires v.limit > 0 || exists t :: s <= Members(v, t)
    ensures forall i, j :: i in s && j in s && Holds(v, i) && Holds(v, j) ==> i == j
  {
  }

  lemma SharesAreBounded(v: View)
    requires ValidView(v)
    ensures F.Shaped(MarketOf(v), Shares(v)) && F.Fair(MarketOf(v), Shares(v))
    ensures F.Floors(MarketOf(v)) == Actives(v.bindings)
  {
    MarketIsWellFormed(v);
  }

  /** Work that runs is always advertised, and a held binding advertises nothing more. */
  lemma DesiredCoversWork(v: View, k: BindingKey)
    requires ValidView(v) && k in v.bindings
    ensures v.bindings[k].active <= Desired(v)[k]
    ensures v.bindings[k].held ==> Desired(v)[k] == v.bindings[k].active
    ensures Desired(v)[k] == Shares(v)[k] || (Shares(v)[k] == 0 && Desired(v)[k] == 1 && Holds(v, k) && Funded(v, Shares(v), k))
    ensures Desired(v)[k] <= Max(Max(v.bindings[k].active, v.bindings[k].assignedDemand), 1)
  {
    hide ValidView, Sum, Distinct, ToSet;
    SharesAreBounded(v);
    var m := MarketOf(v);
    assert k in m.claims && m.claims[k] == v.bindings[k].Claim();
    assert F.Grown(m, Shares(v), k) || Shares(v)[k] == v.bindings[k].active;
  }

  lemma DesiredWithinBudget(v: View, s: set<BindingKey>, budget: int)
    requires ValidView(v) && s <= v.bindings.Keys
    requires v.limit > 0 || exists t :: s <= Members(v, t)
    requires forall k :: k in s && F.Grown(MarketOf(v), Shares(v), k) ==> Sum(s, Shares(v)) <= budget
    requires forall k :: k in s && Funded(v, Shares(v), k) ==> Sum(s, Shares(v)) < budget
    ensures Sum(s, Desired(v)) <= Max(budget, Sum(s, Actives(v.bindings)))
  {
    SharesAreBounded(v);
    FairTotal(MarketOf(v), Shares(v), s, budget);
    OneHolder(v, s);
    forall k | k in s
      ensures Desired(v)[k] == Shares(v)[k] ||
              (Desired(v)[k] <= Shares(v)[k] + 1 && Holds(v, k) && Sum(s, Shares(v)) < budget)
    {
      DesiredCoversWork(v, k);
    }
    OneMore(s, Shares(v), Desired(v), Max(budget, Sum(s, Actives(v.bindings))), budget);
  }

  /** Every plan, in every state: totals stay within the budgets, or within what already runs. */
  lemma PlanKeepsBudgets(v: View, p: Plan)
    requires ValidView(v) && PlanOf(v, p)
    ensures p.totalAdvertised == Sum(v.bindings.Keys, p.desired)
    ensures forall t :: t in v.parallelism ==>
              Sum(Members(v, t), p.desired) <= Max(v.parallelism[t], Sum(Members(v, t), Actives(v.bindings)))
    ensures v.limit > 0 ==> p.totalAdvertised <= Max(v.limit, Sum(v.bindings.Keys, Actives(v.bindings)))
  {
    SharesAreBounded(v);
    var m := MarketOf(v);
    forall t | t in v.parallelism
      ensures Sum(Members(v, t), p.desired) <= Max(v.parallelism[t], Sum(Members(v, t), Actives(v.bindings)))
    {
      assert F.Members(m, t) == Members(v, t);
      DesiredWithinBudget(v, Members(v, t), v.parallelism[t]);
    }
    if v.limit > 0 {
      DesiredWithinBudget(v, v.bindings.Keys, v.limit);
    }
  }

  /** Whoever holds a ring's credit is one of the ring's bindings. */
  lemma HolderIsMember(r: Ring, members: set<BindingKey>, k: BindingKey)
    requires RingOf(r, members) && HolderOf(r) == Some(k)
    ensures k in members
  {
    assert r.order[r.cursor] in ToSet(r.order);
  }

  lemma NamedByTier(v: View, t: TierID, k: BindingKey)
    requires ValidView(v) && v.limit == 0
    ensures t in Discoveries(v) && Discoveries(v)[t] == k <==> k in v.bindings && v.tierOf[k] == t && Holds(v, k)
  {
    hide Distinct, ToSet, SameOrder, RingOf;
    if t in v.rings && HolderOf(v.rings[t]) == Some(k) {
      assert TierRing(v, t);
      HolderIsMember(v.rings[t], Members(v, t), k);
    }
  }

  lemma NamedByInstance(v: View, t: TierID, k: BindingKey)
    requires ValidView(v) && v.limit > 0
    ensures t in Discoveries(v) && Discoveries(v)[t] == k <==> k in v.bindings && v.tierOf[k] == t && Holds(v, k)
  {
    hide Distinct, ToSet, SameOrder, RingOf, TierRing;
    if HolderOf(v.ring).Some? {
      HolderIsMember(v.ring, v.bindings.Keys, HolderOf(v.ring).value);
    }
  }

  /** The plan names the holder of each ring under its own tier, and nobody else. */
  lemma NamedExactly(v: View, p: Plan, t: TierID, k: BindingKey)
    requires ValidView(v) && PlanOf(v, p)
    ensures t in p.discoveryByTier && p.discoveryByTier[t] == k <==> k in v.bindings && v.tierOf[k] == t && Holds(v, k)
  {
    hide Distinct, ToSet, SameOrder, RingOf, TierRing, Discoveries, Reflects, Desired, Holds;
    if v.limit == 0 {
      NamedByTier(v, t, k);
    } else {
      NamedByInstance(v, t, k);
    }
  }

  lemma SameTierShares(tierOf: map<BindingKey, TierID>, tiers: set<TierID>, p: Plan, q: Plan, t: TierID)
    requires Reflects(tierOf, tiers, p) && Reflects(tierOf, tiers, q) && p.desired == q.desired && t in tiers
    ensures p.byTier[t] == q.byTier[t]
  {
    forall k ensures k in p.byTier[t] <==> k in q.byTier[t] {
      assert k in p.byTier[t] ==> k in q.byTier[tierOf[k]];
      assert k in q.byTier[t] ==> k in p.byTier[tierOf[k]];
    }
  }

  /** The state determines its plan, whatever order the pools were met in: only the visit count may differ. */
  lemma PlanIsDetermined(v: View, p: Plan, q: Plan)
    requires ValidView(v) && PlanOf(v, p) && PlanOf(v, q)
    ensures p == q.(generation := p.generation, allocationVisits := p.allocationVisits)
  {
    forall t | t in v.parallelism ensures p.byTier[t] == q.byTier[t] {
      SameTierShares(v.tierOf, v.parallelism.Keys, p, q, t);
    }
    assert p.byTier == q.byTier;
  }
}
