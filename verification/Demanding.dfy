/**
 What reporting demand achieves: demand within the idle credits becomes the binding's share,
 at nobody's expense. And what a registration does to the others' shares: nothing.
 */
module Demanding {
  import opened Base
  import opened Sums
  import opened Ledger
  import opened Planning
  import opened Operations
  import PB = PlanBounds
  import B = Broker
  import E = Enrolment
  import F = Fairness

  /** The demand is on record, negative as none, and no binding changed otherwise. */
  lemma DemandIsRecorded(v: View, k: BindingKey, demand: int)
    requires k in v.bindings
    ensures Demanded(v, k, demand).bindings == v.bindings[k := v.bindings[k].(assignedDemand := Max(demand, 0))]
    ensures Demanded(v, k, demand).ring.order == v.ring.order && Demanded(v, k, demand).held == v.held
    ensures Demanded(v, k, demand).limit == v.limit && Demanded(v, k, demand).parallelism == v.parallelism
    ensures Demanded(v, k, demand).tierOf == v.tierOf
  {
    hide AdvanceFrom;
    AdvanceTouchesRings(Rebind(v, k, v.bindings[k].(assignedDemand := Max(demand, 0))), k);
  }

  lemma AdvanceTouchesRings(v: View, k: BindingKey)
    ensures AdvanceFrom(v, k).bindings == v.bindings && AdvanceFrom(v, k).ring.order == v.ring.order
    ensures AdvanceFrom(v, k).held == v.held && AdvanceFrom(v, k).limit == v.limit
    ensures AdvanceFrom(v, k).parallelism == v.parallelism && AdvanceFrom(v, k).tierOf == v.tierOf
  {
    hide Next, Qualifies;
  }

  /** `k` asks for `d`, in a market that is otherwise the same. */
  function Asking(m: F.Market, k: BindingKey, d: nat): F.Market
    requires k in m.claims
  {
    m.(claims := m.claims[k := m.claims[k].(demand := d)])
  }

  lemma DemandedAsks(v: View, k: BindingKey, d: nat)
    requires ValidView(v) && k in v.bindings
    ensures ValidView(Demanded(v, k, d)) && MarketOf(Demanded(v, k, d)) == Asking(MarketOf(v), k, d)
  {
    hide Demanded, Distinct, ToSet, TierRing, RingOf;
    B.DemandedKeeps(v, k, d);
    DemandIsRecorded(v, k, d);
    assert MarketOf(Demanded(v, k, d)).claims == Asking(MarketOf(v), k, d).claims;
  }

  /** Beyond `x`, both budgets of `k` have this many credits idle. */
  ghost predicate Idle(m: F.Market, x: F.Capacities, k: BindingKey, n: int)
    requires F.Shaped(m, x) && k in m.claims
  {
    && F.TierTotal(m, x, m.tierOf[k]) + n <= m.parallelism[m.tierOf[k]]
    && (m.limit > 0 ==> F.Total(m, x) + n <= m.limit)
  }

  /** What `k` may be given: no less than its share, and no more than that and the idle credits. */
  ghost predicate Affordable(m: F.Market, x: F.Capacities, k: BindingKey, d: int)
    requires F.Shaped(m, x) && k in m.claims
  {
    x[k] == d || (x[k] < d && Idle(m, x, k, d - x[k]))
  }

  lemma TotalsMove(m: F.Market, x: F.Capacities, k: BindingKey, d: nat)
    requires F.Shaped(m, x) && k in m.claims
    ensures F.Shaped(Asking(m, k, d), x[k := d])
    ensures F.Total(Asking(m, k, d), x[k := d]) == F.Total(m, x) + d - x[k]
    ensures forall t :: F.TierTotal(Asking(m, k, d), x[k := d], t)
                        == F.TierTotal(m, x, t) + if t == m.tierOf[k] then d - x[k] else 0
  {
    hide Sum, Distinct, ToSet;
    var m', x' := Asking(m, k, d), x[k := d];
    assert F.Keys(m') == F.Keys(m);
    SumUpdate(F.Keys(m), x, k, d);
    forall t ensures F.TierTotal(m', x', t) == F.TierTotal(m, x, t) + if t == m.tierOf[k] then d - x[k] else 0 {
      assert F.Members(m', t) == F.Members(m, t);
      SumUpdate(F.Members(m, t), x, k, d);
    }
  }

  /** Where credits are idle nobody else is waiting for them. */
  lemma NobodyWaits(m: F.Market, x: F.Capacities, k: BindingKey, d: nat, j: BindingKey)
    requires F.Shaped(m, x) && F.Fair(m, x) && k in m.claims && j in m.claims && x[k] < d && Idle(m, x, k, d - x[k])
    requires F.Wants(m, x, j)
    ensures m.tierOf[j] != m.tierOf[k] && !F.TierRoom(m, x, m.tierOf[j])
  {
    hide Sum, F.TierTotal, F.Total, F.PartiallyFair, F.WellFormed;
    assert !F.Eligible(m, x, j);
  }

  lemma StaysBounded(m: F.Market, x: F.Capacities, k: BindingKey, d: nat)
    requires F.Shaped(m, x) && F.Bounded(m, x) && k in m.claims && !m.claims[k].held && x[k] <= d
    ensures F.Shaped(Asking(m, k, d), x[k := d]) && F.Bounded(Asking(m, k, d), x[k := d])
  {
    hide Sum, Distinct, ToSet;
  }

  lemma StaysWithinBudgets(m: F.Market, x: F.Capacities, k: BindingKey, d: nat)
    requires F.Shaped(m, x) && F.WithinBudgets(m, x) && k in m.claims && Affordable(m, x, k, d)
    ensures F.Shaped(Asking(m, k, d), x[k := d]) && F.WithinBudgets(Asking(m, k, d), x[k := d])
  {
    hide Sum, F.TierTotal, F.Total, Distinct, ToSet;
    var m', x' := Asking(m, k, d), x[k := d];
    TotalsMove(m, x, k, d);
    forall j | j in m'.claims && F.Grown(m', x', j)
      ensures F.TierTotal(m', x', m'.tierOf[j]) <= m'.parallelism[m'.tierOf[j]] && (m'.limit > 0 ==> F.Total(m', x') <= m'.limit)
    {
      assert j != k ==> F.Grown(m, x, j);
    }
  }

  lemma StaysWithoutEnvy(m: F.Market, x: F.Capacities, k: BindingKey, d: nat)
    requires F.Shaped(m, x) && F.Fair(m, x) && k in m.claims && Affordable(m, x, k, d)
    ensures F.Shaped(Asking(m, k, d), x[k := d]) && F.NoEnvy(Asking(m, k, d), x[k := d])
  {
    hide Sum, F.TierTotal, F.Total, Distinct, F.Exhausted, F.Before, F.Bounded, F.WithinBudgets;
    var m', x' := Asking(m, k, d), x[k := d];
    TotalsMove(m, x, k, d);
    forall i, j | i in m'.claims && j in m'.claims && F.Grown(m', x', i) && F.Wants(m', x', j)
      && (m'.tierOf[i] == m'.tierOf[j] || F.TierRoom(m', x', m'.tierOf[j]))
      ensures F.Before(m', x'[i] - 1, i, x'[j], j)
    {
      assert j != k && F.Wants(m, x, j);
      if x[k] < d {
        NobodyWaits(m, x, k, d, j);
      }
      assert F.Grown(m, x, i);
      SameBefore(m, k, d, x[i] - 1, i, x[j], j);
    }
  }

  lemma SameBefore(m: F.Market, k: BindingKey, d: nat, level: int, i: BindingKey, level': int, j: BindingKey)
    requires k in m.claims && i in m.order && j in m.order
    ensures F.Before(Asking(m, k, d), level, i, level', j) == F.Before(m, level, i, level', j)
  {
  }

  lemma StaysExhausted(m: F.Market, x: F.Capacities, k: BindingKey, d: nat)
    requires F.Shaped(m, x) && F.Exhausted(m, x) && k in m.claims && x[k] <= d
    ensures F.Shaped(Asking(m, k, d), x[k := d]) && F.Exhausted(Asking(m, k, d), x[k := d])
  {
    hide Sum, F.TierTotal, F.Total, Distinct, ToSet;
    var m', x' := Asking(m, k, d), x[k := d];
    TotalsMove(m, x, k, d);
    forall j | j in m'.claims ensures !F.Eligible(m', x', j) {
      assert !F.Eligible(m, x, j);
    }
  }

  ghost predicate Covered(v: View, k: BindingKey, d: int)
    requires ValidView(v) && k in v.bindings
  {
    MarketIsWellFormed(v);
    Affordable(MarketOf(v), Shares(v), k, d)
  }

  /**
   Demand that the share and the idle credits of both budgets cover becomes the share; nobody
   else's share moves, and the plan asks for exactly the demand.
   */
  lemma DemandBecomesShare(v: View, k: BindingKey, d: nat)
    requires ValidView(v) && k in v.bindings && !v.held && Covered(v, k, d)
    ensures ValidView(Demanded(v, k, d)) && Shares(Demanded(v, k, d)) == Shares(v)[k := d]
    ensures d > 0 ==> Desired(Demanded(v, k, d))[k] == d
  {
    hide Sum, Distinct, ToSet, TierRing, RingOf, Demanded, Asking, F.Fair, Affordable, MarketOf;
    var m, x := MarketOf(v), Shares(v);
    PB.SharesAreBounded(v);
    MarketHas(v, k);
    DemandedAsks(v, k, d);
    FairAfter(m, x, k, d);
    F.FairIsDistribution(Asking(m, k, d), x[k := d]);
    DemandIsRecorded(v, k, d);
    PB.DesiredCoversWork(Demanded(v, k, d), k);
  }

  /** A silent holder with a credit idle in both budgets is given it to look with; without one, it gets nothing. */
  lemma IdleCreditIsLent(v: View, k: BindingKey)
    requires ValidView(v) && k in v.bindings && Holds(v, k)
    requires !v.held && v.bindings[k].assignedDemand == 0 && v.bindings[k].active == 0
    ensures F.WellFormed(MarketOf(v)) && k in MarketOf(v).claims
    ensures Desired(v)[k] == if Idle(MarketOf(v), Shares(v), k, 1) then 1 else 0
  {
    hide Sum, Distinct, ToSet, TierRing, RingOf;
    MarketIsWellFormed(v);
    PB.DesiredCoversWork(v, k);
    SilentShare(v, k);
  }

  lemma SilentShare(v: View, k: BindingKey)
    requires ValidView(v) && k in v.bindings && v.bindings[k].assignedDemand == 0 && v.bindings[k].active == 0
    ensures Shares(v)[k] == 0
  {
    hide Sum, Distinct, ToSet, TierRing, RingOf;
    PB.SharesAreBounded(v);
    assert MarketOf(v).claims[k] == v.bindings[k].Claim();
    assert F.Bounded(MarketOf(v), Shares(v));
  }

  /** Whoever does not hold the credit, or is not silent, asks for its share. */
  lemma OthersAskForTheirShare(v: View, k: BindingKey)
    requires ValidView(v) && k in v.bindings && (!Holds(v, k) || !v.bindings[k].Silent())
    ensures Desired(v)[k] == Shares(v)[k]
  {
    hide Sum, Distinct, ToSet, TierRing, RingOf;
  }

  lemma MarketHas(v: View, k: BindingKey)
    requires ValidView(v) && k in v.bindings
    ensures k in MarketOf(v).claims && MarketOf(v).claims[k].held == v.held
  {
  }

  lemma FairAfter(m: F.Market, x: F.Capacities, k: BindingKey, d: nat)
    requires F.Shaped(m, x) && F.Fair(m, x) && k in m.claims && !m.claims[k].held && Affordable(m, x, k, d)
    ensures F.Shaped(Asking(m, k, d), x[k := d]) && F.Fair(Asking(m, k, d), x[k := d])
  {
    hide Sum, F.Bounded, F.WithinBudgets, F.NoEnvy, F.Exhausted, Asking, F.Shaped, F.TierTotal, F.Total;
    StaysBounded(m, x, k, d);
    StaysWithinBudgets(m, x, k, d);
    StaysWithoutEnvy(m, x, k, d);
    StaysExhausted(m, x, k, d);
  }

  // ---- a newcomer ----

  /** The market with one more binding, which runs and asks for nothing. */
  function Joined(m: F.Market, t: TierID, k: BindingKey, parallelism: nat, held: bool): F.Market {
    m.(parallelism := m.parallelism[t := parallelism], order := m.order + [k], tierOf := m.tierOf[k := t],
       claims := m.claims[k := F.Claim(0, 0, held)])
  }

  ghost predicate MayJoin(m: F.Market, t: TierID, k: BindingKey, parallelism: nat) {
    F.WellFormed(m) && k !in m.claims && (t in m.parallelism ==> m.parallelism[t] == parallelism)
  }

  lemma JoinedIsShaped(m: F.Market, x: F.Capacities, t: TierID, k: BindingKey, parallelism: nat, held: bool)
    requires MayJoin(m, t, k, parallelism) && F.Shaped(m, x)
    ensures F.Shaped(Joined(m, t, k, parallelism, held), x[k := 0])
  {
    var m' := Joined(m, t, k, parallelism, held);
    assert k !in m.order by {
      assert k !in ToSet(m.order);
    }
    assert ToSet(m'.order) == ToSet(m.order) + {k};
  }

  lemma JoinedTotals(m: F.Market, x: F.Capacities, t: TierID, k: BindingKey, parallelism: nat, held: bool)
    requires MayJoin(m, t, k, parallelism) && F.Shaped(m, x) && F.Shaped(Joined(m, t, k, parallelism, held), x[k := 0])
    ensures F.Total(Joined(m, t, k, parallelism, held), x[k := 0]) == F.Total(m, x)
    ensures forall s :: F.TierTotal(Joined(m, t, k, parallelism, held), x[k := 0], s) == F.TierTotal(m, x, s)
  {
    hide Sum, Distinct, ToSet;
    var m', x' := Joined(m, t, k, parallelism, held), x[k := 0];
    SumGrows(F.Keys(m), x, x', k);
    assert F.Keys(m') == F.Keys(m) + {k};
    forall s ensures F.TierTotal(m', x', s) == F.TierTotal(m, x, s) {
      SumGrows(F.Members(m, s), x, x', k);
      assert F.Members(m', s) == if s == t then F.Members(m, s) + {k} else F.Members(m, s);
    }
  }

  lemma JoinedOrder(m: F.Market, t: TierID, k: BindingKey, parallelism: nat, held: bool, i: BindingKey)
    requires MayJoin(m, t, k, parallelism) && F.WellFormed(Joined(m, t, k, parallelism, held)) && i in m.order
    ensures Rank(Joined(m, t, k, parallelism, held).order, i) == Rank(m.order, i)
  {
    RankAt(m.order + [k], Rank(m.order, i));
  }

  lemma JoinedPartlyFair(m: F.Market, x: F.Capacities, t: TierID, k: BindingKey, parallelism: nat, held: bool)
    requires MayJoin(m, t, k, parallelism) && F.Shaped(m, x) && F.Fair(m, x)
    requires F.Shaped(Joined(m, t, k, parallelism, held), x[k := 0])
    ensures F.PartiallyFair(Joined(m, t, k, parallelism, held), x[k := 0])
  {
    hide Sum, Distinct, F.TierTotal, F.Total, F.Exhausted;
    var m', x' := Joined(m, t, k, parallelism, held), x[k := 0];
    JoinedTotals(m, x, t, k, parallelism, held);
    forall j | j in m'.claims && F.Grown(m', x', j)
      ensures F.TierTotal(m', x', m'.tierOf[j]) <= m'.parallelism[m'.tierOf[j]] && (m'.limit > 0 ==> F.Total(m', x') <= m'.limit)
    {
      assert j != k && F.Grown(m, x, j);
    }
    forall i, j | i in m'.claims && j in m'.claims && F.Grown(m', x', i) && F.Wants(m', x', j)
      && (m'.tierOf[i] == m'.tierOf[j] || F.TierRoom(m', x', m'.tierOf[j]))
      ensures F.Before(m', x'[i] - 1, i, x'[j], j)
    {
      assert i != k && j != k && F.Grown(m, x, i) && F.Wants(m, x, j);
      JoinedOrder(m, t, k, parallelism, held, i);
      JoinedOrder(m, t, k, parallelism, held, j);
    }
  }

  lemma JoinedExhausted(m: F.Market, x: F.Capacities, t: TierID, k: BindingKey, parallelism: nat, held: bool)
    requires MayJoin(m, t, k, parallelism) && F.Shaped(m, x) && F.Exhausted(m, x)
    requires F.Shaped(Joined(m, t, k, parallelism, held), x[k := 0])
    ensures F.Exhausted(Joined(m, t, k, parallelism, held), x[k := 0])
  {
    hide Sum, Distinct, ToSet, F.TierTotal, F.Total;
    JoinedTotals(m, x, t, k, parallelism, held);
    forall j | j in m.claims ensures !F.Eligible(Joined(m, t, k, parallelism, held), x[k := 0], j) {
      assert !F.Eligible(m, x, j);
    }
  }

  lemma RegisteredJoins(v: View, t: TierID, k: BindingKey, parallelism: nat)
    requires ValidView(v) && E.Admissible(v, t, k, parallelism)
    ensures ValidView(Registered(v, t, k, parallelism))
    ensures MayJoin(MarketOf(v), t, k, parallelism)
    ensures MarketOf(Registered(v, t, k, parallelism)) == Joined(MarketOf(v), t, k, parallelism, v.held)
  {
    hide Distinct, ToSet, TierRing, RingOf;
    E.RegisteredIsValid(v, t, k, parallelism);
    MarketIsWellFormed(v);
    assert MarketOf(Registered(v, t, k, parallelism)).claims == Joined(MarketOf(v), t, k, parallelism, v.held).claims;
  }

  /** A registration leaves every share as it was, and the newcomer's is nothing. */
  lemma NewcomerDisturbsNobody(v: View, t: TierID, k: BindingKey, parallelism: nat)
    requires ValidView(v) && E.Admissible(v, t, k, parallelism)
    ensures ValidView(Registered(v, t, k, parallelism)) && Shares(Registered(v, t, k, parallelism)) == Shares(v)[k := 0]
  {
    hide Sum, Distinct, ToSet, TierRing, RingOf, F.PartiallyFair, F.Exhausted, MarketOf, Joined, Registered;
    var m, x := MarketOf(v), Shares(v);
    PB.SharesAreBounded(v);
    RegisteredJoins(v, t, k, parallelism);
    JoinedIsShaped(m, x, t, k, parallelism, v.held);
    JoinedPartlyFair(m, x, t, k, parallelism, v.held);
    JoinedExhausted(m, x, t, k, parallelism, v.held);
    F.FairIsDistribution(Joined(m, t, k, parallelism, v.held), x[k := 0]);
  }
}
