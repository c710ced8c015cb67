/**
 What an allocation plan means.

 The free credits of every tier are shared max-min fairly among the bindings that want
 more than they hold. The contract is one credit at a time: the least-filled binding that
 still wants a credit, whose tier and instance both have room, earliest registered on a
 tie. `Greedy` is that loop. `Fair` says the same thing without a loop, and `FairIsUnique`
 shows that no two distributions satisfy it, so anything shown `Fair` is what the loop
 computes.
 */
module Fairness {
  import opened Base
  import opened Sums

  /** What one binding contributes to the allocation. */
  datatype Claim = Claim(active: nat, demand: nat, held: bool)

  /** The inputs of the distribution; `limit` is zero when tiers are independent. */
  datatype Market = Market(
    limit: nat,
    parallelism: map<TierID, nat>,
    order: seq<BindingKey>,
    tierOf: map<BindingKey, TierID>,
    claims: map<BindingKey, Claim>)

  type Capacities = map<BindingKey, int>

  ghost predicate WellFormed(m: Market) {
    match m
    case Market(_, parallelism, order, tierOf, claims) =>
      && Distinct(order)
      && ToSet(order) == claims.Keys == tierOf.Keys
      && forall k :: k in tierOf ==> tierOf[k] in parallelism
  }

  ghost predicate Shaped(m: Market, x: Capacities) {
    WellFormed(m) && x.Keys == m.claims.Keys
  }

  ghost function Keys(m: Market): set<BindingKey> { m.claims.Keys }

  ghost function Members(m: Market, t: TierID): set<BindingKey> {
    set k | k in m.tierOf && m.tierOf[k] == t
  }

  ghost function TierTotal(m: Market, x: Capacities, t: TierID): int
    requires Shaped(m, x)
  {
    Sum(Members(m, t), x)
  }

  ghost function Total(m: Market, x: Capacities): int
    requires Shaped(m, x)
  {
    Sum(Keys(m), x)
  }

  function Floors(m: Market): (x: Capacities)
    ensures x.Keys == m.claims.Keys
  {
    map k | k in m.claims :: m.claims[k].active
  }

  ghost predicate Wants(m: Market, x: Capacities, k: BindingKey)
    requires k in m.claims && k in x
  {
    !m.claims[k].held && x[k] < m.claims[k].demand
  }

  ghost predicate TierRoom(m: Market, x: Capacities, t: TierID)
    requires Shaped(m, x) && t in m.parallelism
  {
    TierTotal(m, x, t) < m.parallelism[t]
  }

  ghost predicate InstanceRoom(m: Market, x: Capacities)
    requires Shaped(m, x)
  {
    m.limit == 0 || Total(m, x) < m.limit
  }

  ghost predicate Eligible(m: Market, x: Capacities, k: BindingKey)
    requires Shaped(m, x) && k in m.claims
  {
    Wants(m, x, k) && TierRoom(m, x, m.tierOf[k]) && InstanceRoom(m, x)
  }

  // ---- the contract: one credit at a time ----

  /** The least-filled eligible binding among the first `n` registered; the earliest on a tie. */
  ghost function LeastFilled(m: Market, x: Capacities, n: nat): (r: Option<BindingKey>)
    requires Shaped(m, x) && n <= |m.order|
    ensures r.Some? ==> r.value in m.order[..n] && Eligible(m, x, r.value)
  {
    if n == 0 then None
    else
      var best := LeastFilled(m, x, n - 1);
      var k := m.order[n - 1];
      if Eligible(m, x, k) && (best.None? || x[k] < x[best.value]) then Some(k) else best
  }

  function Grant(x: Capacities, k: BindingKey): Capacities
    requires k in x
  {
    x[k := x[k] + 1]
  }

  /** How far a distribution is from giving everyone what they asked for. */
  ghost function Unmet(m: Market, x: Capacities): map<BindingKey, int>
    requires Shaped(m, x)
  {
    map k | k in m.claims :: Max(0, m.claims[k].demand - x[k])
  }

  ghost function UnmetTotal(m: Market, x: Capacities): (r: nat)
    requires Shaped(m, x)
  {
    SumNonNegative(Keys(m), Unmet(m, x));
    Sum(Keys(m), Unmet(m, x))
  }

  lemma GrantShrinksUnmet(m: Market, x: Capacities, k: BindingKey)
    requires Shaped(m, x) && k in m.claims && Wants(m, x, k)
    ensures UnmetTotal(m, Grant(x, k)) < UnmetTotal(m, x)
  {
    hide Sum;
    SumLt(Keys(m), Unmet(m, Grant(x, k)), Unmet(m, x), k);
  }

  ghost function Greedy(m: Market, x: Capacities): (r: Capacities)
    requires Shaped(m, x)
    decreases UnmetTotal(m, x)
  {
    match LeastFilled(m, x, |m.order|)
    case None => x
    case Some(k) => GrantShrinksUnmet(m, x, k); Greedy(m, Grant(x, k))
  }

  // ---- the same thing, stated without a loop ----

  /** One credit granted at `level` to `i` comes before one at `level'` to `j`. */
  ghost predicate Before(m: Market, level: int, i: BindingKey, level': int, j: BindingKey)
    requires i in m.order && j in m.order
  {
    level < level' || (level == level' && Rank(m.order, i) < Rank(m.order, j))
  }

  ghost predicate Grown(m: Market, x: Capacities, k: BindingKey)
    requires k in m.claims && k in x
  {
    m.claims[k].active < x[k]
  }

  /** Running work is never retracted, and only an unheld binding grows, up to its demand. */
  ghost predicate Bounded(m: Market, x: Capacities)
    requires Shaped(m, x)
  {
    forall k :: k in m.claims ==>
      && m.claims[k].active <= x[k]
      && (Grown(m, x, k) ==> !m.claims[k].held && x[k] <= m.claims[k].demand)
  }

  /** Whatever was granted fits both budgets. */
  ghost predicate WithinBudgets(m: Market, x: Capacities)
    requires Shaped(m, x)
  {
    forall k :: k in m.claims && Grown(m, x, k) ==>
      && TierTotal(m, x, m.tierOf[k]) <= m.parallelism[m.tierOf[k]]
      && (m.limit > 0 ==> Total(m, x) <= m.limit)
  }

  /** No credit went to `i` that `j` should have had first. */
  ghost predicate NoEnvy(m: Market, x: Capacities)
    requires Shaped(m, x)
  {
    forall i, j :: i in m.claims && j in m.claims && Grown(m, x, i) && Wants(m, x, j)
      && (m.tierOf[i] == m.tierOf[j] || TierRoom(m, x, m.tierOf[j]))
      ==> Before(m, x[i] - 1, i, x[j], j)
  }

  /** Nobody who wants a credit could still be given one. */
  ghost predicate Exhausted(m: Market, x: Capacities)
    requires Shaped(m, x)
  {
    forall k :: k in m.claims ==> !Eligible(m, x, k)
  }

  ghost predicate PartiallyFair(m: Market, x: Capacities)
    requires Shaped(m, x)
  {
    Bounded(m, x) && WithinBudgets(m, x) && NoEnvy(m, x)
  }

  ghost predicate Fair(m: Market, x: Capacities)
    requires Shaped(m, x)
  {
    PartiallyFair(m, x) && Exhausted(m, x)
  }

  // ---- the two agree ----

  lemma {:induction false} LeastFilledIsFirst(m: Market, x: Capacities, n: nat, j: nat)
    requires Shaped(m, x) && n <= |m.order| && j < n && Eligible(m, x, m.order[j])
    ensures LeastFilled(m, x, n).Some?
    ensures
      var k := LeastFilled(m, x, n).value;
      k == m.order[j] || x[k] < x[m.order[j]] || (x[k] == x[m.order[j]] && Rank(m.order, k) < j)
  {
    RankAt(m.order, j);
    RankAt(m.order, n - 1);
    if j < n - 1 {
      LeastFilledIsFirst(m, x, n - 1, j);
    } else {
      var best := LeastFilled(m, x, n - 1);
      if best.Some? {
        var i :| 0 <= i < n - 1 && m.order[i] == best.value;
        RankAt(m.order, i);
      }
    }
  }

  lemma GrantTotals(m: Market, x: Capacities, k: BindingKey)
    requires Shaped(m, x) && k in m.claims
    ensures Total(m, Grant(x, k)) == Total(m, x) + 1
    ensures forall t :: TierTotal(m, Grant(x, k), t) == TierTotal(m, x, t) + if t == m.tierOf[k] then 1 else 0
  {
    SumUpdate(Keys(m), x, k, x[k] + 1);
    forall t ensures TierTotal(m, Grant(x, k), t) == TierTotal(m, x, t) + if t == m.tierOf[k] then 1 else 0 {
      SumUpdate(Members(m, t), x, k, x[k] + 1);
    }
  }

  lemma GrantKeepsNoEnvy(m: Market, x: Capacities, k: BindingKey, i: BindingKey, j: BindingKey)
    requires Shaped(m, x) && NoEnvy(m, x) && LeastFilled(m, x, |m.order|) == Some(k)
    requires i in m.claims && j in m.claims
    requires Grown(m, Grant(x, k), i) && Wants(m, Grant(x, k), j)
    requires m.tierOf[i] == m.tierOf[j] || TierRoom(m, Grant(x, k), m.tierOf[j])
    ensures Before(m, Grant(x, k)[i] - 1, i, Grant(x, k)[j], j)
  {
    GrantTotals(m, x, k);
    if i == k && j != k {
      assert Eligible(m, x, j);
      LeastFilledIsFirst(m, x, |m.order|, Rank(m.order, j));
    } else if i != k {
      assert Before(m, x[i] - 1, i, x[j], j);
    }
  }

  /** Handing the next credit to the least-filled eligible binding keeps every promise. */
  lemma GrantKeepsFairness(m: Market, x: Capacities, k: BindingKey)
    requires Shaped(m, x) && PartiallyFair(m, x)
    requires LeastFilled(m, x, |m.order|) == Some(k)
    ensures Shaped(m, Grant(x, k)) && PartiallyFair(m, Grant(x, k))
  {
    hide Sum;
    var y := Grant(x, k);
    forall i, j | i in m.claims && j in m.claims && Grown(m, y, i) && Wants(m, y, j)
      && (m.tierOf[i] == m.tierOf[j] || TierRoom(m, y, m.tierOf[j]))
      ensures Before(m, y[i] - 1, i, y[j], j)
    {
      GrantKeepsNoEnvy(m, x, k, i, j);
    }
    GrantTotals(m, x, k);
  }

  lemma NoneLeft(m: Market, x: Capacities)
    requires Shaped(m, x) && LeastFilled(m, x, |m.order|).None?
    ensures Exhausted(m, x)
  {
    forall k | k in m.claims ensures !Eligible(m, x, k) {
      if Eligible(m, x, k) {
        LeastFilledIsFirst(m, x, |m.order|, Rank(m.order, k));
      }
    }
  }

  lemma {:induction false} GreedyIsFair(m: Market, x: Capacities)
    requires Shaped(m, x) && PartiallyFair(m, x)
    ensures Shaped(m, Greedy(m, x)) && Fair(m, Greedy(m, x))
    decreases UnmetTotal(m, x)
  {
    match LeastFilled(m, x, |m.order|)
    case None =>
      NoneLeft(m, x);
    case Some(k) =>
      GrantKeepsFairness(m, x, k);
      GrantShrinksUnmet(m, x, k);
      GreedyIsFair(m, Grant(x, k));
  }

  /** The smallest credit on which two distributions disagree: its level and its taker. */
  ghost predicate FirstDifference(m: Market, x: Capacities, y: Capacities, j: BindingKey)
    requires Shaped(m, x) && Shaped(m, y) && j in m.claims
  {
    && x[j] != y[j]
    && forall i :: i in m.claims && x[i] != y[i] && i != j ==>
         Before(m, Min(x[j], y[j]), j, Min(x[i], y[i]), i)
  }

  lemma {:induction false} FindFirstDifference(m: Market, x: Capacities, y: Capacities, n: nat)
    returns (j: BindingKey)
    requires Shaped(m, x) && Shaped(m, y) && n <= |m.order|
    requires exists i :: 0 <= i < n && x[m.order[i]] != y[m.order[i]]
    ensures j in m.order[..n] && x[j] != y[j]
    ensures forall i :: 0 <= i < n && x[m.order[i]] != y[m.order[i]] && m.order[i] != j ==>
      Before(m, Min(x[j], y[j]), j, Min(x[m.order[i]], y[m.order[i]]), m.order[i])
  {
    hide Distinct;
    var k := m.order[n - 1];
    RankAt(m.order, n - 1);
    if exists i :: 0 <= i < n - 1 && x[m.order[i]] != y[m.order[i]] {
      j := FindFirstDifference(m, x, y, n - 1);
      var p :| 0 <= p < n - 1 && m.order[p] == j;
      RankAt(m.order, p);
      if x[k] != y[k] && Min(x[k], y[k]) < Min(x[j], y[j]) {
        j := k;
      }
    } else {
      j := k;
    }
  }

  /** Where two distributions first differ, the one that stops short left a credit it could grant. */
  lemma StoppedShort(m: Market, x: Capacities, y: Capacities, j: BindingKey)
    requires Shaped(m, x) && Shaped(m, y) && PartiallyFair(m, x) && PartiallyFair(m, y)
    requires j in m.claims && FirstDifference(m, x, y, j) && y[j] < x[j]
    ensures Eligible(m, y, j)
  {
    assert Grown(m, x, j) && Wants(m, y, j);
    forall i | i in Members(m, m.tierOf[j]) ensures y[i] <= x[i] {
      assert Grown(m, y, i) ==> Before(m, y[i] - 1, i, y[j], j);
    }
    SumLt(Members(m, m.tierOf[j]), y, x, j);
    forall i | i in m.claims ensures y[i] <= x[i] {
      assert Grown(m, y, i) ==> Before(m, y[i] - 1, i, y[j], j);
    }
    SumLt(Keys(m), y, x, j);
  }

  lemma SomeFirstDifference(m: Market, x: Capacities, y: Capacities) returns (j: BindingKey)
    requires Shaped(m, x) && Shaped(m, y) && x != y
    ensures j in m.claims && FirstDifference(m, x, y, j)
  {
    var k :| k in m.claims && x[k] != y[k];
    assert m.order[Rank(m.order, k)] == k;
    j := FindFirstDifference(m, x, y, |m.order|);
    forall i | i in m.claims && x[i] != y[i] && i != j
      ensures Before(m, Min(x[j], y[j]), j, Min(x[i], y[i]), i)
    {
      assert m.order[Rank(m.order, i)] == i;
    }
  }

  /** The fair distribution is unique: fairness determines every binding's capacity. */
  lemma FairIsUnique(m: Market, x: Capacities, y: Capacities)
    requires Shaped(m, x) && Shaped(m, y) && Fair(m, x) && Fair(m, y)
    ensures x == y
  {
    if x != y {
      var j := SomeFirstDifference(m, x, y);
      if y[j] < x[j] {
        StoppedShort(m, x, y, j);
      } else {
        StoppedShort(m, y, x, j);
      }
    }
  }

  /** The distribution the allocator promises: the credit-at-a-time loop from the running work. */
  ghost function Distribution(m: Market): (x: Capacities)
    requires WellFormed(m)
    ensures Shaped(m, x) && Fair(m, x)
  {
    GreedyIsFair(m, Floors(m));
    Greedy(m, Floors(m))
  }

  lemma FairIsDistribution(m: Market, x: Capacities)
    requires Shaped(m, x) && Fair(m, x)
    ensures x == Distribution(m)
  {
    FairIsUnique(m, x, Distribution(m));
  }
}
