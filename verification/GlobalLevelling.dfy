/**
 Two budgets at once. Every tier is filled to one common level, the highest the instance's
 budget pays for; what is left goes out in registration order, one credit each, to the
 bindings standing at that level whose tier still has room. The result is the fair one.
 */
module GlobalLevelling {
  import opened Base
  import opened Sums
  import opened Fairness
  import opened Levelling

  ghost function Budget(m: Market): int
    requires WellFormed(m)
  {
    m.limit - Total(m, Floors(m))
  }

  ghost function TierBudget(m: Market, t: TierID): int
    requires WellFormed(m) && t in m.parallelism
  {
    m.parallelism[t] - TierTotal(m, Floors(m), t)
  }

  /** The clip a tier's candidates get: neither budget can pay for more. */
  ghost function ClipOf(m: Market, k: BindingKey): int
    requires WellFormed(m) && k in m.claims
  {
    Clip(m, Min(Budget(m), TierBudget(m, m.tierOf[k])), k)
  }

  /** A tier with free credit stands at `level`; any other runs what it ran. */
  ghost predicate StagedTier(m: Market, x: Capacities, level: int, t: TierID)
    requires Shaped(m, x) && t in m.parallelism
  {
    if TierBudget(m, t) > 0 then Levelled(m, x, t, Min(Budget(m), TierBudget(m, t)), level)
    else forall k :: k in Members(m, t) ==> x[k] == m.claims[k].active
  }

  ghost predicate Staged(m: Market, x: Capacities, level: int)
    requires Shaped(m, x)
  {
    && m.limit > 0 && Budget(m) > 0
    && forall t :: t in m.parallelism ==> StagedTier(m, x, level, t)
  }

  /** `k` took one of the credits handed out above `level`. */
  ghost predicate Took(m: Market, x: Capacities, y: Capacities, level: int, k: BindingKey)
    requires Shaped(m, x) && Shaped(m, y) && k in m.claims
  {
    x[k] == level && y[k] == level + 1 && Wants(m, x, k)
  }

  ghost predicate Steps(m: Market, x: Capacities, y: Capacities, level: int, n: nat)
    requires Shaped(m, x) && Shaped(m, y)
  {
    forall k :: k in m.claims ==> y[k] == x[k] || (Took(m, x, y, level, k) && Rank(m.order, k) < n)
  }

  ghost predicate KeepsBudgets(m: Market, x: Capacities, y: Capacities)
    requires Shaped(m, x) && Shaped(m, y)
  {
    && Total(m, y) <= m.limit
    && (forall t :: t in m.parallelism ==> TierTotal(m, y, t) <= Max(m.parallelism[t], TierTotal(m, x, t)))
  }

  ghost predicate Standing(m: Market, y: Capacities, level: int, k: BindingKey)
    requires Shaped(m, y) && k in m.claims
  {
    Wants(m, y, k) && y[k] == level
  }

  /** Whoever was looked at and still stands at the level met a full budget. */
  ghost predicate PassedOver(m: Market, y: Capacities, level: int, n: nat)
    requires Shaped(m, y)
  {
    forall j {:trigger Standing(m, y, level, j)} :: j in m.claims && Rank(m.order, j) < n && Standing(m, y, level, j) ==>
      !TierRoom(m, y, m.tierOf[j]) || !InstanceRoom(m, y)
  }

  /** Whoever was passed over for a later binding stands in another tier, a full one. */
  ghost predicate InTurn(m: Market, x: Capacities, y: Capacities, level: int)
    requires Shaped(m, x) && Shaped(m, y)
  {
    forall i, j {:trigger Rank(m.order, i), Standing(m, y, level, j)}
      | i in m.claims && j in m.claims && y[i] != x[i] && Standing(m, y, level, j) ::
      Rank(m.order, j) < Rank(m.order, i) ==> m.tierOf[i] != m.tierOf[j] && !TierRoom(m, y, m.tierOf[j])
  }

  /** The hand-out, after the first `n` registered bindings were looked at. */
  ghost predicate HandedOut(m: Market, x: Capacities, y: Capacities, level: int, n: nat)
    requires Shaped(m, x) && Shaped(m, y)
  {
    Steps(m, x, y, level, n) && KeepsBudgets(m, x, y) && PassedOver(m, y, level, n) && InTurn(m, x, y, level)
  }

  lemma HandOutStarts(m: Market, x: Capacities, level: int)
    requires Shaped(m, x) && Total(m, x) <= m.limit
    ensures HandedOut(m, x, x, level, 0)
  {
  }

  /** A binding that cannot take a credit is passed over. */
  lemma HandOutPasses(m: Market, x: Capacities, y: Capacities, level: int, n: nat)
    requires Shaped(m, x) && Shaped(m, y) && HandedOut(m, x, y, level, n) && n < |m.order|
    requires !Eligible(m, y, m.order[n]) || y[m.order[n]] != level
    ensures HandedOut(m, x, y, level, n + 1)
  {
    assert forall j :: j in m.claims && Rank(m.order, j) == n ==> j == m.order[n];
  }

  lemma GrantTakesRoom(m: Market, y: Capacities, k: BindingKey)
    requires Shaped(m, y) && k in m.claims
    ensures forall t :: t in m.parallelism && TierRoom(m, Grant(y, k), t) ==> TierRoom(m, y, t)
    ensures InstanceRoom(m, Grant(y, k)) ==> InstanceRoom(m, y)
  {
    GrantTotals(m, y, k);
  }

  lemma GrantKeepsTurn(m: Market, x: Capacities, y: Capacities, level: int, n: nat)
    requires Shaped(m, x) && Shaped(m, y) && n < |m.order|
    requires PassedOver(m, y, level, n) && InTurn(m, x, y, level)
    requires Eligible(m, y, m.order[n]) && y[m.order[n]] == level
    ensures PassedOver(m, Grant(y, m.order[n]), level, n + 1) && InTurn(m, x, Grant(y, m.order[n]), level)
  {
    var k := m.order[n];
    var z := Grant(y, k);
    RankAt(m.order, n);
    GrantTakesRoom(m, y, k);
    assert forall j :: j in m.claims && Standing(m, z, level, j) ==> j != k && Standing(m, y, level, j);
    forall i, j | i in m.claims && j in m.claims && z[i] != x[i] && Standing(m, z, level, j)
      && Rank(m.order, j) < Rank(m.order, i)
      ensures m.tierOf[i] != m.tierOf[j] && !TierRoom(m, z, m.tierOf[j])
    {
      if i == k {
        assert !TierRoom(m, y, m.tierOf[j]);
      }
    }
    assert forall j :: j in m.claims && Rank(m.order, j) == n ==> j == k;
  }

  lemma GrantKeepsSteps(m: Market, x: Capacities, y: Capacities, level: int, n: nat)
    requires Shaped(m, x) && Shaped(m, y) && Steps(m, x, y, level, n) && n < |m.order|
    requires Eligible(m, y, m.order[n]) && y[m.order[n]] == level
    ensures Steps(m, x, Grant(y, m.order[n]), level, n + 1)
  {
    RankAt(m.order, n);
  }

  lemma GrantKeepsBudgets(m: Market, x: Capacities, y: Capacities, k: BindingKey)
    requires Shaped(m, x) && Shaped(m, y) && KeepsBudgets(m, x, y) && k in m.claims && Eligible(m, y, k) && m.limit > 0
    ensures KeepsBudgets(m, x, Grant(y, k))
  {
    GrantTotals(m, y, k);
  }

  lemma HandOutGrants(m: Market, x: Capacities, y: Capacities, level: int, n: nat)
    requires Shaped(m, x) && Shaped(m, y) && HandedOut(m, x, y, level, n) && n < |m.order|
    requires Eligible(m, y, m.order[n]) && y[m.order[n]] == level && m.limit > 0
    ensures HandedOut(m, x, Grant(y, m.order[n]), level, n + 1)
  {
    GrantKeepsSteps(m, x, y, level, n);
    GrantKeepsBudgets(m, x, y, m.order[n]);
    GrantKeepsTurn(m, x, y, level, n);
  }

  /** One binding's turn: standing at the level, with room in both budgets, it takes a credit. */
  ghost function Turn(m: Market, y: Capacities, level: int, k: BindingKey): (z: Capacities)
    requires Shaped(m, y) && k in m.claims
    ensures z.Keys == y.Keys
  {
    if Eligible(m, y, k) && y[k] == level then Grant(y, k) else y
  }

  /** The hand-out itself: everybody's turn, in registration order. */
  ghost function HandOut(m: Market, x: Capacities, level: int, n: nat): (y: Capacities)
    requires Shaped(m, x) && n <= |m.order|
    ensures y.Keys == x.Keys
  {
    if n == 0 then x else Turn(m, HandOut(m, x, level, n - 1), level, m.order[n - 1])
  }

  lemma TurnHandsOut(m: Market, x: Capacities, y: Capacities, level: int, n: nat)
    requires Shaped(m, x) && Shaped(m, y) && HandedOut(m, x, y, level, n) && n < |m.order| && 0 < m.limit
    ensures HandedOut(m, x, Turn(m, y, level, m.order[n]), level, n + 1)
  {
    if Eligible(m, y, m.order[n]) && y[m.order[n]] == level {
      HandOutGrants(m, x, y, level, n);
    } else {
      HandOutPasses(m, x, y, level, n);
    }
  }

  lemma {:induction false} HandOutHandsOut(m: Market, x: Capacities, level: int, n: nat)
    requires Shaped(m, x) && n <= |m.order| && 0 < m.limit && Total(m, x) <= m.limit
    ensures HandedOut(m, x, HandOut(m, x, level, n), level, n)
  {
    hide Sum, Distinct, ToSet;
    if n == 0 {
      HandOutStarts(m, x, level);
    } else {
      HandOutHandsOut(m, x, level, n - 1);
      TurnHandsOut(m, x, HandOut(m, x, level, n - 1), level, n - 1);
    }
  }

  lemma FullTurn(m: Market, y: Capacities, level: int, k: BindingKey)
    requires Shaped(m, y) && k in m.claims && !InstanceRoom(m, y)
    ensures Turn(m, y, level, k) == y
  {
  }

  /** After `n` turns the hand-out stands at `y`. */
  ghost predicate Reached(m: Market, x: Capacities, y: Capacities, level: int, n: nat) {
    Shaped(m, x) && n <= |m.order| && y == HandOut(m, x, level, n)
  }

  lemma ReachedIs(m: Market, x: Capacities, y: Capacities, level: int, n: nat)
    requires Shaped(m, x) && n <= |m.order|
    ensures Reached(m, x, y, level, n) <==> y == HandOut(m, x, level, n)
  {
  }

  lemma TurnReaches(m: Market, x: Capacities, y: Capacities, z: Capacities, level: int, n: nat)
    requires Shaped(m, x) && Shaped(m, y) && n < |m.order| && m.order[n] in m.claims && Reached(m, x, y, level, n)
    requires z == Turn(m, y, level, m.order[n])
    ensures Reached(m, x, z, level, n + 1)
  {
  }

  lemma FullTurnReaches(m: Market, x: Capacities, y: Capacities, level: int, n: nat)
    requires Shaped(m, x) && Shaped(m, y) && n < |m.order| && Reached(m, x, y, level, n) && !InstanceRoom(m, y)
    ensures Reached(m, x, y, level, n + 1)
  {
    hide Reached;
    assert m.order[n] in ToSet(m.order);
    FullTurn(m, y, level, m.order[n]);
    TurnReaches(m, x, y, y, level, n);
  }

  /** Once the instance is full, nothing more goes out. */
  lemma {:induction false} HandOutStops(m: Market, x: Capacities, y: Capacities, level: int, n: nat, n': nat)
    requires Shaped(m, x) && Shaped(m, y) && n <= n' <= |m.order| && Reached(m, x, y, level, n) && !InstanceRoom(m, y)
    ensures Reached(m, x, y, level, n')
    decreases n'
  {
    hide Reached;
    if n < n' {
      HandOutStops(m, x, y, level, n, n' - 1);
      FullTurnReaches(m, x, y, level, n' - 1);
    }
  }

  // ---- the result is fair ----

  /** What both passes together did to one binding of a tier with free credit. */
  lemma HandedOutTo(m: Market, x: Capacities, y: Capacities, level: int, clip: int, k: BindingKey)
    requires Shaped(m, x) && Shaped(m, y) && k in m.claims
    requires Raised(m, x, m.tierOf[k], clip, level) && Steps(m, x, y, level, |m.order|)
    ensures m.claims[k].active <= x[k] <= y[k]
    ensures Grown(m, y, k) ==> !m.claims[k].held && y[k] <= m.claims[k].demand && y[k] <= level + 1
  {
    assert k in Members(m, m.tierOf[k]);
  }

  /** A tier without free credit gets none in the hand-out either. */
  lemma FullTierKeepsRunning(m: Market, x: Capacities, y: Capacities, level: int, t: TierID)
    requires Shaped(m, x) && Shaped(m, y) && Steps(m, x, y, level, |m.order|) && KeepsBudgets(m, x, y)
    requires t in m.parallelism && TierBudget(m, t) <= 0
    requires forall k :: k in Members(m, t) ==> x[k] == m.claims[k].active
    ensures forall k :: k in Members(m, t) ==> y[k] == x[k] == m.claims[k].active
  {
    SumLe(Members(m, t), x, Floors(m));
    forall k | k in Members(m, t) ensures y[k] == x[k] {
      if y[k] != x[k] {
        SumLt(Members(m, t), x, y, k);
      }
    }
  }

  lemma HandedOutIsBounded(m: Market, x: Capacities, y: Capacities, level: int)
    requires Shaped(m, x) && Shaped(m, y) && Staged(m, x, level) && HandedOut(m, x, y, level, |m.order|)
    ensures Bounded(m, y) && WithinBudgets(m, y)
  {
    forall k | k in m.claims
      ensures m.claims[k].active <= y[k]
      ensures Grown(m, y, k) ==> !m.claims[k].held && y[k] <= m.claims[k].demand
      ensures Grown(m, y, k) ==> TierTotal(m, y, m.tierOf[k]) <= m.parallelism[m.tierOf[k]]
    {
      var t := m.tierOf[k];
      assert StagedTier(m, x, level, t) && k in Members(m, t);
      if TierBudget(m, t) <= 0 {
        FullTierKeepsRunning(m, x, y, level, t);
      } else {
        HandedOutTo(m, x, y, level, Min(Budget(m), TierBudget(m, t)), k);
      }
    }
  }

  ghost predicate AboveFloors(m: Market, y: Capacities)
    requires Shaped(m, y)
  {
    forall k :: k in m.claims ==> m.claims[k].active <= y[k]
  }

  /** A full tier is left as the first pass filled it. */
  lemma FilledTierIsKept(m: Market, x: Capacities, y: Capacities, t: TierID)
    requires Shaped(m, x) && Shaped(m, y) && KeepsBudgets(m, x, y) && t in m.parallelism
    requires TierTotal(m, x, t) == m.parallelism[t]
    requires forall k :: k in Members(m, t) ==> x[k] <= y[k]
    ensures forall k :: k in Members(m, t) ==> y[k] == x[k]
    ensures !TierRoom(m, y, t)
  {
    SumLe(Members(m, t), x, y);
    forall k | k in Members(m, t) ensures y[k] == x[k] {
      if y[k] != x[k] {
        SumLt(Members(m, t), x, y, k);
      }
    }
  }

  /** Whoever got all a budget could pay for is the only one to have grown on it. */
  lemma ClippedIsAlone(m: Market, y: Capacities, i: BindingKey, j: BindingKey)
    requires Shaped(m, y) && AboveFloors(m, y)
    requires i in m.claims && j in m.claims && Grown(m, y, i) && Wants(m, y, j)
    requires 0 < m.limit && Total(m, y) <= m.limit
    requires TierTotal(m, y, m.tierOf[j]) <= m.parallelism[m.tierOf[j]]
    requires ClipOf(m, j) <= y[j] && 0 < Budget(m) && 0 < TierBudget(m, m.tierOf[j])
    ensures m.tierOf[i] == m.tierOf[j] || TierRoom(m, y, m.tierOf[j]) ==> i == j
    ensures !TierRoom(m, y, m.tierOf[j]) || !InstanceRoom(m, y)
  {
    var t := m.tierOf[j];
    GainsOf(m, y, Keys(m));
    GainsOf(m, y, Members(m, t));
    assert j in Members(m, t);
    if Budget(m) <= TierBudget(m, t) {
      ClippedTookAll(m, y, Keys(m), Budget(m), i, j);
    } else {
      ClippedTookAll(m, y, Members(m, t), TierBudget(m, t), if m.tierOf[i] == t then i else j, j);
    }
  }

  /** Nobody above the level is envied, and those standing at it were served in turn. */
  lemma AtLevelIsInTurn(m: Market, x: Capacities, y: Capacities, level: int, i: BindingKey, j: BindingKey)
    requires Shaped(m, x) && Shaped(m, y) && i in m.claims && j in m.claims && InTurn(m, x, y, level)
    requires Grown(m, y, i) && y[i] <= level + 1 && (y[i] == x[i] ==> y[i] <= level)
    requires Wants(m, y, j) && level <= y[j]
    requires m.tierOf[i] == m.tierOf[j] || TierRoom(m, y, m.tierOf[j])
    ensures Before(m, y[i] - 1, i, y[j], j)
  {
    if y[i] == level + 1 && y[j] == level {
      assert Standing(m, y, level, j);
      assert m.order[Rank(m.order, i)] == i && m.order[Rank(m.order, j)] == j;
    }
  }

  /** Below the level, the first pass decided: a tier that ran out there was filled in order. */
  lemma BelowLevelIsOrderly(m: Market, x: Capacities, y: Capacities, level: int, clip: int,
                            i: BindingKey, j: BindingKey)
    requires Shaped(m, x) && Shaped(m, y) && i in m.claims && j in m.claims
    requires Levelled(m, x, m.tierOf[j], clip, level) && Short(m, x, clip, level, j)
    requires Steps(m, x, y, level, |m.order|) && KeepsBudgets(m, x, y)
    requires Grown(m, y, i) && (m.tierOf[i] == m.tierOf[j] || TierRoom(m, y, m.tierOf[j]))
    ensures Before(m, y[i] - 1, i, y[j], j)
  {
    assert j in Members(m, m.tierOf[j]);
    FilledTierIsKept(m, x, y, m.tierOf[j]);
    assert i in Members(m, m.tierOf[j]);
  }

  lemma GrownIsRaised(m: Market, x: Capacities, y: Capacities, level: int, clip: int, i: BindingKey)
    requires Shaped(m, x) && Shaped(m, y) && i in m.claims && Raised(m, x, m.tierOf[i], clip, level)
    requires Steps(m, x, y, level, |m.order|) && Grown(m, y, i)
    ensures y[i] <= level + 1 && (y[i] == x[i] ==> y[i] <= level)
  {
    assert i in Members(m, m.tierOf[i]);
  }

  lemma GrownHadBudget(m: Market, x: Capacities, y: Capacities, level: int, i: BindingKey)
    requires Shaped(m, x) && Shaped(m, y) && i in m.claims && StagedTier(m, x, level, m.tierOf[i])
    requires Steps(m, x, y, level, |m.order|) && KeepsBudgets(m, x, y) && Grown(m, y, i)
    ensures TierBudget(m, m.tierOf[i]) > 0
  {
    assert i in Members(m, m.tierOf[i]);
    if TierBudget(m, m.tierOf[i]) <= 0 {
      FullTierKeepsRunning(m, x, y, level, m.tierOf[i]);
    }
  }

  lemma RoomMeansBudget(m: Market, x: Capacities, y: Capacities, level: int, t: TierID)
    requires Shaped(m, x) && Shaped(m, y) && Steps(m, x, y, level, |m.order|) && KeepsBudgets(m, x, y)
    requires t in m.parallelism && StagedTier(m, x, level, t) && TierRoom(m, y, t)
    ensures TierBudget(m, t) > 0
  {
    if TierBudget(m, t) <= 0 {
      FullTierKeepsRunning(m, x, y, level, t);
      SumLe(Members(m, t), y, Floors(m));
    }
  }

  /** At or above the level, whoever still wants a credit could not have had one sooner. */
  lemma AboveLevelNoEnvy(m: Market, x: Capacities, y: Capacities, level: int, i: BindingKey, j: BindingKey)
    requires Shaped(m, x) && Shaped(m, y) && i in m.claims && j in m.claims && InTurn(m, x, y, level)
    requires AboveFloors(m, y) && 0 < m.limit && Total(m, y) <= m.limit
    requires TierTotal(m, y, m.tierOf[j]) <= m.parallelism[m.tierOf[j]]
    requires 0 < Budget(m) && 0 < TierBudget(m, m.tierOf[j])
    requires Grown(m, y, i) && y[i] <= level + 1 && (y[i] == x[i] ==> y[i] <= level)
    requires Wants(m, y, j) && (level <= y[j] || ClipOf(m, j) <= y[j])
    requires m.tierOf[i] == m.tierOf[j] || TierRoom(m, y, m.tierOf[j])
    ensures Before(m, y[i] - 1, i, y[j], j)
  {
    if ClipOf(m, j) <= y[j] {
      ClippedIsAlone(m, y, i, j);
    } else {
      AtLevelIsInTurn(m, x, y, level, i, j);
    }
  }

  lemma PastTheLevel(m: Market, x: Capacities, y: Capacities, level: int, clip: int, j: BindingKey)
    requires Shaped(m, x) && Shaped(m, y) && j in m.claims && Levelled(m, x, m.tierOf[j], clip, level)
    requires Steps(m, x, y, level, |m.order|) && KeepsBudgets(m, x, y)
    requires Wants(m, y, j) && !Short(m, x, clip, level, j)
    ensures TierTotal(m, y, m.tierOf[j]) <= m.parallelism[m.tierOf[j]] && Total(m, y) <= m.limit
    ensures level <= y[j] || Clip(m, clip, j) <= y[j]
  {
    hide Sum;
    HandedOutTo(m, x, y, level, clip, j);
  }

  lemma HandedOutNoEnvy(m: Market, x: Capacities, y: Capacities, level: int, i: BindingKey, j: BindingKey)
    requires Shaped(m, x) && Shaped(m, y) && i in m.claims && j in m.claims
    requires StagedTier(m, x, level, m.tierOf[i]) && StagedTier(m, x, level, m.tierOf[j])
    requires HandedOut(m, x, y, level, |m.order|) && AboveFloors(m, y) && 0 < m.limit && 0 < Budget(m)
    requires Grown(m, y, i) && Wants(m, y, j)
    requires m.tierOf[i] == m.tierOf[j] || TierRoom(m, y, m.tierOf[j])
    ensures Before(m, y[i] - 1, i, y[j], j)
  {
    var s, t := m.tierOf[i], m.tierOf[j];
    GrownHadBudget(m, x, y, level, i);
    if s != t {
      RoomMeansBudget(m, x, y, level, t);
    }
    var clip := Min(Budget(m), TierBudget(m, t));
    if Short(m, x, clip, level, j) {
      BelowLevelIsOrderly(m, x, y, level, clip, i, j);
    } else {
      GrownIsRaised(m, x, y, level, Min(Budget(m), TierBudget(m, s)), i);
      PastTheLevel(m, x, y, level, clip, j);
      AboveLevelNoEnvy(m, x, y, level, i, j);
    }
  }

  // ---- nothing is left to hand out ----

  /** The tier is full, or everyone in it reached the level. */
  ghost predicate ReachedTier(m: Market, y: Capacities, level: int, t: TierID)
    requires Shaped(m, y) && t in m.parallelism
  {
    TierBudget(m, t) > 0 && TierRoom(m, y, t) ==>
      forall k :: k in Members(m, t) && Candidate(m, k) ==> Min(ClipOf(m, k), level) <= y[k]
  }

  /** No clipped demand lies above `level`. */
  ghost predicate Top(m: Market, level: int)
    requires WellFormed(m)
  {
    forall k :: k in m.claims && Candidate(m, k) && TierBudget(m, m.tierOf[k]) > 0 ==> ClipOf(m, k) <= level
  }

  /** Raising every tier to `level` costs more than the instance has. */
  ghost predicate Overflows(m: Market, y: Capacities, level: int)
    requires Shaped(m, y)
  {
    (forall t :: t in m.parallelism ==> ReachedTier(m, y, level, t)) ==> m.limit < Total(m, y)
  }

  lemma RoomMeansReached(m: Market, x: Capacities, y: Capacities, level: int, clip: int, k: BindingKey)
    requires Shaped(m, x) && Shaped(m, y) && k in m.claims && Levelled(m, x, m.tierOf[k], clip, level)
    requires Steps(m, x, y, level, |m.order|) && KeepsBudgets(m, x, y)
    requires TierRoom(m, y, m.tierOf[k]) && Candidate(m, k)
    ensures Min(Clip(m, clip, k), level) <= x[k] <= y[k]
  {
    assert k in Members(m, m.tierOf[k]);
    if Short(m, x, clip, level, k) {
      FilledTierIsKept(m, x, y, m.tierOf[k]);
    }
  }

  lemma PassedMeansReached(m: Market, x: Capacities, y: Capacities, level: int, t: TierID)
    requires Shaped(m, x) && Shaped(m, y) && t in m.parallelism && StagedTier(m, x, level, t)
    requires HandedOut(m, x, y, level, |m.order|) && InstanceRoom(m, y)
    ensures ReachedTier(m, y, level + 1, t)
  {
    if TierBudget(m, t) > 0 && TierRoom(m, y, t) {
      forall k | k in Members(m, t) && Candidate(m, k) ensures Min(ClipOf(m, k), level + 1) <= y[k] {
        RoomMeansReached(m, x, y, level, Min(Budget(m), TierBudget(m, t)), k);
        NotStanding(m, y, level, k);
      }
    }
  }

  lemma NotStanding(m: Market, y: Capacities, level: int, k: BindingKey)
    requires Shaped(m, y) && k in m.claims && Candidate(m, k) && Min(ClipOf(m, k), level) <= y[k]
    requires PassedOver(m, y, level, |m.order|) && InstanceRoom(m, y) && TierRoom(m, y, m.tierOf[k])
    ensures Min(ClipOf(m, k), level + 1) <= y[k]
  {
    assert !Standing(m, y, level, k);
  }

  lemma TopIsExhausted(m: Market, x: Capacities, y: Capacities, level: int, k: BindingKey)
    requires Shaped(m, x) && Shaped(m, y) && k in m.claims && StagedTier(m, x, level, m.tierOf[k])
    requires Steps(m, x, y, level, |m.order|) && KeepsBudgets(m, x, y) && AboveFloors(m, y)
    requires 0 < m.limit && 0 < Budget(m)
    requires Top(m, level) && Wants(m, y, k) && TierRoom(m, y, m.tierOf[k])
    ensures !InstanceRoom(m, y)
  {
    hide Sum;
    var t := m.tierOf[k];
    RoomMeansBudget(m, x, y, level, t);
    RoomMeansReached(m, x, y, level, Min(Budget(m), TierBudget(m, t)), k);
    ClippedFillsUp(m, y, k);
  }

  lemma ClippedFillsUp(m: Market, y: Capacities, k: BindingKey)
    requires Shaped(m, y) && AboveFloors(m, y) && k in m.claims && Candidate(m, k) && Wants(m, y, k)
    requires 0 < m.limit && Total(m, y) <= m.limit && TierRoom(m, y, m.tierOf[k])
    requires 0 < Budget(m) && 0 < TierBudget(m, m.tierOf[k]) && ClipOf(m, k) <= y[k]
    ensures !InstanceRoom(m, y)
  {
    ClippedIsAlone(m, y, k, k);
  }

  lemma HandedOutIsExhausted(m: Market, x: Capacities, y: Capacities, level: int)
    requires Shaped(m, x) && Shaped(m, y) && Staged(m, x, level) && HandedOut(m, x, y, level, |m.order|)
    requires AboveFloors(m, y) && (Top(m, level) || Overflows(m, y, level + 1))
    ensures Exhausted(m, y)
  {
    forall k | k in m.claims ensures !Eligible(m, y, k) {
      if Top(m, level) && Wants(m, y, k) && TierRoom(m, y, m.tierOf[k]) {
        TopIsExhausted(m, x, y, level, k);
      } else if InstanceRoom(m, y) && !Top(m, level) {
        forall t | t in m.parallelism ensures ReachedTier(m, y, level + 1, t) {
          PassedMeansReached(m, x, y, level, t);
        }
      }
    }
  }

  /** The two-budget batch computes what the credit-at-a-time loop computes. */
  lemma HandedOutIsDistribution(m: Market, x: Capacities, y: Capacities, level: int)
    requires Shaped(m, x) && Shaped(m, y) && Staged(m, x, level) && HandedOut(m, x, y, level, |m.order|)
    requires Top(m, level) || Overflows(m, y, level + 1)
    ensures y == Distribution(m)
  {
    HandedOutIsBounded(m, x, y, level);
    HandedOutIsExhausted(m, x, y, level);
    forall i, j | i in m.claims && j in m.claims && Grown(m, y, i) && Wants(m, y, j)
      && (m.tierOf[i] == m.tierOf[j] || TierRoom(m, y, m.tierOf[j]))
      ensures Before(m, y[i] - 1, i, y[j], j)
    {
      HandedOutNoEnvy(m, x, y, level, i, j);
    }
    FairIsDistribution(m, y);
  }
}
