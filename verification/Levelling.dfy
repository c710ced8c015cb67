/**
 From a filled list of candidates to a fair tier: what one water fill over one tier means
 in terms of the bindings, whatever level limit and whatever clipping of demand it ran with.
 */
module Levelling {
  import opened Base
  import opened Sums
  import opened Fairness
  import W = WaterFill

  ghost predicate Candidate(m: Market, k: BindingKey)
    requires k in m.claims
  {
    !m.claims[k].held && m.claims[k].active < m.claims[k].demand
  }

  /** Demand cut to what `budget` more credits could cover. */
  ghost function Clip(m: Market, budget: int, k: BindingKey): int
    requires k in m.claims
  {
    m.claims[k].active + Min(m.claims[k].demand - m.claims[k].active, budget)
  }

  /** `cs` lists the tier's candidates, in registration order, with their demand clipped. */
  ghost predicate Lists(m: Market, t: TierID, budget: int, cs: seq<W.Candidate>)
    requires WellFormed(m)
  {
    && (forall i :: 0 <= i < |cs| ==>
         && cs[i].key in Members(m, t)
         && Candidate(m, cs[i].key)
         && cs[i].floor == m.claims[cs[i].key].active
         && cs[i].ceiling == Clip(m, budget, cs[i].key))
    && (forall i, j :: 0 <= i < j < |cs| ==> Rank(m.order, cs[i].key) < Rank(m.order, cs[j].key))
    && (forall k :: k in Members(m, t) && Candidate(m, k) ==> exists i :: 0 <= i < |cs| && cs[i].key == k)
  }

  /** `x` holds the capacities the fill gave, and the floor for everyone else of the tier. */
  ghost predicate Carries(m: Market, x: Capacities, t: TierID, cs: seq<W.Candidate>, caps: seq<int>)
    requires Shaped(m, x) && |caps| == |cs|
  {
    && (forall i :: 0 <= i < |cs| ==> cs[i].key in x && x[cs[i].key] == caps[i])
    && (forall k :: k in Members(m, t) && !Candidate(m, k) ==> x[k] == m.claims[k].active)
  }

  ghost function Gains(m: Market, x: Capacities): map<BindingKey, int>
    requires Shaped(m, x)
  {
    map k | k in m.claims :: x[k] - m.claims[k].active
  }

  lemma GainsOf(m: Market, x: Capacities, s: set<BindingKey>)
    requires Shaped(m, x) && s <= m.claims.Keys
    ensures Sum(s, Gains(m, x)) == Sum(s, x) - Sum(s, Floors(m))
  {
    SumMinus(s, x, Floors(m), Gains(m, x));
  }

  function KeysOf(cs: seq<W.Candidate>): set<BindingKey> { set i | 0 <= i < |cs| :: cs[i].key }

  lemma {:induction false} SpentIsSum(cs: seq<W.Candidate>, caps: seq<int>, g: map<BindingKey, int>)
    requires |caps| == |cs| && KeysOf(cs) <= g.Keys
    requires forall i, j :: 0 <= i < j < |cs| ==> cs[i].key != cs[j].key
    requires forall i :: 0 <= i < |cs| ==> g[cs[i].key] == caps[i] - cs[i].floor
    ensures Sum(KeysOf(cs), g) == W.Spent(cs, caps)
  {
    if cs != [] {
      var n := |cs| - 1;
      var k := cs[n].key;
      assert KeysOf(cs) == KeysOf(cs[..n]) + {k};
      assert k !in KeysOf(cs[..n]);
      SpentIsSum(cs[..n], caps[..n], g);
      SumPick(KeysOf(cs), g, k);
      assert KeysOf(cs) - {k} == KeysOf(cs[..n]);
    }
  }

  /** What a fill spends is what its tier gains. */
  lemma SpentIsGained(m: Market, x: Capacities, t: TierID, budget: int, cs: seq<W.Candidate>, caps: seq<int>)
    requires Shaped(m, x) && |caps| == |cs| && Lists(m, t, budget, cs) && Carries(m, x, t, cs, caps)
    ensures Sum(Members(m, t), Gains(m, x)) == W.Spent(cs, caps)
    ensures TierTotal(m, x, t) == TierTotal(m, Floors(m), t) + W.Spent(cs, caps)
  {
    var g := Gains(m, x);
    var rest := Members(m, t) - KeysOf(cs);
    SpentIsSum(cs, caps, g);
    forall k | k in rest ensures g[k] == 0 {
      assert !Candidate(m, k);
    }
    SumAllZero(rest, g);
    SumUnion(KeysOf(cs), rest, g);
    assert KeysOf(cs) + rest == Members(m, t);
    GainsOf(m, x, Members(m, t));
  }

  ghost predicate Raised(m: Market, x: Capacities, t: TierID, budget: int, level: int)
    requires Shaped(m, x)
  {
    forall k :: k in Members(m, t) ==>
      && m.claims[k].active <= x[k]
      && (Grown(m, x, k) ==> Candidate(m, k) && x[k] <= Min(Clip(m, budget, k), level))
  }

  /** `k` stopped below both its clipped demand and the level. */
  ghost predicate Short(m: Market, x: Capacities, budget: int, level: int, k: BindingKey)
    requires Shaped(m, x) && k in m.claims
  {
    Candidate(m, k) && x[k] < Min(Clip(m, budget, k), level)
  }

  ghost predicate Orderly(m: Market, x: Capacities, t: TierID, budget: int, level: int)
    requires Shaped(m, x)
  {
    forall i, j :: i in Members(m, t) && j in Members(m, t) && Grown(m, x, i) && Short(m, x, budget, level, j) ==>
      Before(m, x[i] - 1, i, x[j], j)
  }

  /**
   A tier filled up to `level`: it is full, or every candidate reached the level (or its
   clipped demand); and below that mark nobody overtook anybody.
   */
  ghost predicate Levelled(m: Market, x: Capacities, t: TierID, budget: int, level: int)
    requires Shaped(m, x) && t in m.parallelism
  {
    && Raised(m, x, t, budget, level)
    && TierTotal(m, x, t) <= m.parallelism[t]
    && (forall k :: k in Members(m, t) && Short(m, x, budget, level, k) ==> TierTotal(m, x, t) == m.parallelism[t])
    && Orderly(m, x, t, budget, level)
  }

  lemma FilledIsOrdered(m: Market, x: Capacities, t: TierID, clip: int, budget: int, level: int,
                        cs: seq<W.Candidate>, caps: seq<int>, i: BindingKey, j: BindingKey)
    requires Shaped(m, x) && Lists(m, t, clip, cs) && W.Filled(cs, budget, level, caps)
    requires Carries(m, x, t, cs, caps) && i in Members(m, t) && j in Members(m, t)
    requires Grown(m, x, i) && Short(m, x, clip, level, j)
    ensures Before(m, x[i] - 1, i, x[j], j)
  {
    var a :| 0 <= a < |cs| && cs[a].key == i;
    var b :| 0 <= b < |cs| && cs[b].key == j;
    assert caps[a] - 1 < caps[b] || (caps[a] - 1 == caps[b] && a < b);
  }

  lemma FilledIsLevelled(m: Market, x: Capacities, t: TierID, clip: int, budget: int, level: int,
                         cs: seq<W.Candidate>, caps: seq<int>)
    requires Shaped(m, x) && t in m.parallelism && budget == m.parallelism[t] - TierTotal(m, Floors(m), t)
    requires Lists(m, t, clip, cs) && W.Filled(cs, budget, level, caps) && Carries(m, x, t, cs, caps)
    ensures Levelled(m, x, t, clip, level)
  {
    SpentIsGained(m, x, t, clip, cs, caps);
    forall k | k in Members(m, t)
      ensures m.claims[k].active <= x[k]
      ensures Grown(m, x, k) ==> Candidate(m, k) && x[k] <= Min(Clip(m, clip, k), level)
      ensures Short(m, x, clip, level, k) ==> TierTotal(m, x, t) == m.parallelism[t]
    {
      if Candidate(m, k) {
        var i :| 0 <= i < |cs| && cs[i].key == k;
      }
    }
    forall i, j | i in Members(m, t) && j in Members(m, t) && Grown(m, x, i) && Short(m, x, clip, level, j)
      ensures Before(m, x[i] - 1, i, x[j], j)
    {
      FilledIsOrdered(m, x, t, clip, budget, level, cs, caps, i, j);
    }
  }

  // ---- independent tiers ----

  ghost predicate TierFair(m: Market, x: Capacities, t: TierID)
    requires Shaped(m, x) && t in m.parallelism
  {
    && (forall k :: k in Members(m, t) ==>
         && m.claims[k].active <= x[k]
         && (Grown(m, x, k) ==>
              !m.claims[k].held && x[k] <= m.claims[k].demand && TierTotal(m, x, t) <= m.parallelism[t]))
    && (forall k :: k in Members(m, t) && Wants(m, x, k) ==> !TierRoom(m, x, t))
    && (forall i, j :: i in Members(m, t) && j in Members(m, t) && Grown(m, x, i) && Wants(m, x, j) ==>
         Before(m, x[i] - 1, i, x[j], j))
  }

  lemma FairFromTiers(m: Market, x: Capacities)
    requires Shaped(m, x) && m.limit == 0
    requires forall t :: t in m.parallelism ==> TierFair(m, x, t)
    ensures Fair(m, x)
  {
    forall k | k in m.claims
      ensures m.claims[k].active <= x[k] && !Eligible(m, x, k)
      ensures Grown(m, x, k) ==> !m.claims[k].held && x[k] <= m.claims[k].demand
      ensures Grown(m, x, k) ==> TierTotal(m, x, m.tierOf[k]) <= m.parallelism[m.tierOf[k]]
    {
      assert TierFair(m, x, m.tierOf[k]);
      assert k in Members(m, m.tierOf[k]);
    }
    forall i, j | i in m.claims && j in m.claims && Grown(m, x, i) && Wants(m, x, j)
      && (m.tierOf[i] == m.tierOf[j] || TierRoom(m, x, m.tierOf[j]))
      ensures Before(m, x[i] - 1, i, x[j], j)
    {
      assert TierFair(m, x, m.tierOf[j]);
      assert i in Members(m, m.tierOf[i]) && j in Members(m, m.tierOf[j]);
    }
  }

  /** A candidate whose clipped demand was met took the whole budget it was clipped to. */
  lemma ClippedTookAll(m: Market, x: Capacities, s: set<BindingKey>, budget: int, i: BindingKey, j: BindingKey)
    requires Shaped(m, x) && s <= m.claims.Keys && i in s && j in s
    requires forall k :: k in s ==> m.claims[k].active <= x[k]
    requires Wants(m, x, j) && Clip(m, budget, j) <= x[j]
    ensures budget <= Sum(s, Gains(m, x))
    ensures i != j && Grown(m, x, i) ==> budget < Sum(s, Gains(m, x))
  {
    SumAtLeast(s, Gains(m, x), j, i);
  }

  /** Clipping demand to the tier's budget changes nothing. */
  lemma LevelledIsTierFair(m: Market, x: Capacities, t: TierID, budget: int, level: int)
    requires Shaped(m, x) && t in m.parallelism && budget == m.parallelism[t] - TierTotal(m, Floors(m), t)
    requires Levelled(m, x, t, budget, level)
    requires forall k :: k in Members(m, t) && Candidate(m, k) ==> Clip(m, budget, k) <= level
    ensures TierFair(m, x, t)
  {
    hide Sum;
    GainsOf(m, x, Members(m, t));
    forall j | j in Members(m, t) && Wants(m, x, j) ensures !TierRoom(m, x, t) {
      if Clip(m, budget, j) <= x[j] {
        ClippedTookAll(m, x, Members(m, t), budget, j, j);
      } else {
        assert Short(m, x, budget, level, j);
      }
    }
    forall i, j | i in Members(m, t) && j in Members(m, t) && Grown(m, x, i) && Wants(m, x, j)
      ensures Before(m, x[i] - 1, i, x[j], j)
    {
      if Clip(m, budget, j) <= x[j] {
        ClippedTookAll(m, x, Members(m, t), budget, i, j);
      } else {
        assert Short(m, x, budget, level, j);
      }
    }
  }

  /** What everybody would hold if there were no budgets. */
  ghost function Ceilings(m: Market): Capacities {
    map k | k in m.claims :: if m.claims[k].held then m.claims[k].active else Max(m.claims[k].active, m.claims[k].demand)
  }

  lemma FullyServed(m: Market, x: Capacities, t: TierID)
    requires Shaped(m, x) && t in m.parallelism && TierFair(m, x, t)
    ensures TierTotal(m, Floors(m), t) <= TierTotal(m, x, t) <= TierTotal(m, Ceilings(m), t)
    ensures TierRoom(m, x, t) ==> TierTotal(m, x, t) == TierTotal(m, Ceilings(m), t)
  {
    hide Distinct, ToSet, Sum;
    SumLe(Members(m, t), Floors(m), x);
    SumLe(Members(m, t), x, Ceilings(m));
  }

  /** A tier shared fairly spends the smaller of its free credits and what its bindings still want. */
  lemma TierFairSpends(m: Market, x: Capacities, t: TierID)
    requires Shaped(m, x) && t in m.parallelism && TierFair(m, x, t)
    ensures var running := TierTotal(m, Floors(m), t);
            TierTotal(m, x, t) == running + Min(Max(0, m.parallelism[t] - running), TierTotal(m, Ceilings(m), t) - running)
  {
    FullyServed(m, x, t);
    if k :| k in Members(m, t) && Grown(m, x, k) {
      assert TierTotal(m, x, t) <= m.parallelism[t];
    } else {
      SumLe(Members(m, t), x, Floors(m));
    }
  }

  /** A tier with no free credit stays as it runs. */
  lemma FullTierIsFair(m: Market, x: Capacities, t: TierID)
    requires Shaped(m, x) && t in m.parallelism && m.parallelism[t] <= TierTotal(m, Floors(m), t)
    requires forall k :: k in Members(m, t) ==> x[k] == m.claims[k].active
    ensures TierFair(m, x, t)
  {
    SumLe(Members(m, t), x, Floors(m));
  }

  /** The two give tier `t` the same. */
  ghost predicate Agree(m: Market, x: Capacities, y: Capacities, t: TierID)
    requires Shaped(m, x) && Shaped(m, y)
  {
    forall k :: k in Members(m, t) ==> y[k] == x[k]
  }

  lemma AgreeIsTierFair(m: Market, x: Capacities, y: Capacities, t: TierID)
    requires Shaped(m, x) && Shaped(m, y) && t in m.parallelism && Agree(m, x, y, t) && TierFair(m, x, t)
    ensures TierFair(m, y, t)
  {
    SumLe(Members(m, t), x, y);
    forall i, j | i in Members(m, t) && j in Members(m, t) && Grown(m, y, i) && Wants(m, y, j)
      ensures Before(m, y[i] - 1, i, y[j], j)
    {
      assert Grown(m, x, i) && Wants(m, x, j);
    }
  }

  lemma FairIsTierFair(m: Market, x: Capacities, t: TierID)
    requires Shaped(m, x) && Fair(m, x) && m.limit == 0 && t in m.parallelism
    ensures TierFair(m, x, t)
  {
    forall k | k in Members(m, t) && Wants(m, x, k) ensures !TierRoom(m, x, t) {
      assert !Eligible(m, x, k);
    }
  }

  /** With independent tiers, a tier shared fairly on its own got its part of the distribution. */
  lemma TierFairIsShare(m: Market, y: Capacities, t: TierID)
    requires Shaped(m, y) && m.limit == 0 && t in m.parallelism && TierFair(m, y, t)
    ensures Agree(m, y, Distribution(m), t)
  {
    var d := Distribution(m);
    var x: Capacities := map k | k in m.claims :: if m.tierOf[k] == t then y[k] else d[k];
    forall s | s in m.parallelism ensures TierFair(m, x, s) {
      if s == t {
        AgreeIsTierFair(m, y, x, s);
      } else {
        FairIsTierFair(m, d, s);
        AgreeIsTierFair(m, d, x, s);
      }
    }
    FairFromTiers(m, x);
    FairIsDistribution(m, x);
  }
}
