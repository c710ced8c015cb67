/**
 A new binding: appended to its tier's ring and to the instance's, with nothing running,
 nothing announced and an unknown predecessor session.
 */
module Enrolment {
  import opened Base
  import opened Sums
  import opened Ledger
  import opened Operations
  import opened Bookkeeping

  function Newcomer(held: bool): Binding { Binding(0, 0, held, 0, None, 0, false) }

  function Grown(pool: Pool, k: BindingKey, held: bool): Pool {
    pool.(order := pool.order + [k], state := pool.state[k := Newcomer(held)], unknown := pool.unknown + 1)
  }

  function EmptyPool(parallelism: nat): Pool { Pool(parallelism, [], map[], 0, 0, 0, 0, 0) }

  function Enrolled(l: Ledger, t: TierID, k: BindingKey, parallelism: nat): Ledger {
    var pool := if t in l.pools then l.pools[t] else EmptyPool(parallelism);
    l.(pools := l.pools[t := Grown(pool, k, l.held)],
       tierOf := l.tierOf[k := t],
       order := l.order + [k],
       unknownSessions := l.unknownSessions + 1)
  }

  /** The key is new, and the tier is too or has this parallelism. */
  ghost predicate Admissible(v: View, t: TierID, k: BindingKey, parallelism: nat) {
    k !in v.tierOf && k !in v.bindings && (t in v.parallelism ==> v.parallelism[t] == parallelism)
  }

  lemma MembersGrow(v: View, t: TierID, k: BindingKey, parallelism: nat, s: TierID)
    requires Admissible(v, t, k, parallelism)
    ensures Members(Registered(v, t, k, parallelism), s) == if s == t then Members(v, s) + {k} else Members(v, s)
  {
  }

  // ---- counters ----

  lemma CountsGrow(v: View, t: TierID, k: BindingKey, parallelism: nat, s: set<BindingKey>,
                   active: int, remote: int, unknown: int)
    requires Admissible(v, t, k, parallelism) && s <= v.bindings.Keys && Counts(v, s, active, remote, unknown)
    ensures Counts(Registered(v, t, k, parallelism), s, active, remote, unknown)
    ensures Counts(Registered(v, t, k, parallelism), s + {k}, active, remote, unknown + 1)
  {
    hide Sum;
    var bs := Registered(v, t, k, parallelism).bindings;
    SumGrows(s, Actives(v.bindings), Actives(bs), k);
    SumGrows(s, Effectives(v.bindings), Effectives(bs), k);
    SumGrows(s, Unknowns(v.bindings), Unknowns(bs), k);
  }

  lemma EmptyCounts(v: View)
    ensures Counts(v, {}, 0, 0, 0)
  {
  }

  lemma TallyGrows(v: View, t: TierID, k: BindingKey, parallelism: nat, pool: Pool)
    requires Admissible(v, t, k, parallelism) && Tallied(v, t, pool)
    ensures Tallied(Registered(v, t, k, parallelism), t, Grown(pool, k, v.held))
  {
    MembersGrow(v, t, k, parallelism, t);
    CountsGrow(v, t, k, parallelism, Members(v, t), pool.active, pool.remote, pool.unknown);
  }

  lemma TallyStays(v: View, t: TierID, k: BindingKey, parallelism: nat, s: TierID, pool: Pool)
    requires Admissible(v, t, k, parallelism) && Tallied(v, s, pool) && s != t
    ensures Tallied(Registered(v, t, k, parallelism), s, pool)
  {
    MembersGrow(v, t, k, parallelism, s);
    CountsGrow(v, t, k, parallelism, Members(v, s), pool.active, pool.remote, pool.unknown);
  }

  lemma TallyStarts(v: View, t: TierID, k: BindingKey, parallelism: nat)
    requires ValidView(v) && Admissible(v, t, k, parallelism) && t !in v.parallelism
    ensures Tallied(Registered(v, t, k, parallelism), t, Grown(EmptyPool(parallelism), k, v.held))
  {
    hide Sum, Counts, Distinct, ToSet, SameOrder;
    MembersGrow(v, t, k, parallelism, t);
    assert Members(v, t) == {};
    EmptyCounts(v);
    CountsGrow(v, t, k, parallelism, {}, 0, 0, 0);
    assert {} + {k} == {k};
  }

  lemma TalliesGrow(l: Ledger, v: View, t: TierID, k: BindingKey, parallelism: nat)
    requires ValidView(v) && AllTallied(v, l.pools) && l.held == v.held && Admissible(v, t, k, parallelism)
    ensures AllTallied(Registered(v, t, k, parallelism), Enrolled(l, t, k, parallelism).pools)
  {
    var w, pools := Registered(v, t, k, parallelism), Enrolled(l, t, k, parallelism).pools;
    forall s | s in pools ensures Tallied(w, s, pools[s]) {
      if s != t {
        assert Tallied(v, s, l.pools[s]);
        TallyStays(v, t, k, parallelism, s, l.pools[s]);
      } else if t in l.pools {
        assert Tallied(v, t, l.pools[t]);
        TallyGrows(v, t, k, parallelism, l.pools[t]);
      } else {
        TallyStarts(v, t, k, parallelism);
      }
    }
  }

  lemma EnrolledRepresents(l: Ledger, v: View, t: TierID, k: BindingKey, parallelism: nat)
    requires ValidView(v) && Represents(l, v) && Admissible(v, t, k, parallelism)
    ensures Represents(Enrolled(l, t, k, parallelism), Registered(v, t, k, parallelism))
  {
    TalliesGrow(l, v, t, k, parallelism);
    AllCountsGrow(v, t, k, parallelism, l.activeCount, l.remoteCapacity, l.unknownSessions);
  }

  lemma AllCountsGrow(v: View, t: TierID, k: BindingKey, parallelism: nat, active: int, remote: int, unknown: int)
    requires Admissible(v, t, k, parallelism) && Counts(v, v.bindings.Keys, active, remote, unknown)
    ensures var w := Registered(v, t, k, parallelism); Counts(w, w.bindings.Keys, active, remote, unknown + 1)
  {
    CountsGrow(v, t, k, parallelism, v.bindings.Keys, active, remote, unknown);
    assert Registered(v, t, k, parallelism).bindings.Keys == v.bindings.Keys + {k};
  }

  // ---- rings ----

  lemma AppendedRing(r: Ring, k: BindingKey, members: set<BindingKey>)
    requires RingOf(r, members) && k !in members
    ensures RingOf(r.(order := r.order + [k]), members + {k})
  {
    var order := r.order + [k];
    assert forall i :: 0 <= i < |r.order| ==> order[i] in ToSet(r.order);
    assert ToSet(order) == members + {k} by {
      forall x | x in members + {k} ensures x in order {
        if x != k {
          assert x in r.order;
        }
      }
    }
  }

  lemma AppendKeepsRank(s: seq<BindingKey>, k: BindingKey, x: BindingKey)
    requires Distinct(s + [k]) && x in s
    ensures x in s + [k] && Rank(s + [k], x) == Rank(s, x)
  {
    var i := Rank(s, x);
    assert (s + [k])[i] == x;
    RankAt(s + [k], i);
  }

  lemma AppendKeepsOrder(sub: seq<BindingKey>, order: seq<BindingKey>, k: BindingKey)
    requires SameOrder(sub, order) && Distinct(order + [k])
    ensures SameOrder(sub, order + [k])
  {
    forall i | 0 <= i < |sub| ensures sub[i] in order + [k] && Rank(order + [k], sub[i]) == Rank(order, sub[i]) {
      AppendKeepsRank(order, k, sub[i]);
    }
  }

  lemma AppendBothKeepsOrder(sub: seq<BindingKey>, order: seq<BindingKey>, k: BindingKey)
    requires SameOrder(sub, order) && Distinct(order + [k])
    ensures SameOrder(sub + [k], order + [k])
  {
    AppendKeepsOrder(sub, order, k);
    RankAt(order + [k], |order|);
    forall i | 0 <= i < |sub| ensures Rank(order + [k], sub[i]) < |order| {
      AppendKeepsRank(order, k, sub[i]);
    }
  }

  lemma RegisteredShape(v: View, t: TierID, k: BindingKey, parallelism: nat)
    requires ValidView(v) && Admissible(v, t, k, parallelism)
    ensures var w := Registered(v, t, k, parallelism);
            && w.bindings.Keys == w.tierOf.Keys && w.rings.Keys == w.parallelism.Keys
            && RingOf(w.ring, w.bindings.Keys)
  {
    hide Distinct, ToSet, Sum;
    AppendedRing(v.ring, k, v.bindings.Keys);
    assert Registered(v, t, k, parallelism).bindings.Keys == v.bindings.Keys + {k};
  }

  lemma RegisteredIsValid(v: View, t: TierID, k: BindingKey, parallelism: nat)
    requires ValidView(v) && Admissible(v, t, k, parallelism)
    ensures ValidView(Registered(v, t, k, parallelism))
  {
    var w := Registered(v, t, k, parallelism);
    RegisteredShape(v, t, k, parallelism);
    forall s | s in w.rings ensures TierRing(w, s) {
      RegisteredRing(v, t, k, parallelism, s);
    }
  }

  lemma RegisteredRing(v: View, t: TierID, k: BindingKey, parallelism: nat, s: TierID)
    requires ValidView(v) && Admissible(v, t, k, parallelism) && (s in v.rings || s == t)
    ensures TierRing(Registered(v, t, k, parallelism), s)
  {
    AppendedRing(v.ring, k, v.bindings.Keys);
    MembersGrow(v, t, k, parallelism, s);
    if s in v.rings {
      assert TierRing(v, s);
      AppendKeepsOrder(v.rings[s].order, v.ring.order, k);
      if s == t {
        AppendedRing(v.rings[s], k, Members(v, s));
        AppendBothKeepsOrder(v.rings[s].order, v.ring.order, k);
      }
    } else {
      assert Members(v, s) == {};
      AppendedRing(Ring([], 0, 0), k, {});
      AppendBothKeepsOrder([], v.ring.order, k);
      assert {} + {k} == {k};
    }
  }

  // ---- budgets ----

  lemma RegisteredKeepsTier(v: View, t: TierID, k: BindingKey, parallelism: nat, s: TierID)
    requires ValidView(v) && Admissible(v, t, k, parallelism) && (s in v.parallelism || s == t)
    requires s in v.parallelism ==> RemoteWithinTier(v, s)
    ensures RemoteWithinTier(Registered(v, t, k, parallelism), s)
  {
    MembersGrow(v, t, k, parallelism, s);
    NothingAnnounced(v, t, k, parallelism, Members(v, s));
    if s !in v.parallelism {
      assert Members(v, s) == {};
    }
  }

  lemma RegisteredKeepsBudgets(v: View, t: TierID, k: BindingKey, parallelism: nat)
    requires ValidView(v) && RemoteWithinBudgets(v) && Admissible(v, t, k, parallelism)
    requires ValidView(Registered(v, t, k, parallelism))
    ensures RemoteWithinBudgets(Registered(v, t, k, parallelism))
  {
    var w := Registered(v, t, k, parallelism);
    forall s | s in w.parallelism ensures RemoteWithinTier(w, s) {
      assert s in v.parallelism ==> RemoteWithinTier(v, s);
      RegisteredKeepsTier(v, t, k, parallelism, s);
    }
    InstanceUnchanged(v, t, k, parallelism);
  }

  lemma InstanceUnchanged(v: View, t: TierID, k: BindingKey, parallelism: nat)
    requires Admissible(v, t, k, parallelism)
    ensures var w := Registered(v, t, k, parallelism);
            Sum(w.bindings.Keys, Effectives(w.bindings)) == Sum(v.bindings.Keys, Effectives(v.bindings))
  {
    NothingAnnounced(v, t, k, parallelism, v.bindings.Keys);
    assert Registered(v, t, k, parallelism).bindings.Keys == v.bindings.Keys + {k};
  }

  lemma NothingAnnounced(v: View, t: TierID, k: BindingKey, parallelism: nat, s: set<BindingKey>)
    requires Admissible(v, t, k, parallelism) && s <= v.bindings.Keys
    ensures var e := Effectives(Registered(v, t, k, parallelism).bindings);
            Sum(s, e) == Sum(s + {k}, e) == Sum(s, Effectives(v.bindings))
  {
    var e := Effectives(Registered(v, t, k, parallelism).bindings);
    SumLe(s, Effectives(v.bindings), e);
    assert s + {k} - {k} == s;
    SumPick(s + {k}, e, k);
  }

  lemma EnrolledInOrder(l: Ledger, v: View, t: TierID, k: BindingKey, parallelism: nat)
    requires InOrder(l, v) && Admissible(v, t, k, parallelism)
    ensures InOrder(Enrolled(l, t, k, parallelism), Registered(v, t, k, parallelism))
  {
    EnrolledRepresents(l, v, t, k, parallelism);
    RegisteredIsValid(v, t, k, parallelism);
    RegisteredKeepsBudgets(v, t, k, parallelism);
  }

  lemma RegisteredStaysGenuine(v: View, t: TierID, k: BindingKey, parallelism: nat, issued: set<Poll>)
    requires Genuine(v, issued) && Admissible(v, t, k, parallelism)
    ensures Genuine(Registered(v, t, k, parallelism), issued)
  {
    forall p | p in issued ensures Honest(Registered(v, t, k, parallelism), p) {
      assert Honest(v, p);
    }
  }

  /** What the ledger says of a tier and of a key that may be in it. */
  lemma PoolShown(l: Ledger, v: View, t: TierID, k: BindingKey)
    requires InOrder(l, v) && (k in v.tierOf ==> v.tierOf[k] == t)
    ensures t in l.pools <==> t in v.parallelism
    ensures t in l.pools ==> l.pools[t].parallelism == v.parallelism[t] && (k in l.pools[t].state <==> k in v.bindings)
    ensures t !in l.pools ==> k !in v.bindings
    ensures k in v.bindings <==> k in v.tierOf
  {
    if t in l.pools {
      assert Tallied(v, t, l.pools[t]);
    }
  }
}
