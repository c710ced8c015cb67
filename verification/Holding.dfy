/**
 Holding and thawing. A hold touches every binding and no counter. A thaw settles every
 ring, whichever calls it takes: settling twice is settling once.
 */
module Holding {
  import opened Base
  import opened Sums
  import opened Ledger
  import opened Planning
  import opened Operations
  import opened Bookkeeping

  function HoldAll(bs: map<BindingKey, Binding>, held: bool): map<BindingKey, Binding> {
    map k | k in bs :: bs[k].(held := held)
  }

  function HoldPools(pools: map<TierID, Pool>, held: bool): map<TierID, Pool> {
    map t | t in pools :: pools[t].(state := HoldAll(pools[t].state, held))
  }

  /** Every binding held or released, before any ring is settled. */
  function Stamped(v: View, held: bool): View {
    v.(held := held, bindings := HoldAll(v.bindings, held))
  }

  lemma StampKeepsSums(v: View, held: bool)
    ensures Actives(Stamped(v, held).bindings) == Actives(v.bindings)
    ensures Effectives(Stamped(v, held).bindings) == Effectives(v.bindings)
    ensures Unknowns(Stamped(v, held).bindings) == Unknowns(v.bindings)
  {
  }

  lemma StampTallies(v: View, pools: map<TierID, Pool>, held: bool)
    requires AllTallied(v, pools)
    ensures AllTallied(Stamped(v, held), HoldPools(pools, held))
  {
    StampKeepsSums(v, held);
    forall t | t in pools ensures Tallied(Stamped(v, held), t, HoldPools(pools, held)[t]) {
      assert Tallied(v, t, pools[t]);
      assert Members(Stamped(v, held), t) == Members(v, t);
    }
  }

  lemma StampIsValid(v: View, held: bool)
    requires ValidView(v)
    ensures ValidView(Stamped(v, held))
  {
    forall t | t in v.rings ensures TierRing(Stamped(v, held), t) {
      assert TierRing(v, t);
      assert Members(Stamped(v, held), t) == Members(v, t);
    }
    forall k | k in v.bindings ensures ValidBinding(Stamped(v, held).bindings[k]) {
      assert ValidBinding(v.bindings[k]);
    }
  }

  lemma StampKeepsBudgets(v: View, held: bool)
    requires ValidView(v) && RemoteWithinBudgets(v) && ValidView(Stamped(v, held))
    ensures RemoteWithinBudgets(Stamped(v, held))
  {
    StampKeepsSums(v, held);
    forall t | t in v.parallelism ensures RemoteWithinTier(Stamped(v, held), t) {
      assert Members(Stamped(v, held), t) == Members(v, t) && RemoteWithinTier(v, t);
    }
  }

  lemma StampInOrder(l: Ledger, v: View, held: bool)
    requires InOrder(l, v)
    ensures InOrder(l.(held := held, pools := HoldPools(l.pools, held)), Stamped(v, held))
  {
    StampTallies(v, l.pools, held);
    StampKeepsSums(v, held);
    StampIsValid(v, held);
    StampKeepsBudgets(v, held);
  }

  lemma StampStaysGenuine(v: View, held: bool, issued: set<Poll>)
    requires Genuine(v, issued)
    ensures Genuine(Stamped(v, held), issued)
  {
    forall p | p in issued ensures Honest(Stamped(v, held), p) {
      assert Honest(v, p);
    }
  }

  // ---- settling every ring ----

  lemma SettleSettles(r: Ring, bs: map<BindingKey, Binding>)
    requires r.order == [] || r.cursor < |r.order|
    ensures Settle(Settle(r, bs), bs) == Settle(r, bs)
  {
    if Settle(r, bs) != r {
      SearchFinds(r, bs, 1);
    }
  }

  /** The search stops at a binding that qualifies, or where it began. */
  lemma {:induction false} SearchFinds(r: Ring, bs: map<BindingKey, Binding>, i: nat)
    requires r.cursor < |r.order|
    ensures Search(r, bs, i) < |r.order|
    ensures Search(r, bs, i) == r.cursor || Qualifies(bs, r.order[Search(r, bs, i)])
    decreases |r.order| + 1 - i
  {
    if i <= |r.order| {
      SearchFinds(r, bs, i + 1);
    }
  }

  /** Rings of the tiers in `seen` are settled; of the others, some may be. */
  ghost predicate Thawing(u: View, v: View, seen: set<TierID>) {
    if u.limit > 0 then v == u.(ring := Settle(u.ring, u.bindings))
    else
      && v == u.(rings := v.rings) && v.rings.Keys == u.rings.Keys
      && forall t :: t in u.rings ==>
           v.rings[t] == Settle(u.rings[t], u.bindings) || (t !in seen && v.rings[t] == u.rings[t])
  }

  /** The first call: on whoever holds the instance's ring. */
  lemma ThawStarts(u: View, v: View)
    requires ValidView(u)
    requires v == match HolderOf(u.ring) case None => u case Some(k) => AdvanceFrom(u, k)
    ensures Thawing(u, v, {})
  {
  }

  lemma ThawTier(u: View, v: View, seen: set<TierID>, t: TierID, holder: BindingKey)
    requires ValidView(u) && u.limit == 0 && Thawing(u, v, seen) && t in u.rings
    requires HolderOf(v.rings[t]) == Some(holder) && holder in u.tierOf && u.tierOf[holder] == t
    ensures Thawing(u, AdvanceFrom(v, holder), seen + {t})
  {
    assert TierRing(u, t);
    SettleSettles(u.rings[t], u.bindings);
  }

  lemma ThawAgain(u: View, v: View, seen: set<TierID>, t: TierID, k: BindingKey)
    requires ValidView(u) && 0 < u.limit && Thawing(u, v, seen)
    ensures AdvanceFrom(v, k) == v && Thawing(u, v, seen + {t})
  {
    SettleSettles(u.ring, u.bindings);
  }

  lemma EmptyTierThaws(u: View, v: View, seen: set<TierID>, t: TierID)
    requires ValidView(u) && Thawing(u, v, seen) && (u.limit == 0 && t in u.rings ==> u.rings[t].order == [])
    ensures Thawing(u, v, seen + {t})
  {
  }

  lemma Thawed(v: View, u: View, w: View, seen: set<TierID>)
    requires ValidView(v) && v.held && u == Stamped(v, false) && Thawing(u, w, seen) && seen == u.rings.Keys
    ensures w == Held(v, false)
  {
    if u.limit == 0 {
      assert w.rings == map t | t in v.rings :: Settle(v.rings[t], u.bindings);
    }
  }

  /** What the books say of the instance's ring. */
  lemma InstanceRing(l: Ledger, v: View)
    requires InOrder(l, v)
    ensures v.ring == Ring(l.order, l.discovery, l.discoveryGeneration) && l.pools.Keys == v.rings.Keys
    ensures l.order != [] ==> l.discovery < |l.order|
  {
  }

  /** What the books say of a tier's ring. */
  lemma RingShown(l: Ledger, v: View, t: TierID)
    requires InOrder(l, v) && t in l.pools
    ensures t in v.rings
    ensures var p := l.pools[t];
            && v.rings[t] == Ring(p.order, p.discovery, p.discoveryGeneration)
            && (p.order != [] ==> && p.discovery < |p.order|
                                  && p.order[p.discovery] in v.tierOf && v.tierOf[p.order[p.discovery]] == t)
  {
    var p := l.pools[t];
    assert Tallied(v, t, p) && TierRing(v, t);
    if p.order != [] {
      assert p.order[p.discovery] in ToSet(p.order);
    }
  }

  /** One pool's turn in a thaw. */
  lemma ThawStep(u: View, v: View, w: View, seen: set<TierID>, t: TierID)
    requires ValidView(u) && Thawing(u, v, seen) && t in v.rings
    requires v.rings[t].order == [] || v.rings[t].cursor < |v.rings[t].order|
    requires HolderOf(v.rings[t]).Some? ==> var k := HolderOf(v.rings[t]).value; k in v.tierOf && v.tierOf[k] == t
    requires w == match HolderOf(v.rings[t]) case None => v case Some(k) => AdvanceFrom(v, k)
    ensures Thawing(u, w, seen + {t})
  {
    match HolderOf(v.rings[t])
    case None =>
      if u.limit == 0 {
        SettleKeepsOrder(u.rings[t], u.bindings);
      }
      EmptyTierThaws(u, v, seen, t);
    case Some(k) =>
      if u.limit == 0 {
        ThawTier(u, v, seen, t, k);
      } else {
        ThawAgain(u, v, seen, t, k);
      }
  }

  lemma SettleKeepsOrder(r: Ring, bs: map<BindingKey, Binding>)
    ensures Settle(r, bs).order == r.order
  {
  }

  lemma HeldAlike(l: Ledger, v: View)
    requires InOrder(l, v)
    ensures l.held == v.held
  {
  }

  lemma ThawStaysGenuine(u: View, v: View, issued: set<Poll>)
    requires Thawing(u, v, u.rings.Keys) && Genuine(u, issued)
    ensures Genuine(v, issued)
  {
    assert v.bindings == u.bindings;
  }
}
