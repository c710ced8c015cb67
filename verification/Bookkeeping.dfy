/**
 The running counters follow the bindings: changing one binding and moving each counter by
 the difference keeps the ledger representing the changed view.
 */
module Bookkeeping {
  import opened Base
  import opened Sums
  import opened Ledger
  import opened Planning
  import opened Operations
  import F = Fairness

  /** One binding replaced, and every counter moved by the difference. */
  function Posted(pool: Pool, k: BindingKey, b: Binding): Pool
    requires k in pool.state
  {
    var was := pool.state[k];
    pool.(state := pool.state[k := b],
          active := pool.active + b.active - was.active,
          remote := pool.remote + b.Effective() - was.Effective(),
          unknown := pool.unknown + Strange(b) - Strange(was))
  }

  function Strange(b: Binding): int { if b.remoteKnown then 0 else 1 }

  function Post(l: Ledger, k: BindingKey, b: Binding): Ledger
    requires k in l.tierOf && l.tierOf[k] in l.pools && k in l.pools[l.tierOf[k]].state
  {
    var t := l.tierOf[k];
    var was := l.pools[t].state[k];
    l.(pools := l.pools[t := Posted(l.pools[t], k, b)],
       activeCount := l.activeCount + b.active - was.active,
       remoteCapacity := l.remoteCapacity + b.Effective() - was.Effective(),
       unknownSessions := l.unknownSessions + Strange(b) - Strange(was))
  }

  /** A binding belongs to a pool that has it, as the view has it. */
  lemma Located(l: Ledger, v: View, k: BindingKey)
    requires ValidView(v) && Represents(l, v)
    ensures k in v.bindings <==> k in l.tierOf
    ensures k in l.tierOf ==> l.tierOf[k] in l.pools && k in l.pools[l.tierOf[k]].state
    ensures k in l.tierOf ==> l.pools[l.tierOf[k]].state[k] == v.bindings[k]
  {
    if k in l.tierOf {
      assert Tallied(v, l.tierOf[k], l.pools[l.tierOf[k]]);
      assert k in Members(v, l.tierOf[k]);
    }
  }

  lemma CountsMove(v: View, s: set<BindingKey>, active: int, remote: int, unknown: int, k: BindingKey, b: Binding)
    requires k in v.bindings && s <= v.bindings.Keys && Counts(v, s, active, remote, unknown)
    ensures var was := v.bindings[k];
            if k in s then Counts(Rebind(v, k, b), s, active + b.active - was.active,
                                  remote + b.Effective() - was.Effective(), unknown + Strange(b) - Strange(was))
            else Counts(Rebind(v, k, b), s, active, remote, unknown)
  {
    var bs := v.bindings;
    assert Actives(bs[k := b]) == Actives(bs)[k := b.active];
    assert Effectives(bs[k := b]) == Effectives(bs)[k := b.Effective()];
    assert Unknowns(bs[k := b]) == Unknowns(bs)[k := Strange(b)];
    SumUpdate(s, Actives(bs), k, b.active);
    SumUpdate(s, Effectives(bs), k, b.Effective());
    SumUpdate(s, Unknowns(bs), k, Strange(b));
  }

  lemma PostTallies(v: View, t: TierID, pool: Pool, k: BindingKey, b: Binding)
    requires Tallied(v, t, pool) && k in v.bindings && k in v.tierOf
    ensures v.tierOf[k] == t ==> k in pool.state && Tallied(Rebind(v, k, b), t, Posted(pool, k, b))
    ensures v.tierOf[k] != t ==> Tallied(Rebind(v, k, b), t, pool)
  {
    CountsMove(v, Members(v, t), pool.active, pool.remote, pool.unknown, k, b);
    assert Members(Rebind(v, k, b), t) == Members(v, t);
  }

  lemma PostAllTallied(v: View, pools: map<TierID, Pool>, k: BindingKey, b: Binding)
    requires AllTallied(v, pools) && k in v.bindings && k in v.tierOf && v.tierOf[k] in pools
    requires k in pools[v.tierOf[k]].state
    ensures AllTallied(Rebind(v, k, b), pools[v.tierOf[k] := Posted(pools[v.tierOf[k]], k, b)])
  {
    var posted := pools[v.tierOf[k] := Posted(pools[v.tierOf[k]], k, b)];
    forall t | t in posted ensures Tallied(Rebind(v, k, b), t, posted[t]) {
      assert Tallied(v, t, pools[t]);
      PostTallies(v, t, pools[t], k, b);
    }
  }

  lemma PostRepresents(l: Ledger, v: View, k: BindingKey, b: Binding)
    requires Represents(l, v) && k in v.bindings && k in l.tierOf
    requires l.tierOf[k] in l.pools && k in l.pools[l.tierOf[k]].state
    requires l.pools[l.tierOf[k]].state[k] == v.bindings[k]
    ensures Represents(Post(l, k, b), Rebind(v, k, b))
  {
    PostAllTallied(v, l.pools, k, b);
    CountsMove(v, v.bindings.Keys, l.activeCount, l.remoteCapacity, l.unknownSessions, k, b);
    assert Rebind(v, k, b).bindings.Keys == v.bindings.Keys;
  }

  lemma RebindIsValid(v: View, k: BindingKey, b: Binding)
    requires ValidView(v) && k in v.bindings && ValidBinding(b) && b.held == v.held
    ensures ValidView(Rebind(v, k, b))
  {
    forall t | t in v.rings ensures TierRing(Rebind(v, k, b), t) {
      assert TierRing(v, t);
      assert Members(Rebind(v, k, b), t) == Members(v, t);
    }
  }

  // ---- rings ----

  lemma {:induction false} SearchStays(r: Ring, bs: map<BindingKey, Binding>, i: nat)
    requires r.cursor < |r.order|
    ensures Search(r, bs, i) < |r.order|
    decreases |r.order| + 1 - i
  {
    if i <= |r.order| {
      SearchStays(r, bs, i + 1);
    }
  }

  /** `r` turned to another place of the same ring. */
  ghost predicate SameRing(r: Ring, r': Ring) {
    r'.order == r.order && (r.cursor < |r.order| ==> r'.cursor < |r.order|) && (r.order == [] ==> r'.cursor == r.cursor)
  }

  lemma RotateStays(r: Ring, bs: map<BindingKey, Binding>)
    requires r.cursor < |r.order|
    ensures SameRing(r, Rotate(r, bs)) && SameRing(r, Settle(r, bs))
  {
    SearchStays(r, bs, 1);
  }

  function Turn(l: Ledger, k: BindingKey, r: Ring): Ledger {
    if l.globalParallelism > 0 then l.(discovery := r.cursor, discoveryGeneration := r.generation)
    else if k in l.tierOf && l.tierOf[k] in l.pools then
      var t := l.tierOf[k];
      l.(pools := l.pools[t := l.pools[t].(discovery := r.cursor, discoveryGeneration := r.generation)])
    else l
  }

  lemma TurnTallies(v: View, pools: map<TierID, Pool>, t: TierID, r: Ring)
    requires AllTallied(v, pools) && t in pools && r.order == v.rings[t].order
    ensures AllTallied(v.(rings := v.rings[t := r]),
                       pools[t := pools[t].(discovery := r.cursor, discoveryGeneration := r.generation)])
  {
    var w := v.(rings := v.rings[t := r]);
    var turned := pools[t := pools[t].(discovery := r.cursor, discoveryGeneration := r.generation)];
    forall s | s in turned ensures Tallied(w, s, turned[s]) {
      assert Tallied(v, s, pools[s]);
      assert Members(w, s) == Members(v, s);
    }
  }

  lemma TurnRepresents(l: Ledger, v: View, k: BindingKey, r: Ring)
    requires Represents(l, v) && r.order == RingFor(v, k).order
    ensures Represents(Turn(l, k, r), WithRing(v, k, r))
  {
    if v.limit == 0 && k in v.tierOf && v.tierOf[k] in v.rings {
      TurnTallies(v, l.pools, v.tierOf[k], r);
    } else {
      assert AllTallied(WithRing(v, k, r), l.pools) by {
        forall t | t in l.pools ensures Tallied(WithRing(v, k, r), t, l.pools[t]) {
          assert Tallied(v, t, l.pools[t]);
          assert Members(WithRing(v, k, r), t) == Members(v, t);
        }
      }
    }
  }

  lemma TurnIsValid(v: View, k: BindingKey, r: Ring)
    requires ValidView(v) && SameRing(RingFor(v, k), r)
    ensures ValidView(WithRing(v, k, r))
  {
    hide Distinct, ToSet, Sum;
    forall t | t in v.rings ensures TierRing(WithRing(v, k, r), t) {
      assert TierRing(v, t);
      assert Members(WithRing(v, k, r), t) == Members(v, t);
    }
  }

  // ---- remote budgets ----

  /** Letting a binding hold no more than before, or no more than the others leave, keeps the budgets. */
  lemma RebindKeepsBudgets(v: View, k: BindingKey, b: Binding)
    requires ValidView(v) && RemoteWithinBudgets(v) && k in v.bindings && ValidBinding(b) && b.held == v.held
    requires b.Effective() <= Max(v.bindings[k].Effective(), Spare(v, k))
    ensures ValidView(Rebind(v, k, b)) && RemoteWithinBudgets(Rebind(v, k, b))
  {
    RebindIsValid(v, k, b);
    var w := Rebind(v, k, b);
    var e := Effectives(v.bindings);
    assert Effectives(w.bindings) == e[k := b.Effective()];
    forall t | t in v.parallelism ensures RemoteWithinTier(w, t) {
      assert Members(w, t) == Members(v, t) && RemoteWithinTier(v, t);
      SumUpdate(Members(v, t), e, k, b.Effective());
      if k in Members(v, t) {
        SumPick(Members(v, t), e, k);
      }
    }
    SumUpdate(v.bindings.Keys, e, k, b.Effective());
    SumPick(v.bindings.Keys, e, k);
    assert w.bindings.Keys == v.bindings.Keys;
  }

  lemma TurnKeepsBudgets(v: View, k: BindingKey, r: Ring)
    requires ValidView(v) && RemoteWithinBudgets(v) && SameRing(RingFor(v, k), r)
    ensures ValidView(WithRing(v, k, r)) && RemoteWithinBudgets(WithRing(v, k, r))
  {
    TurnIsValid(v, k, r);
    forall t | t in v.parallelism ensures RemoteWithinTier(WithRing(v, k, r), t) {
      assert Members(WithRing(v, k, r), t) == Members(v, t) && RemoteWithinTier(v, t);
    }
  }

  // ---- what a plan depends on ----

  /** The same for a plan: sessions, polls and the rings' generations do not matter. */
  ghost predicate SameInputs(v: View, w: View) {
    && w.limit == v.limit && w.parallelism == v.parallelism && w.tierOf == v.tierOf
    && w.ring.order == v.ring.order && w.ring.cursor == v.ring.cursor
    && w.rings.Keys == v.rings.Keys
    && (forall t :: t in v.rings ==> w.rings[t].order == v.rings[t].order && w.rings[t].cursor == v.rings[t].cursor)
    && w.bindings.Keys == v.bindings.Keys
    && (forall k :: k in v.bindings ==> w.bindings[k].Claim() == v.bindings[k].Claim())
  }

  lemma SameInputsSameShares(v: View, w: View)
    requires ValidView(v) && ValidView(w) && SameInputs(v, w)
    ensures Shares(w) == Shares(v)
  {
    hide ValidView, Sum, Distinct, ToSet;
    var c, d := MarketOf(v).claims, MarketOf(w).claims;
    assert forall k :: k in c ==> d[k] == c[k];
    assert d == c;
  }

  lemma SameInputsSameDesired(v: View, w: View, k: BindingKey)
    requires ValidView(v) && ValidView(w) && SameInputs(v, w) && k in v.bindings
    ensures DesiredFor(w, k) == DesiredFor(v, k)
  {
    hide Shares, Sum, Distinct, ToSet, TierRing;
    SameInputsSameShares(v, w);
    assert v.bindings[k].Claim() == w.bindings[k].Claim();
    assert Members(w, v.tierOf[k]) == Members(v, v.tierOf[k]);
    assert Funded(w, Shares(w), k) == Funded(v, Shares(v), k);
    assert Holds(w, k) == Holds(v, k);
  }

  lemma SameInputsSameTurns(v: View, w: View)
    requires ValidView(v) && ValidView(w) && SameInputs(v, w)
    ensures Discoveries(w) == Discoveries(v)
  {
    forall t | t in v.rings ensures HolderOf(w.rings[t]) == HolderOf(v.rings[t]) {
    }
  }

  lemma SameInputsSamePromise(v: View, w: View)
    requires ValidView(v) && ValidView(w) && SameInputs(v, w)
    ensures Desired(w) == Desired(v)
  {
    forall k | k in v.bindings ensures DesiredFor(w, k) == DesiredFor(v, k) {
      SameInputsSameDesired(v, w, k);
    }
  }

  /** A plan is good for as long as its inputs are the same. */
  lemma PlanStands(v: View, w: View, p: Plan)
    requires ValidView(v) && ValidView(w) && SameInputs(v, w) && PlanOf(v, p)
    ensures PlanOf(w, p)
  {
    SameInputsSamePromise(v, w);
    SameInputsSameTurns(v, w);
  }

  // ---- keeping the books ----

  /** The ledger represents the view, and remote capacity fits the budgets. */
  ghost predicate InOrder(l: Ledger, v: View) {
    ValidView(v) && Booked(l, v)
  }

  ghost predicate Booked(l: Ledger, v: View)
    requires ValidView(v)
  {
    Represents(l, v) && RemoteWithinBudgets(v)
  }

  lemma PostInOrder(l: Ledger, v: View, k: BindingKey, b: Binding)
    requires InOrder(l, v) && k in v.bindings && ValidBinding(b) && b.held == v.held
    requires b.Effective() <= Max(v.bindings[k].Effective(), Spare(v, k))
    ensures k in l.tierOf && l.tierOf[k] in l.pools && k in l.pools[l.tierOf[k]].state
    ensures InOrder(Post(l, k, b), Rebind(v, k, b))
  {
    Located(l, v, k);
    PostRepresents(l, v, k, b);
    RebindKeepsBudgets(v, k, b);
  }

  lemma TurnInOrder(l: Ledger, v: View, k: BindingKey, r: Ring)
    requires InOrder(l, v) && SameRing(RingFor(v, k), r)
    ensures InOrder(Turn(l, k, r), WithRing(v, k, r))
  {
    TurnRepresents(l, v, k, r);
    TurnKeepsBudgets(v, k, r);
  }

  /** A binding's poll may end, and its poll numbers do not go back. */
  lemma RebindStaysGenuine(v: View, k: BindingKey, b: Binding, issued: set<Poll>)
    requires Genuine(v, issued) && k in v.bindings
    requires v.bindings[k].pollID <= b.pollID && (b.pending == v.bindings[k].pending || b.pending.None?)
    ensures Genuine(Rebind(v, k, b), issued)
  {
  }

  /** A new poll has a number no earlier poll has. */
  lemma AnnouncedStaysGenuine(v: View, k: BindingKey, capacity: nat, issued: set<Poll>)
    requires Genuine(v, issued) && MayPoll(v, k)
    ensures Genuine(Announced(v, k, capacity), issued + {Ticket(v, k, capacity)})
  {
    var w := Announced(v, k, capacity);
    forall p | p in issued + {Ticket(v, k, capacity)} ensures Honest(w, p) {
      if p in issued {
        assert Honest(v, p);
      }
    }
  }

  lemma InvalidStaysGenuine(v: View, p: Poll, issued: set<Poll>)
    requires Genuine(v, issued) && ValidView(v) && p.id == 0
    ensures Genuine(v, issued + {p})
  {
    assert p.key in v.bindings ==> ValidBinding(v.bindings[p.key]);
  }

  lemma AdvanceKeepsBindings(v: View, k: BindingKey)
    ensures AdvanceFrom(v, k).bindings == v.bindings
  {
  }

  lemma AdvanceStaysGenuine(v: View, k: BindingKey, issued: set<Poll>)
    requires Genuine(v, issued)
    ensures Genuine(AdvanceFrom(v, k), issued)
  {
    AdvanceKeepsBindings(v, k);
  }

  lemma DemandedStaysGenuine(v: View, k: BindingKey, demand: int, issued: set<Poll>)
    requires Genuine(v, issued)
    ensures Genuine(Demanded(v, k, demand), issued)
  {
    hide Genuine;
    if k in v.bindings {
      var changed := v.bindings[k].(assignedDemand := Max(demand, 0));
      RebindStaysGenuine(v, k, changed, issued);
      AdvanceStaysGenuine(Rebind(v, k, changed), k, issued);
    }
  }

  lemma StartedStaysGenuine(v: View, k: BindingKey, issued: set<Poll>)
    requires Genuine(v, issued)
    ensures Genuine(Started(v, k), issued)
  {
    hide Genuine;
    if k in v.bindings {
      var changed := v.bindings[k].(active := v.bindings[k].active + 1);
      RebindStaysGenuine(v, k, changed, issued);
      AdvanceStaysGenuine(Rebind(v, k, changed), k, issued);
    }
  }

  /** Where the ledger keeps the ring of `k`. */
  lemma RingLocated(l: Ledger, v: View, k: BindingKey)
    requires InOrder(l, v)
    ensures l.globalParallelism > 0 ==> RingFor(v, k) == Ring(l.order, l.discovery, l.discoveryGeneration)
    ensures l.globalParallelism == 0 && k in l.tierOf ==>
              && l.tierOf[k] in l.pools
              && var pool := l.pools[l.tierOf[k]];
              && RingFor(v, k) == Ring(pool.order, pool.discovery, pool.discoveryGeneration)
    ensures l.globalParallelism == 0 && k !in l.tierOf ==> RingFor(v, k).order == []
    ensures RingFor(v, k).order != [] ==> RingFor(v, k).cursor < |RingFor(v, k).order|
  {
    if l.globalParallelism == 0 && k in l.tierOf {
      assert Tallied(v, l.tierOf[k], l.pools[l.tierOf[k]]) && TierRing(v, l.tierOf[k]);
    }
  }

  /** The holder stopped qualifying: the credit goes to `next`, in the books and in the view. */
  lemma Advanced(l: Ledger, v: View, k: BindingKey, r: Ring, moved: Ring)
    requires InOrder(l, v) && r == RingFor(v, k) && HolderOf(r) == Some(k) && !Qualifies(v.bindings, k)
    requires moved == Rotate(r, v.bindings) && moved.cursor != r.cursor
    ensures AdvanceFrom(v, k) == WithRing(v, k, moved) && InOrder(Turn(l, k, moved), WithRing(v, k, moved))
  {
    hide Booked;
    assert Settle(r, v.bindings) == moved;
    RotateStays(r, v.bindings);
    TurnInOrder(l, v, k, moved);
  }

  lemma NotAdvanced(v: View, k: BindingKey)
    requires var r := RingFor(v, k);
             HolderOf(r) != Some(k) || Qualifies(v.bindings, k) || Next(r, v.bindings) == r.cursor
    ensures AdvanceFrom(v, k) == v
  {
    var r := RingFor(v, k);
    if HolderOf(r) == Some(k) {
      assert Settle(r, v.bindings) == r;
    }
  }

  /** Where the ledger keeps `k`. */
  lemma PoolHas(l: Ledger, v: View, k: BindingKey)
    requires InOrder(l, v) && k in v.bindings
    ensures k in l.tierOf && l.tierOf[k] in l.pools && k in l.pools[l.tierOf[k]].state
    ensures l.pools[l.tierOf[k]].state[k] == v.bindings[k]
  {
    Located(l, v, k);
  }

  /** A published plan is the one the state promises, under the present generation. */
  ghost predicate UpToDate(v: View, plan: Option<Plan>, generation: nat)
    requires ValidView(v)
  {
    plan.Some? ==> PlanOf(v, plan.value) && plan.value.generation == generation
  }

  lemma StaysUpToDate(v: View, w: View, plan: Option<Plan>, generation: nat)
    requires ValidView(v) && ValidView(w) && SameInputs(v, w) && UpToDate(v, plan, generation)
    ensures UpToDate(w, plan, generation)
  {
    if plan.Some? {
      PlanStands(v, w, plan.value);
    }
  }

  lemma RotateInOrder(l: Ledger, v: View, k: BindingKey)
    requires InOrder(l, v) && RingFor(v, k).cursor < |RingFor(v, k).order|
    ensures var turned := Rotate(RingFor(v, k), v.bindings);
            InOrder(Turn(l, k, turned), WithRing(v, k, turned))
  {
    hide Booked;
    RotateStays(RingFor(v, k), v.bindings);
    TurnInOrder(l, v, k, Rotate(RingFor(v, k), v.bindings));
  }

  lemma TurnStaysGenuine(v: View, k: BindingKey, r: Ring, issued: set<Poll>)
    requires Genuine(v, issued)
    ensures Genuine(WithRing(v, k, r), issued)
  {
    assert WithRing(v, k, r).bindings == v.bindings;
  }

  /** A plan sees a ring turn only if the cursor moved. */
  lemma TurnSameInputs(v: View, k: BindingKey, r: Ring)
    requires r.order == RingFor(v, k).order && r.cursor == RingFor(v, k).cursor
    ensures SameInputs(v, WithRing(v, k, r))
  {
  }

  /** The answer to a pending poll is about no more than what was reserved for it. */
  lemma AnswerIsHonest(v: View, p: Poll, issued: set<Poll>)
    requires Genuine(v, issued) && p in issued && Current(v, p)
    ensures p.capacity == v.bindings[p.key].pending.value.capacity
  {
    assert Honest(v, p);
  }

  lemma SameInputsTransitive(u: View, v: View, w: View)
    requires SameInputs(u, v) && SameInputs(v, w)
    ensures SameInputs(u, w)
  {
  }

  /** From state to state, nothing a plan depends on changes under the same generation. */
  ghost predicate Followed(v: View, generation: nat, w: View, generation': nat) {
    generation <= generation' && (generation == generation' ==> SameInputs(v, w))
  }

  /** Over any run of such steps: a plan made under a generation is right for as long as the generation lasts. */
  lemma {:induction false} OneGenerationOnePlan(vs: seq<View>, gs: seq<nat>, i: nat, j: nat, p: Plan)
    requires |gs| == |vs| && i <= j < |vs| && (forall n :: 0 <= n < |vs| ==> ValidView(vs[n]))
    requires forall n {:trigger gs[n]} :: 0 <= n < |vs| - 1 ==> Followed(vs[n], gs[n], vs[n + 1], gs[n + 1])
    requires PlanOf(vs[i], p)
    ensures gs[i] <= gs[j] && (gs[i] == gs[j] ==> PlanOf(vs[j], p))
  {
    if i < j {
      OneGenerationOnePlan(vs, gs, i, j - 1, p);
      assert Followed(vs[j - 1], gs[j - 1], vs[j], gs[j]);
      if gs[i] == gs[j] {
        PlanStands(vs[j - 1], vs[j], p);
      }
    }
  }

  lemma SameInputsReflexive(v: View)
    ensures SameInputs(v, v)
  {
  }

  /** What the counters of `k`'s tier and of the instance say. */
  lemma Tallies(l: Ledger, v: View, k: BindingKey)
    requires InOrder(l, v) && k in v.bindings && k in l.tierOf && l.tierOf[k] in l.pools
    ensures l.tierOf[k] == v.tierOf[k]
    ensures l.globalParallelism == v.limit && l.pools[l.tierOf[k]].parallelism == v.parallelism[v.tierOf[k]]
    ensures l.pools[l.tierOf[k]].active == TierActive(v, v.tierOf[k]) && l.activeCount == InstanceActive(v)
  {
    assert Tallied(v, l.tierOf[k], l.pools[l.tierOf[k]]);
  }

  /** No session of the budget is unknown exactly when its counter is zero. */
  lemma UnknownTallies(l: Ledger, v: View, k: BindingKey)
    requires InOrder(l, v) && k in v.bindings && k in l.tierOf && l.tierOf[k] in l.pools
    ensures AllKnown(v, k) <==>
            if l.globalParallelism > 0 then l.unknownSessions == 0 else l.pools[l.tierOf[k]].unknown == 0
  {
    hide Distinct, ToSet, Sum;
    assert Tallied(v, l.tierOf[k], l.pools[l.tierOf[k]]);
    var s := if v.limit > 0 then v.bindings.Keys else Members(v, v.tierOf[k]);
    SumZero(s, Unknowns(v.bindings));
    assert (forall j :: j in s ==> Unknowns(v.bindings)[j] == 0) <==> (forall j :: j in s ==> v.bindings[j].remoteKnown);
  }

  /** What the others may hold remotely, from the counters. */
  lemma RemoteTallies(l: Ledger, v: View, k: BindingKey)
    requires InOrder(l, v) && k in v.bindings && k in l.tierOf && l.tierOf[k] in l.pools
    ensures var current := v.bindings[k].Effective();
            var tier := v.parallelism[v.tierOf[k]] - (l.pools[l.tierOf[k]].remote - current);
            Spare(v, k) == if v.limit > 0 then Min(tier, v.limit - (l.remoteCapacity - current)) else tier
  {
    hide ValidView, Sum, Distinct, ToSet;
    assert Tallied(v, l.tierOf[k], l.pools[l.tierOf[k]]);
    assert k in Members(v, v.tierOf[k]);
    SumPick(Members(v, v.tierOf[k]), Effectives(v.bindings), k);
    SumPick(v.bindings.Keys, Effectives(v.bindings), k);
  }

  lemma RebindTwice(v: View, k: BindingKey, b: Binding, c: Binding)
    ensures Rebind(Rebind(v, k, b), k, c) == Rebind(v, k, c)
  {
    assert v.bindings[k := b][k := c] == v.bindings[k := c];
  }

  lemma RebindSameInputs(v: View, k: BindingKey, b: Binding)
    requires k in v.bindings && b.Claim() == v.bindings[k].Claim()
    ensures SameInputs(v, Rebind(v, k, b))
  {
  }
}
