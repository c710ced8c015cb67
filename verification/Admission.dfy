/**
 Reservations stay within the budgets, and so within what the capacity check measured.
 */
module Admission {
  import opened Base
  import opened Sums
  import opened Ledger
  import opened Planning
  import opened Operations
  import opened Bookkeeping
  import opened Holding
  import B = Broker
  import C = Capacity

  ghost predicate TierWithin(v: View, t: TierID)
    requires Members(v, t) <= v.bindings.Keys && t in v.parallelism
  {
    TierActive(v, t) <= v.parallelism[t]
  }

  /** No tier and no instance runs more than its budget. */
  ghost predicate ActiveWithin(v: View)
    requires ValidView(v)
  {
    && (forall t {:trigger TierWithin(v, t)} :: t in v.parallelism ==> TierWithin(v, t))
    && (v.limit > 0 ==> InstanceActive(v) <= v.limit)
  }

  /** The same bindings in the same tiers, running the same. */
  ghost predicate SameWork(v: View, w: View) {
    && w.limit == v.limit && w.parallelism == v.parallelism && w.tierOf == v.tierOf
    && w.bindings.Keys == v.bindings.Keys
    && (forall k {:trigger w.bindings[k]} :: k in v.bindings ==> w.bindings[k].active == v.bindings[k].active)
  }

  lemma SameWorkWithin(v: View, w: View)
    requires ValidView(v) && ValidView(w) && ActiveWithin(v) && SameWork(v, w)
    ensures ActiveWithin(w)
  {
    assert Actives(w.bindings) == Actives(v.bindings);
    forall t | t in v.parallelism ensures TierWithin(w, t) {
      assert Members(w, t) == Members(v, t) && TierWithin(v, t);
    }
  }

  lemma AdvanceSameWork(v: View, k: BindingKey)
    ensures SameWork(v, AdvanceFrom(v, k))
  {
  }

  lemma RotatedSameWork(v: View, p: Poll)
    ensures SameWork(v, Rotated(v, p))
  {
  }

  lemma DemandedSameWork(v: View, k: BindingKey, d: int)
    ensures SameWork(v, Demanded(v, k, d))
  {
    if k in v.bindings {
      AdvanceSameWork(Rebind(v, k, v.bindings[k].(assignedDemand := Max(d, 0))), k);
    }
  }

  lemma CompletedSameWork(v: View, p: Poll, succeeded: bool, empty: bool)
    ensures SameWork(v, Completed(v, p, succeeded, empty))
  {
    RotatedSameWork(Answered(v, p, succeeded), p);
  }

  lemma HeldSameWork(v: View, held: bool)
    ensures SameWork(v, Held(v, held))
  {
  }

  /** Only admissions and releases change what runs. */
  lemma OthersSameWork(v: View, e: B.Event)
    requires ValidView(v) && !e.Reserve? && !e.Adopt? && !e.Release?
    ensures SameWork(v, B.Controller(v, e))
  {
    hide TierRing, RingOf;
    match e
    case Demand(k, d) => DemandedSameWork(v, k, d);
    case Hold(held) => HeldSameWork(v, held);
    case CompletePoll(p, succeeded, empty) => CompletedSameWork(v, p, succeeded, empty);
    case _ =>
  }

  lemma RebindWithin(v: View, k: BindingKey, b: Binding)
    requires ValidView(v) && ActiveWithin(v) && k in v.bindings && ValidView(Rebind(v, k, b))
    requires b.active <= v.bindings[k].active || (b.active == v.bindings[k].active + 1 && Reservable(v, k))
    ensures ActiveWithin(Rebind(v, k, b))
  {
    hide Sum;
    var w, a := Rebind(v, k, b), Actives(v.bindings);
    assert Actives(w.bindings) == a[k := b.active];
    forall t | t in v.parallelism ensures TierWithin(w, t) {
      assert Members(w, t) == Members(v, t) && TierWithin(v, t);
      SumUpdate(Members(v, t), a, k, b.active);
    }
    SumUpdate(v.bindings.Keys, a, k, b.active);
    assert w.bindings.Keys == v.bindings.Keys;
  }

  lemma ReserveWithin(v: View, k: BindingKey)
    requires ValidView(v) && ActiveWithin(v) && Reservable(v, k)
    ensures ValidView(Started(v, k)) && ActiveWithin(Started(v, k))
  {
    var counted := Counted(v, k);
    B.StartedKeeps(v, k);
    CountedIsValid(v, k);
    CountedWithin(v, k);
    AdvanceSameWork(counted, k);
    assert Started(v, k) == AdvanceFrom(counted, k);
    SameWorkWithin(counted, Started(v, k));
  }

  function Counted(v: View, k: BindingKey): View
    requires k in v.bindings
  {
    Rebind(v, k, v.bindings[k].(active := v.bindings[k].active + 1))
  }

  lemma CountedIsValid(v: View, k: BindingKey)
    requires ValidView(v) && k in v.bindings
    ensures ValidView(Counted(v, k))
  {
    assert ValidBinding(v.bindings[k]) && v.bindings[k].held == v.held;
    RebindIsValid(v, k, v.bindings[k].(active := v.bindings[k].active + 1));
  }

  lemma CountedWithin(v: View, k: BindingKey)
    requires ValidView(v) && ActiveWithin(v) && Reservable(v, k) && ValidView(Counted(v, k))
    ensures ActiveWithin(Counted(v, k))
  {
    hide ValidView;
    RebindWithin(v, k, v.bindings[k].(active := v.bindings[k].active + 1));
  }

  // ---- how many claims in a row ----

  ghost predicate Granted(v: View, k: BindingKey, w: View) {
    ValidView(v) && ValidView(w) && Reservable(v, k) && w == Started(v, k)
  }

  /** Reservations of `k`, one after the other, each granted. */
  ghost predicate Claims(vs: seq<View>, k: BindingKey) {
    vs != [] && ValidView(vs[0]) && forall i {:trigger vs[i]} :: 0 < i < |vs| ==> Granted(vs[i - 1], k, vs[i])
  }

  lemma SameWorkSameActive(v: View, w: View, t: TierID)
    requires ValidView(v) && ValidView(w) && SameWork(v, w)
    ensures TierActive(w, t) == TierActive(v, t) && InstanceActive(w) == InstanceActive(v)
  {
    assert Actives(w.bindings) == Actives(v.bindings) && Members(w, t) == Members(v, t);
  }

  lemma CountedActive(v: View, k: BindingKey)
    requires ValidView(v) && k in v.bindings
    ensures ValidView(Counted(v, k))
    ensures TierActive(Counted(v, k), v.tierOf[k]) == TierActive(v, v.tierOf[k]) + 1
    ensures InstanceActive(Counted(v, k)) == InstanceActive(v) + 1
  {
    hide Sum;
    var w, a, t := Counted(v, k), Actives(v.bindings), v.tierOf[k];
    CountedIsValid(v, k);
    assert Actives(w.bindings) == a[k := a[k] + 1] && Members(w, t) == Members(v, t) && k in Members(v, t);
    SumUpdate(Members(v, t), a, k, a[k] + 1);
    SumUpdate(v.bindings.Keys, a, k, a[k] + 1);
    assert w.bindings.Keys == v.bindings.Keys;
  }

  /** Starting adds one to what runs, in the binding's tier and in the instance. */
  lemma StartedActive(v: View, k: BindingKey)
    requires ValidView(v) && k in v.bindings
    ensures ValidView(Started(v, k)) && k in Started(v, k).bindings && Started(v, k).tierOf == v.tierOf
    ensures Started(v, k).bindings[k] == v.bindings[k].(active := v.bindings[k].active + 1)
    ensures Started(v, k).parallelism == v.parallelism && Started(v, k).limit == v.limit
    ensures TierActive(Started(v, k), v.tierOf[k]) == TierActive(v, v.tierOf[k]) + 1
    ensures InstanceActive(Started(v, k)) == InstanceActive(v) + 1
  {
    hide Distinct, ToSet, Sum, TierRing, RingOf;
    var counted := Counted(v, k);
    B.StartedKeeps(v, k);
    CountedActive(v, k);
    AdvanceSameWork(counted, k);
    assert Started(v, k) == AdvanceFrom(counted, k);
    SameWorkSameActive(counted, Started(v, k), v.tierOf[k]);
  }

  /** A claim that is granted takes one off the reservable capacity. */
  lemma ClaimUsesRoom(v: View, k: BindingKey)
    requires ValidView(v) && Reservable(v, k)
    ensures ValidView(Started(v, k)) && Room(Started(v, k), k) == Room(v, k) - 1
  {
    hide Distinct, ToSet, Sum, Started, TierRing, RingOf;
    B.StartedKeeps(v, k);
    StartedActive(v, k);
  }

  /** The reservable capacity is exactly how many claims in a row are granted. */
  lemma {:induction false} RoomIsClaims(vs: seq<View>, k: BindingKey, n: nat)
    requires Claims(vs, k) && n < |vs|
    ensures ValidView(vs[n]) && Room(vs[n], k) == Room(vs[0], k) - n
    ensures Reservable(vs[n], k) <==> n < Room(vs[0], k)
  {
    if n > 0 {
      assert Granted(vs[n - 1], k, vs[n]);
      RoomIsClaims(vs, k, n - 1);
      ClaimUsesRoom(vs[n - 1], k);
    }
  }

  lemma ReleaseWithin(v: View, k: BindingKey)
    requires ValidView(v) && ActiveWithin(v)
    ensures ValidView(Released(v, k)) && ActiveWithin(Released(v, k))
  {
    if k in v.bindings && v.bindings[k].active > 0 {
      var b := v.bindings[k].(active := v.bindings[k].active - 1);
      assert ValidBinding(v.bindings[k]);
      RebindIsValid(v, k, b);
      RebindWithin(v, k, b);
    }
  }

  // ---- a refused claim, and a release ----

  /** A claim is refused exactly if granting it would have run more than a budget. */
  lemma RefusedExactly(v: View, k: BindingKey)
    requires ValidView(v) && k in v.bindings && !v.bindings[k].held
    ensures ValidView(Started(v, k)) && (Reservable(v, k) <==> !OverBudget(Started(v, k), k))
  {
    hide Sum, Distinct, ToSet, TierRing, RingOf, Started;
    StartedActive(v, k);
  }

  lemma ReleasedActive(v: View, k: BindingKey)
    requires ValidView(v) && k in v.bindings && v.bindings[k].active > 0
    ensures ValidView(Released(v, k))
    ensures TierActive(Released(v, k), v.tierOf[k]) == TierActive(v, v.tierOf[k]) - 1
    ensures InstanceActive(Released(v, k)) == InstanceActive(v) - 1
  {
    hide Sum;
    B.ReleasedKeeps(v, k);
    var w, a, t := Released(v, k), Actives(v.bindings), v.tierOf[k];
    assert Actives(w.bindings) == a[k := a[k] - 1] && Members(w, t) == Members(v, t) && k in Members(v, t);
    SumUpdate(Members(v, t), a, k, a[k] - 1);
    SumUpdate(v.bindings.Keys, a, k, a[k] - 1);
    assert w.bindings.Keys == v.bindings.Keys;
  }

  /** A release makes room for one more claim, of whoever shares the tier. */
  lemma ReleaseMakesRoom(v: View, k: BindingKey, j: BindingKey)
    requires ValidView(v) && ActiveWithin(v) && !v.held && k in v.bindings && v.bindings[k].active > 0
    requires j in v.bindings && v.tierOf[j] == v.tierOf[k]
    ensures ValidView(Released(v, k)) && Room(Released(v, k), j) == Room(v, j) + 1 && Reservable(Released(v, k), j)
  {
    hide Sum, Distinct, ToSet, TierRing, RingOf;
    ReleasedActive(v, k);
    assert TierWithin(v, v.tierOf[k]) && v.bindings[j].held == v.held;
    assert Released(v, k).bindings[j].held == v.held;
  }

  /** What a claim took, its release gives back, and no more. */
  lemma ReleaseUndoesStart(v: View, k: BindingKey)
    requires ValidView(v) && k in v.bindings
    ensures SameWork(v, Released(Started(v, k), k))
  {
    hide TierRing, RingOf, Distinct, ToSet;
    AdvanceSameWork(Counted(v, k), k);
    assert Started(v, k) == AdvanceFrom(Counted(v, k), k);
  }

  /** Whatever happens but an adoption, budgets that hold still do. */
  lemma EventKeepsWithin(v: View, e: B.Event)
    requires ValidView(v) && ActiveWithin(v) && !e.Adopt? && ValidView(B.Controller(v, e))
    ensures ActiveWithin(B.Controller(v, e))
  {
    if e.Reserve? {
      if Reservable(v, e.key) {
        ReserveWithin(v, e.key);
      }
    } else if e.Release? {
      ReleaseWithin(v, e.key);
    } else {
      OthersSameWork(v, e);
      SameWorkWithin(v, B.Controller(v, e));
    }
  }

  lemma {:induction false} RunWithin(ws: seq<B.World>, es: seq<B.Event>, inherited: map<BindingKey, int>, n: nat)
    requires B.Run(ws, es) && B.Start(ws[0], inherited) && n < |ws|
    requires forall k :: k in ws[0].view.bindings ==> ws[0].view.bindings[k].active == 0
    requires forall i :: 0 <= i < |es| ==> !es[i].Adopt?
    ensures ValidView(ws[n].view) && ActiveWithin(ws[n].view)
  {
    hide RingFor, AdvanceFrom, ValidView, B.Controller, ActiveWithin;
    B.RunInv(ws, es, inherited, n);
    if n == 0 {
      IdleWithin(ws[0].view);
    } else {
      RunWithin(ws, es, inherited, n - 1);
      B.ViewMoves(ws, es, n - 1);
      EventKeepsWithin(ws[n - 1].view, es[n - 1]);
    }
  }

  lemma IdleWithin(v: View)
    requires ValidView(v) && forall k :: k in v.bindings ==> v.bindings[k].active == 0
    ensures ActiveWithin(v)
  {
    forall t | t in v.parallelism ensures TierWithin(v, t) {
      SumAllZero(Members(v, t), Actives(v.bindings));
    }
    SumAllZero(v.bindings.Keys, Actives(v.bindings));
  }

  // ---- what runs is a load the capacity check covered ----

  /** The configuration the bindings were registered with; a tier may have none. */
  ghost predicate ConfiguredAs(v: View, tiers: seq<C.Tier>, instance: Option<nat>) {
    && C.Configured(tiers) && instance == (if v.limit > 0 then Some(v.limit) else None)
    && v.parallelism.Keys <= C.Ids(tiers)
    && (forall i :: 0 <= i < |tiers| && tiers[i].id in v.parallelism ==> v.parallelism[tiers[i].id] == tiers[i].parallelism)
  }

  ghost function LoadOf(v: View, tiers: seq<C.Tier>): C.Load
    requires ValidView(v)
  {
    map i | 0 <= i < |tiers| :: tiers[i].id := ActiveCount(v, tiers[i].id)
  }

  ghost function ActiveCount(v: View, t: TierID): nat
    requires ValidView(v)
  {
    SumNonNegative(Members(v, t), Actives(v.bindings));
    TierActive(v, t)
  }

  ghost function MembersOfAll(v: View, tiers: seq<C.Tier>): set<BindingKey> {
    set k | k in v.tierOf && exists i :: 0 <= i < |tiers| && tiers[i].id == v.tierOf[k]
  }

  /** Tiers do not share bindings, so their workloads add up. */
  lemma {:induction false} WorkloadsAddUp(v: View, tiers: seq<C.Tier>, load: C.Load)
    requires ValidView(v) && (forall i, j :: 0 <= i < j < |tiers| ==> tiers[i].id != tiers[j].id)
    requires forall i :: 0 <= i < |tiers| ==> tiers[i].id in load && load[tiers[i].id] == ActiveCount(v, tiers[i].id)
    requires C.Within(C.Weights(tiers, C.Memory), load)
    ensures MembersOfAll(v, tiers) <= v.bindings.Keys
    ensures C.Workloads(C.Weights(tiers, C.Memory), load) == Sum(MembersOfAll(v, tiers), Actives(v.bindings))
  {
    if tiers == [] {
      assert MembersOfAll(v, tiers) == {};
    } else {
      var rest := tiers[1..];
      var ws := C.Weights(tiers, C.Memory);
      assert ws[1..] == C.Weights(rest, C.Memory);
      WorkloadsAddUp(v, rest, load);
      assert MembersOfAll(v, tiers) == Members(v, tiers[0].id) + MembersOfAll(v, rest) by {
        forall k | k in MembersOfAll(v, rest) ensures k in MembersOfAll(v, tiers) {
          var i :| 0 <= i < |rest| && rest[i].id == v.tierOf[k];
          assert tiers[i + 1].id == v.tierOf[k];
        }
        forall k | k in MembersOfAll(v, tiers) ensures k in Members(v, tiers[0].id) + MembersOfAll(v, rest) {
          var i :| 0 <= i < |tiers| && tiers[i].id == v.tierOf[k];
          assert i > 0 ==> rest[i - 1].id == v.tierOf[k];
        }
      }
      assert Members(v, tiers[0].id) !! MembersOfAll(v, rest);
      SumUnion(Members(v, tiers[0].id), MembersOfAll(v, rest), Actives(v.bindings));
    }
  }

  lemma LoadIsWithin(v: View, tiers: seq<C.Tier>, instance: Option<nat>, load: C.Load)
    requires ValidView(v) && ActiveWithin(v) && ConfiguredAs(v, tiers, instance) && load == LoadOf(v, tiers)
    ensures forall i :: 0 <= i < |tiers| ==> tiers[i].id in load && load[tiers[i].id] == ActiveCount(v, tiers[i].id)
    ensures C.Within(C.Weights(tiers, C.Memory), load)
  {
    forall i | 0 <= i < |tiers| ensures tiers[i].id in load && load[tiers[i].id] == ActiveCount(v, tiers[i].id) <= tiers[i].parallelism {
      if tiers[i].id in v.parallelism {
        assert TierWithin(v, tiers[i].id);
      } else {
        assert Members(v, tiers[i].id) == {};
      }
    }
  }

  /** The load counts everything that runs. */
  lemma LoadIsAll(v: View, tiers: seq<C.Tier>, instance: Option<nat>)
    requires ValidView(v) && ActiveWithin(v) && ConfiguredAs(v, tiers, instance)
    ensures C.Within(C.Weights(tiers, C.Memory), LoadOf(v, tiers))
    ensures C.Workloads(C.Weights(tiers, C.Memory), LoadOf(v, tiers)) == InstanceActive(v)
  {
    var load := LoadOf(v, tiers);
    LoadIsWithin(v, tiers, instance, load);
    WorkloadsAddUp(v, tiers, load);
    EverybodyIsListed(v, tiers, instance);
  }

  lemma EverybodyIsListed(v: View, tiers: seq<C.Tier>, instance: Option<nat>)
    requires ValidView(v) && ConfiguredAs(v, tiers, instance)
    ensures MembersOfAll(v, tiers) == v.bindings.Keys
  {
    forall k | k in v.bindings ensures k in MembersOfAll(v, tiers) {
      assert v.tierOf[k] in C.Ids(tiers);
    }
  }

  lemma ActiveIsAdmissible(v: View, tiers: seq<C.Tier>, instance: Option<nat>)
    requires ValidView(v) && ActiveWithin(v) && ConfiguredAs(v, tiers, instance)
    ensures C.Admissible(tiers, instance, LoadOf(v, tiers))
  {
    LoadIsAll(v, tiers, instance);
  }

  /** On a host that passed the check, whatever reservations let in fits, with the reserve on top. */
  lemma ReservationsFitTheHost(ws: seq<B.World>, es: seq<B.Event>, inherited: map<BindingKey, int>, n: nat,
                               tiers: seq<C.Tier>, instance: Option<nat>, reserve: C.Resources, h: C.Host, d: C.Dimension)
    requires B.Run(ws, es) && B.Start(ws[0], inherited) && n < |ws|
    requires forall k :: k in ws[0].view.bindings ==> ws[0].view.bindings[k].active == 0
    requires forall i :: 0 <= i < |es| ==> !es[i].Adopt?
    requires ConfiguredAs(ws[n].view, tiers, instance) && C.Carries(tiers, instance, reserve, h, d)
    ensures ValidView(ws[n].view)
    ensures var load := LoadOf(ws[n].view, tiers);
            && C.Within(C.Weights(tiers, d), load)
            && C.Workloads(C.Weights(tiers, d), load) == InstanceActive(ws[n].view)
            && C.Need(C.Weights(tiers, d), load) + C.Amount(reserve, d) <= C.Total(h, d)
  {
    RunWithin(ws, es, inherited, n);
    LoadIsAll(ws[n].view, tiers, instance);
    ActiveIsAdmissible(ws[n].view, tiers, instance);
    C.SameLoads(C.Weights(tiers, C.Memory), C.Weights(tiers, d), LoadOf(ws[n].view, tiers));
  }
}
