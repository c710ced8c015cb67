/**
 A hold: no new credit is announced and no claim is granted, to whoever is or will be
 registered, from the hold to the next thaw; running work stays advertised. After a thaw the
 budgets alone decide again.
 */
module Withholding {
  import opened Base
  import opened Sums
  import opened Ledger
  import opened Planning
  import opened Operations
  import opened Bookkeeping
  import PB = PlanBounds
  import B = Broker
  import E = Enrolment

  /** Nothing is withheld from what runs, and nothing else is given. */
  ghost predicate Withheld(v: View)
    requires ValidView(v)
  {
    && (forall k :: !Reservable(v, k))
    && (forall k {:trigger Desired(v)[k]} :: k in v.bindings ==> Desired(v)[k] == v.bindings[k].active)
  }

  lemma HeldWithholds(v: View)
    requires ValidView(v) && v.held
    ensures Withheld(v)
  {
    hide TierRing, RingOf, Distinct, ToSet, Sum, Desired;
    forall k | k in v.bindings ensures Desired(v)[k] == v.bindings[k].active {
      PB.DesiredCoversWork(v, k);
    }
  }

  lemma HoldIsHeld(v: View, held: bool)
    ensures Held(v, held).held == held && Held(v, held).bindings.Keys == v.bindings.Keys
    ensures forall k :: k in v.bindings ==> Held(v, held).bindings[k].active == v.bindings[k].active
  {
    hide Settle;
  }

  /** A hold withholds from every binding. */
  lemma HoldWithholds(v: View)
    requires ValidView(v)
    ensures ValidView(Held(v, true)) && Withheld(Held(v, true))
    ensures forall k :: k in v.bindings ==> k in Held(v, true).bindings && Desired(Held(v, true))[k] == v.bindings[k].active
  {
    hide Withheld, Desired, ValidView;
    B.HeldIsValid(v, true);
    HoldIsHeld(v, true);
    HeldWithholds(Held(v, true));
    forall k | k in v.bindings ensures Desired(Held(v, true))[k] == v.bindings[k].active {
      WithheldAt(Held(v, true), k);
    }
  }

  lemma WithheldAt(v: View, k: BindingKey)
    requires ValidView(v) && Withheld(v) && k in v.bindings
    ensures Desired(v)[k] == v.bindings[k].active
  {
  }

  /** And from one that is registered while it lasts. */
  lemma HoldCoversNewcomers(v: View, t: TierID, k: BindingKey, parallelism: nat)
    requires ValidView(v) && v.held && E.Admissible(v, t, k, parallelism)
    ensures var w := Registered(v, t, k, parallelism);
            ValidView(w) && k in w.bindings && Withheld(w) && Desired(w)[k] == 0
  {
    hide Withheld, Desired, ValidView;
    E.RegisteredIsValid(v, t, k, parallelism);
    var w := Registered(v, t, k, parallelism);
    HeldWithholds(w);
    WithheldAt(w, k);
  }

  /** After a thaw, a binding is admitted exactly if both budgets have a credit left. */
  lemma ThawAdmits(v: View, k: BindingKey)
    requires ValidView(v)
    ensures var w := Held(v, false);
            && ValidView(w)
            && (Reservable(w, k) <==>
                 && k in v.bindings
                 && TierActive(v, v.tierOf[k]) < v.parallelism[v.tierOf[k]] && (v.limit > 0 ==> InstanceActive(v) < v.limit))
  {
    hide TierRing, RingOf, Distinct, ToSet, Settle;
    B.HeldIsValid(v, false);
    HoldIsHeld(v, false);
    var w := Held(v, false);
    assert Actives(w.bindings) == Actives(v.bindings);
    assert k in v.bindings ==> Members(w, v.tierOf[k]) == Members(v, v.tierOf[k]);
  }

  // ---- over a run ----

  lemma EventKeepsHold(v: View, e: B.Event)
    requires ValidView(v) && v.held && e != B.Hold(false)
    ensures B.Controller(v, e).held
  {
    hide ValidView, RingFor, Settle, Reservable, B.Offer;
  }

  lemma {:induction false} HeldThroughout(ws: seq<B.World>, es: seq<B.Event>, i: nat, n: nat)
    requires B.Run(ws, es) && i < n < |ws| && es[i] == B.Hold(true)
    requires forall l :: i < l < n ==> es[l] != B.Hold(false)
    ensures ws[n].view.held
  {
    hide ValidView, B.Controller;
    B.ViewMoves(ws, es, n - 1);
    if n == i + 1 {
      HeldAfter(ws[i].view);
    } else {
      HeldThroughout(ws, es, i, n - 1);
      EventKeepsHold(ws[n - 1].view, es[n - 1]);
    }
  }

  lemma HeldAfter(v: View)
    requires ValidView(v)
    ensures B.Controller(v, B.Hold(true)).held
  {
    HoldIsHeld(v, true);
  }

  /** From a hold to the next thaw no claim is granted, and no announcement exceeds what runs. */
  lemma HoldHolds(ws: seq<B.World>, es: seq<B.Event>, i: nat, n: nat)
    requires B.Run(ws, es) && i < n < |es| && es[i] == B.Hold(true)
    requires forall l :: i < l < n ==> es[l] != B.Hold(false)
    ensures ValidView(ws[n].view) && Withheld(ws[n].view)
    ensures es[n].Reserve? ==> ws[n + 1].view == ws[n].view
    ensures es[n].BeginPoll? && MayPoll(ws[n].view, es[n].key) ==>
              var b := ws[n + 1].view.bindings[es[n].key]; b.pending.Some? && b.pending.value.capacity <= b.active
  {
    hide ValidView, Desired, Reservable, Announced, RingFor;
    B.ViewMoves(ws, es, n);
    HeldThroughout(ws, es, i, n);
    HeldWithholds(ws[n].view);
    if es[n].BeginPoll? && MayPoll(ws[n].view, es[n].key) {
      HeldOffer(ws[n].view, es[n].key);
    }
  }

  lemma HeldOffer(v: View, k: BindingKey)
    requires ValidView(v) && Withheld(v) && MayPoll(v, k)
    ensures k in B.Controller(v, B.BeginPoll(k)).bindings
    ensures var b := B.Controller(v, B.BeginPoll(k)).bindings[k]; b.pending.Some? && b.pending.value.capacity <= b.active
  {
    hide ValidView, Desired, Withheld, Spare, AllKnown;
    WithheldAt(v, k);
  }
}
