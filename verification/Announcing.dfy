/**
 What an announcement comes to: nothing while a predecessor session is unaccounted for, and
 otherwise as much of the plan's share as fits.
 */
module Announcing {
  import opened Base
  import opened Sums
  import opened Ledger
  import opened Planning
  import opened Operations
  import opened Bookkeeping
  import PB = PlanBounds
  import B = Broker
  import D = Discovery

  // ---- the most that fits ----

  lemma AnnouncedEffectives(v: View, k: BindingKey, n: nat)
    requires ValidView(v) && MayPoll(v, k)
    ensures ValidView(Announced(v, k, n))
    ensures Effectives(Announced(v, k, n).bindings) == Effectives(v.bindings)[k := Max(v.bindings[k].published, n)]
    ensures Announced(v, k, n).bindings.Keys == v.bindings.Keys
  {
    hide ValidView;
    var b := v.bindings[k].(pollID := v.bindings[k].pollID + 1, pending := Some(PendingPoll(v.bindings[k].pollID + 1, n)));
    Bindings(v, k);
    RebindIsValid(v, k, b);
  }

  /** With `k` at `e`, the others leave room in a budget exactly if `e` is no more than they leave. */
  lemma FitsBeside(s: set<BindingKey>, es: map<BindingKey, int>, k: BindingKey, e: int, budget: int)
    requires s <= es.Keys && k in s
    ensures Sum(s, es[k := e]) <= budget <==> e <= budget - Sum(s - {k}, es)
  {
    SumUpdate(s, es, k, e);
    SumPick(s, es, k);
  }

  /** More than the others leave breaks a budget. */
  lemma MoreDoesNotFit(v: View, k: BindingKey, n: nat)
    requires ValidView(v) && MayPoll(v, k) && n > Spare(v, k)
    ensures ValidView(Announced(v, k, n)) && !RemoteWithinBudgets(Announced(v, k, n))
  {
    hide Sum, Distinct, ToSet;
    AnnouncedEffectives(v, k, n);
    var w, es, t, e := Announced(v, k, n), Effectives(v.bindings), v.tierOf[k], Max(v.bindings[k].published, n);
    assert Members(w, t) == Members(v, t) && k in Members(v, t);
    FitsBeside(Members(v, t), es, k, e, v.parallelism[t]);
    FitsBeside(v.bindings.Keys, es, k, e, v.limit);
    assert RemoteWithinBudgets(w) ==> RemoteWithinTier(w, t);
  }

  lemma NoMoreFits(v: View, k: BindingKey, n: nat)
    requires ValidView(v) && RemoteWithinBudgets(v) && MayPoll(v, k) && n <= Max(0, Spare(v, k))
    ensures ValidView(Announced(v, k, n)) && RemoteWithinBudgets(Announced(v, k, n))
  {
    hide Sum, Distinct, ToSet, Spare, ValidView;
    B.SentIsAnnounced(v, k, n);
    var b := B.Sent(v.bindings[k], n);
    assert ValidBinding(b) && b.held == v.held by { Bindings(v, k); }
    RebindKeepsBudgets(v, k, b);
  }

  lemma Bindings(v: View, k: BindingKey)
    requires ValidView(v) && k in v.bindings
    ensures ValidBinding(v.bindings[k]) && v.bindings[k].held == v.held
  {
  }

  /**
   With every session of the budget known, an announcement is the most of the plan's share that
   fits beside what the others may hold: it is no more than the share, it fits, and the next
   credit does not.
   */
  lemma AnnouncementIsTheMost(v: View, k: BindingKey, n: nat)
    requires ValidView(v) && RemoteWithinBudgets(v) && MayPoll(v, k) && AllKnown(v, k)
    ensures 0 <= Announcement(v, k) <= Desired(v)[k]
    ensures ValidView(Announced(v, k, n))
    ensures n <= Desired(v)[k] ==> (RemoteWithinBudgets(Announced(v, k, n)) <==> n <= Announcement(v, k))
  {
    hide ValidView, RemoteWithinBudgets, Spare, Desired, AllKnown, Announced;
    PB.DesiredCoversWork(v, k);
    if n <= Announcement(v, k) {
      NoMoreFits(v, k, n);
    } else if n <= Desired(v)[k] {
      MoreDoesNotFit(v, k, n);
    } else {
      AnnouncedEffectives(v, k, n);
    }
  }

  /** Until then it is nothing, so the budget's predecessors are waited for. */
  lemma UnknownAnnouncesNothing(v: View, k: BindingKey)
    requires ValidView(v) && MayPoll(v, k) && !AllKnown(v, k)
    ensures Announcement(v, k) == 0
  {
  }

  /** With nobody else announcing, a binding announces its whole share. */
  lemma AloneAnnouncesAll(v: View, k: BindingKey)
    requires ValidView(v) && MayPoll(v, k) && AllKnown(v, k)
    requires forall j :: j in v.bindings && j != k ==> v.bindings[j].Effective() == 0
    requires Desired(v)[k] <= v.parallelism[v.tierOf[k]] && (v.limit > 0 ==> Desired(v)[k] <= v.limit)
    ensures Announcement(v, k) == Desired(v)[k]
  {
    hide Distinct, ToSet;
    PB.DesiredCoversWork(v, k);
    SumAllZero(Members(v, v.tierOf[k]) - {k}, Effectives(v.bindings));
    SumAllZero(v.bindings.Keys - {k}, Effectives(v.bindings));
  }

  /** The holder of an idle credit, with room remotely, announces it, and its poll is a look at its queue. */
  lemma CreditIsAnnounced(v: View, k: BindingKey)
    requires ValidView(v) && MayPoll(v, k) && AllKnown(v, k) && Spare(v, k) > 0
    requires Holds(v, k) && Funded(v, Shares(v), k)
    ensures Announcement(v, k) == 1
    ensures Ticket(v, k, 1).discovery && Ticket(v, k, 1).discoveryGeneration == RingFor(v, k).generation
  {
    hide Sum, Spare, Distinct, ToSet;
  }

  /** A whole turn of the credit: the holder looks, finds nothing, and somebody else is next. */
  lemma TurnOfTheCredit(v: View, k: BindingKey)
    requires ValidView(v) && MayPoll(v, k) && AllKnown(v, k) && Spare(v, k) > 0
    requires Holds(v, k) && Funded(v, Shares(v), k)
    requires exists i :: D.Seat(RingFor(v, k), v.bindings, i) && i != RingFor(v, k).cursor
    ensures var n := B.Offer(v, k);
            var w := Completed(Announced(v, k, n), Ticket(v, k, n), true, true);
            var r, r' := RingFor(v, k), RingFor(w, k);
            n == 1 && r'.generation == r.generation + 1 && r'.cursor != r.cursor && D.Seat(r, v.bindings, r'.cursor)
  {
    hide Sum, Spare, Distinct, ToSet, Announced, Ticket, Completed, AllKnown;
    CreditIsAnnounced(v, k);
    HolderIsHolder(v, k);
    D.LookPassesTheCredit(v, k, 1);
  }

  lemma HolderIsHolder(v: View, k: BindingKey)
    requires ValidView(v) && k in v.bindings && Holds(v, k)
    ensures HolderOf(RingFor(v, k)) == Some(k)
  {
    hide Distinct, ToSet;
  }

  // ---- accounting for predecessors ----

  /** After this the session of `j` is known: a new one was accepted, or the old one is gone for certain. */
  predicate Accounts(e: B.Event, j: BindingKey) { e == B.SessionOpened(j) || e == B.SessionClosed(j, true) }

  /** After this it is not: whether the session closed is uncertain. */
  predicate Unsettles(e: B.Event, j: BindingKey) { e == B.SessionClosed(j, false) }

  lemma CompletedKnown(v: View, p: Poll, succeeded: bool, empty: bool, j: BindingKey)
    ensures var w := Completed(v, p, succeeded, empty);
            (j in w.bindings <==> j in v.bindings) && (j in v.bindings ==> w.bindings[j].remoteKnown == v.bindings[j].remoteKnown)
  {
    hide Rotated, RingFor;
    D.RotatedTurns(Answered(v, p, succeeded), p, j);
  }

  ghost predicate KnownAfter(v: View, e: B.Event, w: View, j: BindingKey) {
    && (j in w.bindings <==> j in v.bindings)
    && (j in v.bindings ==>
         (w.bindings[j].remoteKnown <==> Accounts(e, j) || (v.bindings[j].remoteKnown && !Unsettles(e, j))))
  }

  lemma KnownMoves(v: View, e: B.Event, j: BindingKey)
    requires ValidView(v)
    ensures KnownAfter(v, e, B.Controller(v, e), j)
  {
    hide ValidView, Demanded, Held, Started, Released, Completed, Reservable, B.Offer, RingFor;
    if B.Local(e) {
      B.LocalKeepsRemote(v, e);
    } else if e.CompletePoll? {
      CompletedKnown(v, e.poll, e.succeeded, e.empty, j);
    }
  }

  /** Some event before `n` accounted for the session of `j`, and none since unsettled it. */
  ghost predicate Accounted(es: seq<B.Event>, n: nat, j: BindingKey)
    requires n <= |es|
  {
    exists i {:trigger es[i]} :: 0 <= i < n && Accounts(es[i], j) && StaysSettled(es, i + 1, n, j)
  }

  ghost predicate StaysSettled(es: seq<B.Event>, i: nat, n: nat, j: BindingKey)
    requires n <= |es|
  {
    forall l {:trigger es[l]} :: i <= l < n ==> !Unsettles(es[l], j)
  }

  lemma AccountedMoves(es: seq<B.Event>, n: nat, j: BindingKey)
    requires n < |es|
    ensures Accounted(es, n + 1, j) <==> Accounts(es[n], j) || (Accounted(es, n, j) && !Unsettles(es[n], j))
  {
    if Accounts(es[n], j) {
      assert StaysSettled(es, n + 1, n + 1, j);
    } else if Accounted(es, n, j) && !Unsettles(es[n], j) {
      var i {:trigger es[i]} :| 0 <= i < n && Accounts(es[i], j) && StaysSettled(es, i + 1, n, j);
      assert StaysSettled(es, i + 1, n + 1, j);
    }
  }

  /** From a restart on, a session is known exactly if it is accounted for. */
  lemma {:induction false} KnownExactly(ws: seq<B.World>, es: seq<B.Event>, inherited: map<BindingKey, int>, n: nat, j: BindingKey)
    requires B.Run(ws, es) && B.Start(ws[0], inherited) && n < |ws| && j in ws[0].view.bindings
    ensures j in ws[n].view.bindings && (ws[n].view.bindings[j].remoteKnown <==> Accounted(es, n, j))
  {
    hide ValidView, B.Controller, B.MostFits;
    if n > 0 {
      KnownExactly(ws, es, inherited, n - 1, j);
      B.ViewMoves(ws, es, n - 1);
      KnownMoves(ws[n - 1].view, es[n - 1], j);
      AccountedMoves(es, n - 1, j);
    }
  }

  /** Whoever was registered still is, and nobody else. */
  lemma {:induction false} SameBindings(ws: seq<B.World>, es: seq<B.Event>, n: nat, j: BindingKey)
    requires B.Run(ws, es) && n < |ws|
    ensures j in ws[n].view.bindings <==> j in ws[0].view.bindings
  {
    hide ValidView, B.Controller;
    if n > 0 {
      SameBindings(ws, es, n - 1, j);
      B.ViewMoves(ws, es, n - 1);
      KnownMoves(ws[n - 1].view, es[n - 1], j);
    }
  }

  /**
   Announcements wait for exactly the sessions of their own budget: they are held back until every
   one of them is accounted for, and from then on they are not.
   */
  lemma AllKnownExactly(ws: seq<B.World>, es: seq<B.Event>, inherited: map<BindingKey, int>, n: nat, k: BindingKey)
    requires B.Run(ws, es) && B.Start(ws[0], inherited) && n < |ws| && ValidView(ws[n].view) && k in ws[n].view.bindings
    ensures var v := ws[n].view;
            AllKnown(v, k) <==>
            forall j :: j in v.bindings && (v.limit > 0 || v.tierOf[j] == v.tierOf[k]) ==> Accounted(es, n, j)
  {
    hide TierRing, RingOf, Distinct, ToSet, Accounted, B.Start;
    forall j | j in ws[n].view.bindings ensures ws[n].view.bindings[j].remoteKnown <==> Accounted(es, n, j) {
      SameBindings(ws, es, n, j);
      KnownExactly(ws, es, inherited, n, j);
    }
  }

  // ---- nothing is reserved for nothing ----

  /** The capacity the last successful answer settled for `k`; none before it, nor after its session went. */
  ghost function Settled(ws: seq<B.World>, es: seq<B.Event>, n: nat, k: BindingKey): nat
    requires n <= |es| <= |ws|
  {
    if n == 0 then 0
    else
      match es[n - 1]
      case CompletePoll(p, succeeded, _) =>
        if p.key == k && succeeded && Current(ws[n - 1].view, p) then p.capacity else Settled(ws, es, n - 1, k)
      case _ => if Accounts(es[n - 1], k) then 0 else Settled(ws, es, n - 1, k)
  }

  /** What `b` reserves was settled, or is on its way. */
  ghost predicate Grounded(b: Binding, settled: nat, flying: set<nat>) {
    (b.published == settled || b.published in flying) && (b.pending.Some? ==> b.pending.value.capacity in flying)
  }

  ghost predicate GroundedIn(w: B.World, k: BindingKey, settled: nat) {
    k in w.view.bindings && k in w.flying && Grounded(w.view.bindings[k], settled, w.flying[k])
  }

  ghost predicate GroundedAt(ws: seq<B.World>, es: seq<B.Event>, n: nat, k: BindingKey)
    requires n <= |es| < |ws|
  {
    GroundedIn(ws[n], k, Settled(ws, es, n, k))
  }

  lemma LocalGrounded(w: B.World, e: B.Event, k: BindingKey, settled: nat)
    requires ValidView(w.view) && B.Local(e) && GroundedIn(w, k, settled)
    ensures GroundedIn(B.After(w, e), k, settled)
  {
    hide ValidView, B.Controller;
    B.LocalKeepsRemote(w.view, e);
  }

  lemma AnswerGrounded(w: B.World, p: Poll, succeeded: bool, empty: bool, k: BindingKey, settled: nat)
    requires ValidView(w.view) && p in w.issued && Genuine(w.view, w.issued) && GroundedIn(w, k, settled)
    ensures GroundedIn(B.After(w, B.CompletePoll(p, succeeded, empty)), k,
                       if p.key == k && succeeded && Current(w.view, p) then p.capacity else settled)
  {
    hide ValidView, RingFor, WithRing;
    assert Honest(w.view, p);
    D.RotatedTurns(Answered(w.view, p, succeeded), p, k);
  }

  lemma OpenedGrounded(w: B.World, j: BindingKey, k: BindingKey, settled: nat)
    requires ValidView(w.view) && GroundedIn(w, k, settled)
    ensures GroundedIn(B.After(w, B.SessionOpened(j)), k, if j == k then 0 else settled)
  {
    hide ValidView;
  }

  lemma ClosedGrounded(w: B.World, j: BindingKey, confirmed: bool, k: BindingKey, settled: nat)
    requires ValidView(w.view) && GroundedIn(w, k, settled)
    ensures GroundedIn(B.After(w, B.SessionClosed(j, confirmed)), k, if j == k && confirmed then 0 else settled)
  {
    hide ValidView;
  }

  lemma BegunGrounded(w: B.World, j: BindingKey, k: BindingKey, settled: nat)
    requires ValidView(w.view) && GroundedIn(w, k, settled)
    ensures GroundedIn(B.After(w, B.BeginPoll(j)), k, settled)
  {
    hide ValidView, B.Offer, Ticket;
  }

  lemma OtherGrounded(w: B.World, e: B.Event, k: BindingKey, settled: nat)
    requires ValidView(w.view) && B.Possible(w, e) && !B.Local(e) && !e.CompletePoll? && GroundedIn(w, k, settled)
    ensures GroundedIn(B.After(w, e), k, if Accounts(e, k) then 0 else settled)
  {
    hide ValidView, B.After, GroundedIn;
    match e
    case SessionOpened(j) => OpenedGrounded(w, j, k, settled);
    case SessionClosed(j, confirmed) => ClosedGrounded(w, j, confirmed, k, settled);
    case BeginPoll(j) => BegunGrounded(w, j, k, settled);
    case _ => BrokerGrounded(w, e, k, settled);
  }

  lemma BrokerGrounded(w: B.World, e: B.Event, k: BindingKey, settled: nat)
    requires ValidView(w.view) && (e.Lands? || e.Lapses?) && GroundedIn(w, k, settled)
    ensures GroundedIn(B.After(w, e), k, settled)
  {
    hide ValidView;
  }

  lemma {:induction false} AlwaysGrounded(ws: seq<B.World>, es: seq<B.Event>, inherited: map<BindingKey, int>, n: nat, k: BindingKey)
    requires B.Run(ws, es) && B.Start(ws[0], inherited) && n < |ws| && k in ws[0].view.bindings
    ensures GroundedAt(ws, es, n, k)
  {
    hide ValidView, B.After, B.MostFits, Genuine, GroundedIn;
    if n == 0 {
      StartGrounded(ws[0], inherited, k);
    } else {
      AlwaysGrounded(ws, es, inherited, n - 1, k);
      B.RunInv(ws, es, inherited, n - 1);
      var w, e := ws[n - 1], es[n - 1];
      assert B.Next(w, e, ws[n]);
      var settled := Settled(ws, es, n - 1, k);
      if B.Local(e) {
        LocalGrounded(w, e, k, settled);
      } else if e.CompletePoll? {
        AnswerGrounded(w, e.poll, e.succeeded, e.empty, k, settled);
      } else {
        OtherGrounded(w, e, k, settled);
      }
    }
  }

  lemma StartGrounded(w: B.World, inherited: map<BindingKey, int>, k: BindingKey)
    requires B.Start(w, inherited) && k in w.view.bindings
    ensures GroundedIn(w, k, 0)
  {
  }

  /**
   Over every run: what is reserved for a binding is a capacity the provider confirmed, or one that
   may still land. So a confirmed close, a new session and a lowered announcement that was answered
   all give their credits back.
   */
  lemma ReservedForAReason(ws: seq<B.World>, es: seq<B.Event>, inherited: map<BindingKey, int>, n: nat, k: BindingKey)
    requires B.Run(ws, es) && B.Start(ws[0], inherited) && n < |ws| && k in ws[0].view.bindings
    ensures k in ws[n].view.bindings && k in ws[n].flying
    ensures var reserved := ws[n].view.bindings[k].Effective();
            reserved == Settled(ws, es, n, k) || reserved in ws[n].flying[k]
  {
    hide ValidView, B.Start, B.Run, Settled;
    AlwaysGrounded(ws, es, inherited, n, k);
  }
}
