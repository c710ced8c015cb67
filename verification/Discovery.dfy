/**
 The discovery credit: who gets it next, that nobody is skipped, and that a late answer
 cannot move it twice.
 */
module Discovery {
  import opened Base
  import opened Ledger
  import opened Planning
  import opened Operations
  import opened Bookkeeping
  import opened Holding
  import B = Broker

  predicate Seat(r: Ring, bs: map<BindingKey, Binding>, i: int) {
    0 <= i < |r.order| && Qualifies(bs, r.order[i])
  }

  function At(r: Ring, x: nat): nat
    requires 0 < |r.order|
  {
    (r.cursor + x) % |r.order|
  }

  /** The search skips whoever does not qualify and stops at the first who does. */
  lemma {:induction false} SearchSkips(r: Ring, bs: map<BindingKey, Binding>, i: nat, d: nat)
    requires r.cursor < |r.order| && i <= d <= |r.order|
    requires forall x :: i <= x < d ==> !Qualifies(bs, r.order[At(r, x)])
    requires Qualifies(bs, r.order[At(r, d)])
    ensures Search(r, bs, i) == At(r, d)
    decreases d - i
  {
    if i < d {
      assert !Qualifies(bs, r.order[At(r, i)]);
      SearchSkips(r, bs, i + 1, d);
    }
  }

  /** The search comes back empty-handed only if nobody qualifies. */
  lemma {:induction false} SearchMisses(r: Ring, bs: map<BindingKey, Binding>, i: nat, x: nat)
    requires r.cursor < |r.order| && i <= x <= |r.order|
    requires Qualifies(bs, r.order[At(r, x)])
    ensures Search(r, bs, i) < |r.order| && Qualifies(bs, r.order[Search(r, bs, i)])
    decreases |r.order| + 1 - i
  {
    if i < x {
      SearchMisses(r, bs, i + 1, x);
    }
  }

  /** How far ahead of the cursor place `i` is, counting the cursor's own place last. */
  function Ahead(r: Ring, i: nat): (d: nat)
    requires r.cursor < |r.order| && i < |r.order|
    ensures 1 <= d <= |r.order|
  {
    if r.cursor < i then i - r.cursor else i - r.cursor + |r.order|
  }

  lemma Unwrapped(r: Ring, x: nat)
    requires r.cursor < |r.order| && x <= |r.order|
    ensures At(r, x) == if r.cursor + x < |r.order| then r.cursor + x else r.cursor + x - |r.order|
  {
    OnceAround(r.cursor + x, |r.order|);
  }

  lemma OnceAround(a: nat, n: nat)
    requires 0 < n && a < 2 * n
    ensures a % n == if a < n then a else a - n
  {
  }

  lemma AheadLands(r: Ring, i: nat)
    requires r.cursor < |r.order| && i < |r.order|
    ensures At(r, Ahead(r, i)) == i
  {
    Unwrapped(r, Ahead(r, i));
  }

  lemma NextQualifies(r: Ring, bs: map<BindingKey, Binding>, i: nat)
    requires r.cursor < |r.order| && Seat(r, bs, i)
    ensures Next(r, bs) < |r.order| && Seat(r, bs, Next(r, bs))
  {
    AheadLands(r, i);
    SearchMisses(r, bs, 1, Ahead(r, i));
  }

  /** A settled ring has its credit on a binding that qualifies, if it has one at all. */
  lemma SettleLandsOnASeat(r: Ring, bs: map<BindingKey, Binding>)
    requires r.order == [] || r.cursor < |r.order|
    ensures (exists i :: Seat(r, bs, i)) ==> Settle(r, bs).order == r.order && Seat(r, bs, Settle(r, bs).cursor)
  {
    if i :| Seat(r, bs, i) {
      NextQualifies(r, bs, i);
    }
  }

  /** The ring has its credit where it should be. */
  ghost predicate WellPlaced(r: Ring, bs: map<BindingKey, Binding>) {
    (exists i :: Seat(r, bs, i)) ==> Seat(r, bs, r.cursor)
  }

  lemma SettleIsWellPlaced(r: Ring, bs: map<BindingKey, Binding>)
    requires r.order == [] || r.cursor < |r.order|
    ensures WellPlaced(Settle(r, bs), bs)
  {
    SettleKeepsOrder(r, bs);
    SettleLandsOnASeat(r, bs);
    if i :| Seat(Settle(r, bs), bs, i) {
      assert Seat(r, bs, i);
    }
  }

  lemma RingInRange(v: View, k: BindingKey)
    requires ValidView(v)
    ensures RingFor(v, k).order == [] || RingFor(v, k).cursor < |RingFor(v, k).order|
  {
    if v.limit == 0 && k in v.tierOf {
      assert TierRing(v, v.tierOf[k]);
    }
  }

  lemma AdvanceIsWellPlaced(v: View, k: BindingKey)
    requires ValidView(v) && HolderOf(RingFor(v, k)) == Some(k)
    ensures WellPlaced(RingFor(AdvanceFrom(v, k), k), AdvanceFrom(v, k).bindings)
  {
    RingInRange(v, k);
    AdvanceKeepsBindings(v, k);
    SettleIsWellPlaced(RingFor(v, k), v.bindings);
  }

  lemma ChangedHolder(v: View, k: BindingKey, b: Binding)
    requires ValidView(v) && k in v.bindings && HolderOf(RingFor(v, k)) == Some(k)
    requires b.held == v.held && b.pending == v.bindings[k].pending && b.pollID == v.bindings[k].pollID
    ensures var w := AdvanceFrom(Rebind(v, k, b), k); WellPlaced(RingFor(w, k), w.bindings)
  {
    assert ValidBinding(v.bindings[k]);
    RebindIsValid(v, k, b);
    AdvanceIsWellPlaced(Rebind(v, k, b), k);
  }

  /** Work that arrives at the holder leaves its ring's credit on a qualifying binding. */
  lemma WorkPassesTheCredit(v: View, k: BindingKey)
    requires ValidView(v) && k in v.bindings && HolderOf(RingFor(v, k)) == Some(k)
    ensures WellPlaced(RingFor(Started(v, k), k), Started(v, k).bindings)
  {
    assert v.bindings[k].held == v.held;
    var b := v.bindings[k].(active := v.bindings[k].active + 1);
    ChangedHolder(v, k, b);
    assert Started(v, k) == AdvanceFrom(Rebind(v, k, b), k);
  }

  /** So does demand that arrives there. */
  lemma DemandPassesTheCredit(v: View, k: BindingKey, demand: int)
    requires ValidView(v) && k in v.bindings && HolderOf(RingFor(v, k)) == Some(k)
    requires demand > 0 && demand != v.bindings[k].assignedDemand
    ensures WellPlaced(RingFor(Demanded(v, k, demand), k), Demanded(v, k, demand).bindings)
  {
    assert v.bindings[k].held == v.held;
    var b := v.bindings[k].(assignedDemand := demand);
    ChangedHolder(v, k, b);
    assert Demanded(v, k, demand) == AdvanceFrom(Rebind(v, k, b), k);
  }

  /** A thaw leaves every ring's credit on a qualifying binding. */
  lemma ThawPassesTheCredit(v: View, k: BindingKey)
    requires ValidView(v) && v.held && k in v.bindings
    ensures var w := Held(v, false); WellPlaced(RingFor(w, k), w.bindings)
  {
    var bs := HoldAll(v.bindings, false);
    RingInRange(v, k);
    SettleIsWellPlaced(RingFor(v, k), bs);
    assert RingFor(Held(v, false), k) == Settle(RingFor(v, k), bs);
    assert Held(v, false).bindings == bs;
  }

  /** Demand or work of anybody but the holder moves no credit, nor does demand that went away, nor a hold. */
  lemma OthersMoveNothing(v: View, k: BindingKey, demand: int)
    ensures HolderOf(RingFor(v, k)) != Some(k) || demand <= 0 ==> SameRings(v, Demanded(v, k, demand))
    ensures HolderOf(RingFor(v, k)) != Some(k) ==> SameRings(v, Started(v, k))
    ensures SameRings(v, Held(v, true)) && (!v.held ==> Held(v, false) == v)
  {
    hide Settle;
  }

  predicate SameRings(v: View, w: View) { w.ring == v.ring && w.rings == v.rings }

  // ---- late answers ----

  /** Nothing happened to the ring, or one rotation among those that qualify afterwards. */
  ghost predicate Turned(r: Ring, r': Ring, bs: map<BindingKey, Binding>) {
    r' == r || r' == Rotate(r, bs)
  }

  lemma SettleTurns(r: Ring, bs: map<BindingKey, Binding>)
    ensures Turned(r, Settle(r, bs), bs)
  {
    hide Next;
  }

  lemma AdvanceTurns(v: View, j: BindingKey, k: BindingKey)
    ensures AdvanceFrom(v, j).bindings == v.bindings
    ensures Turned(RingFor(v, k), RingFor(AdvanceFrom(v, j), k), v.bindings)
  {
    hide Settle, Rotate;
    SettleTurns(RingFor(v, j), v.bindings);
  }

  lemma RotatedTurns(v: View, p: Poll, k: BindingKey)
    ensures Rotated(v, p).bindings == v.bindings
    ensures Turned(RingFor(v, k), RingFor(Rotated(v, p), k), v.bindings)
  {
    hide Rotate;
  }

  lemma HeldTurns(v: View, held: bool, k: BindingKey)
    ensures Turned(RingFor(v, k), RingFor(Held(v, held), k), Held(v, held).bindings)
  {
    hide Settle, Rotate;
    var bs := HoldAll(v.bindings, held);
    SettleTurns(RingFor(v, k), bs);
  }

  lemma RebindKeepsRing(v: View, j: BindingKey, b: Binding, k: BindingKey)
    ensures RingFor(Rebind(v, j, b), k) == RingFor(v, k)
  {
  }

  lemma DemandedTurns(v: View, j: BindingKey, d: int, k: BindingKey)
    ensures Turned(RingFor(v, k), RingFor(Demanded(v, j, d), k), Demanded(v, j, d).bindings)
  {
    hide AdvanceFrom, RingFor, Rotate, Rebind;
    if j in v.bindings {
      var b := v.bindings[j].(assignedDemand := Max(d, 0));
      RebindKeepsRing(v, j, b, k);
      AdvanceTurns(Rebind(v, j, b), j, k);
    }
  }

  lemma StartedTurns(v: View, j: BindingKey, k: BindingKey)
    ensures Turned(RingFor(v, k), RingFor(Started(v, j), k), Started(v, j).bindings)
  {
    hide AdvanceFrom, RingFor, Rotate, Rebind;
    if j in v.bindings {
      var b := v.bindings[j].(active := v.bindings[j].active + 1);
      RebindKeepsRing(v, j, b, k);
      AdvanceTurns(Rebind(v, j, b), j, k);
    }
  }

  lemma AnsweredKeepsRing(v: View, p: Poll, succeeded: bool, k: BindingKey)
    ensures RingFor(Answered(v, p, succeeded), k) == RingFor(v, k)
  {
  }

  lemma CompletedTurns(v: View, p: Poll, succeeded: bool, empty: bool, k: BindingKey)
    ensures Turned(RingFor(v, k), RingFor(Completed(v, p, succeeded, empty), k), Completed(v, p, succeeded, empty).bindings)
  {
    hide Rotated, RingFor, Rotate, Answered;
    AnsweredKeepsRing(v, p, succeeded, k);
    RotatedTurns(Answered(v, p, succeeded), p, k);
  }

  lemma OthersKeepRing(v: View, e: B.Event, k: BindingKey)
    requires ValidView(v) && (e.Release? || e.SessionOpened? || e.SessionClosed? || e.BeginPoll? || e.Lands? || e.Lapses?)
    ensures RingFor(B.Controller(v, e), k) == RingFor(v, k)
  {
    hide ValidView, B.Offer;
  }

  /** Whatever happens, a ring stays as it is or rotates once. */
  lemma EveryEventTurns(v: View, e: B.Event, k: BindingKey)
    requires ValidView(v)
    ensures Turned(RingFor(v, k), RingFor(B.Controller(v, e), k), B.Controller(v, e).bindings)
  {
    hide ValidView, RingFor, Rotate, Demanded, Held, Started, Completed;
    match e
    case Demand(j, d) => DemandedTurns(v, j, d, k);
    case Hold(held) => HeldTurns(v, held, k);
    case Reserve(j) => StartedTurns(v, j, k);
    case Adopt(j) => StartedTurns(v, j, k);
    case CompletePoll(p, succeeded, empty) => CompletedTurns(v, p, succeeded, empty, k);
    case _ => OthersKeepRing(v, e, k);
  }

  /** The generation grows whenever the credit changes hands, and never goes back. */
  ghost predicate Steps(r: Ring, r': Ring) {
    r'.order == r.order && r.generation <= r'.generation && (r'.cursor != r.cursor ==> r.generation < r'.generation)
  }

  lemma EveryEventSteps(v: View, e: B.Event, k: BindingKey)
    requires ValidView(v)
    ensures Steps(RingFor(v, k), RingFor(B.Controller(v, e), k))
  {
    hide ValidView, RingFor, B.Controller, Next;
    EveryEventTurns(v, e, k);
  }

  lemma {:induction false} GenerationsGrow(ws: seq<B.World>, es: seq<B.Event>, i: nat, j: nat, k: BindingKey)
    requires B.Run(ws, es) && i <= j < |ws|
    ensures RingFor(ws[i].view, k).generation <= RingFor(ws[j].view, k).generation
  {
    hide ValidView, Distinct, ToSet;
    if i < j {
      GenerationsGrow(ws, es, i, j - 1, k);
      assert B.Next(ws[j - 1], es[j - 1], ws[j]);
      EveryEventSteps(ws[j - 1].view, es[j - 1], k);
    }
  }

  /** An answer that is superseded, or of another generation than its ring's, moves no credit. */
  lemma StaleAnswerMovesNothing(v: View, p: Poll, succeeded: bool, empty: bool, k: BindingKey)
    requires !Current(v, p) || RingFor(v, p.key).generation != p.discoveryGeneration
    ensures RingFor(Completed(v, p, succeeded, empty), k) == RingFor(v, k)
  {
  }

  /** Once its ring has moved on, a poll's answer moves no credit, however late it comes. */
  lemma LateAnswerMovesNothing(ws: seq<B.World>, es: seq<B.Event>, i: nat, j: nat, p: Poll, succeeded: bool, empty: bool, k: BindingKey)
    requires B.Run(ws, es) && i <= j < |ws| && p.discoveryGeneration < RingFor(ws[i].view, p.key).generation
    ensures RingFor(Completed(ws[j].view, p, succeeded, empty), k) == RingFor(ws[j].view, k)
  {
    GenerationsGrow(ws, es, i, j, p.key);
    StaleAnswerMovesNothing(ws[j].view, p, succeeded, empty, k);
  }

  // ---- what an answer does ----

  /** The two take their turns in one ring. */
  predicate ShareRing(v: View, j: BindingKey, k: BindingKey) {
    v.limit > 0 || (j in v.tierOf && k in v.tierOf && v.tierOf[j] == v.tierOf[k] && v.tierOf[j] in v.rings)
  }

  /** This answer is the holder's own, to its own look at an empty queue, and no rotation came in between. */
  predicate PassesOn(v: View, p: Poll, succeeded: bool, empty: bool) {
    && Current(v, p) && succeeded && empty && p.discovery
    && p.discoveryGeneration == RingFor(v, p.key).generation && HolderOf(RingFor(v, p.key)) == Some(p.key)
  }

  lemma AnsweredKeepsSeats(v: View, p: Poll, succeeded: bool, r: Ring)
    ensures SameSeats(r, v.bindings, Answered(v, p, succeeded).bindings)
  {
  }

  lemma WithRingElsewhere(v: View, j: BindingKey, r: Ring, k: BindingKey)
    requires RingFor(v, j).order != []
    ensures RingFor(WithRing(v, j, r), k) == if ShareRing(v, j, k) then r else RingFor(v, k)
  {
  }

  /**
   The credit passes on exactly when the holder's own look came back empty: one rotation of its
   ring, and no other ring moves. Any other answer moves nothing.
   */
  lemma AnswerRotatesExactly(v: View, p: Poll, succeeded: bool, empty: bool, k: BindingKey)
    ensures RingFor(Completed(v, p, succeeded, empty), k)
            == if PassesOn(v, p, succeeded, empty) && ShareRing(v, p.key, k) then Rotate(RingFor(v, p.key), v.bindings) else RingFor(v, k)
  {
    hide Rotate, Answered, RingFor, WithRing, ShareRing;
    var r := RingFor(v, p.key);
    AnsweredKeepsRing(v, p, succeeded, k);
    AnsweredKeepsRing(v, p, succeeded, p.key);
    if PassesOn(v, p, succeeded, empty) {
      var answered := Answered(v, p, succeeded);
      AnsweredKeepsSeats(v, p, succeeded, r);
      RotateAgrees(r, v.bindings, answered.bindings);
      WithRingElsewhere(answered, p.key, Rotate(r, v.bindings), k);
      assert ShareRing(answered, p.key, k) == ShareRing(v, p.key, k) by { AnsweredKeepsTiers(v, p, succeeded, k); }
    }
  }

  lemma AnsweredKeepsTiers(v: View, p: Poll, succeeded: bool, k: BindingKey)
    ensures ShareRing(Answered(v, p, succeeded), p.key, k) == ShareRing(v, p.key, k)
  {
  }

  /** If somebody else is ahead of the cursor, the search does not come back to it. */
  lemma {:induction false} SearchStopsBy(r: Ring, bs: map<BindingKey, Binding>, i: nat, d: nat)
    requires r.cursor < |r.order| && 1 <= i <= d < |r.order| && Qualifies(bs, r.order[At(r, d)])
    ensures Search(r, bs, i) != r.cursor
    decreases d - i
  {
    Unwrapped(r, i);
    if i < d {
      SearchStopsBy(r, bs, i + 1, d);
    }
  }

  /** A rotation opens a generation, and gives the credit to somebody else if anybody else qualifies. */
  lemma RotationMoves(r: Ring, bs: map<BindingKey, Binding>)
    requires r.cursor < |r.order|
    ensures Rotate(r, bs).order == r.order && Rotate(r, bs).generation == r.generation + 1
    ensures (exists i :: Seat(r, bs, i) && i != r.cursor) ==> Rotate(r, bs).cursor != r.cursor && Seat(r, bs, Rotate(r, bs).cursor)
    ensures !(exists i :: Seat(r, bs, i) && i != r.cursor) ==> Rotate(r, bs).cursor == r.cursor
  {
    if i :| Seat(r, bs, i) && i != r.cursor {
      AheadLands(r, i);
      SearchStopsBy(r, bs, 1, Ahead(r, i));
      NextQualifies(r, bs, i);
    } else {
      SearchFinds(r, bs, 1);
      assert Search(r, bs, 1) == r.cursor || Seat(r, bs, Search(r, bs, 1));
    }
  }

  /** The holder's empty answer: a new generation, and a new holder whenever the ring has somebody else. */
  lemma EmptyAnswerPassesTheCredit(v: View, p: Poll)
    requires PassesOn(v, p, true, true)
    ensures var r, r' := RingFor(v, p.key), RingFor(Completed(v, p, true, true), p.key);
            && r'.order == r.order && r'.generation == r.generation + 1
            && ((exists i :: Seat(r, v.bindings, i) && i != r.cursor) ==> r'.cursor != r.cursor && Seat(r, v.bindings, r'.cursor))
  {
    hide Rotate;
    AnswerRotatesExactly(v, p, true, true, p.key);
    RotationMoves(RingFor(v, p.key), v.bindings);
  }

  /** An answer that failed, found work, or was to no look at the queue leaves every ring as it was. */
  lemma OtherAnswersMoveNothing(v: View, p: Poll, succeeded: bool, empty: bool)
    requires !succeeded || !empty || !p.discovery
    ensures Completed(v, p, succeeded, empty).ring == v.ring && Completed(v, p, succeeded, empty).rings == v.rings
  {
  }

  /**
   A whole look: the holder announces a credit, the answer is empty, and the credit passes on.
   Nothing but the announcement is left behind.
   */
  lemma LookPassesTheCredit(v: View, k: BindingKey, n: nat)
    requires ValidView(v) && MayPoll(v, k) && v.bindings[k].Silent() && HolderOf(RingFor(v, k)) == Some(k) && n > 0
    ensures var w := Completed(Announced(v, k, n), Ticket(v, k, n), true, true);
            var r, r' := RingFor(v, k), RingFor(w, k);
            && w.bindings == v.bindings[k := v.bindings[k].(published := n, pollID := v.bindings[k].pollID + 1)]
            && r'.order == r.order && r'.generation == r.generation + 1
            && ((exists i :: Seat(r, v.bindings, i) && i != r.cursor) ==> r'.cursor != r.cursor && Seat(r, v.bindings, r'.cursor))
  {
    hide ValidView, Rotate, RingFor, WithRing;
    var u, p := Announced(v, k, n), Ticket(v, k, n);
    assert v.bindings[k].pending == None;
    AnnouncedKeepsRing(v, k, n);
    assert PassesOn(u, p, true, true);
    EmptyAnswerPassesTheCredit(u, p);
    RotatedTurns(Answered(u, p, true), p, k);
    forall i ensures Seat(RingFor(v, k), u.bindings, i) <==> Seat(RingFor(v, k), v.bindings, i) {
    }
  }

  /** A poll that is not the silent holder's look passes no credit on, however it is answered. */
  lemma OtherPollsMoveNothing(v: View, k: BindingKey, n: nat, succeeded: bool, empty: bool)
    requires MayPoll(v, k) && (n == 0 || !v.bindings[k].Silent() || HolderOf(RingFor(v, k)) != Some(k))
    ensures var w := Completed(Announced(v, k, n), Ticket(v, k, n), succeeded, empty); w.ring == v.ring && w.rings == v.rings
  {
    OtherAnswersMoveNothing(Announced(v, k, n), Ticket(v, k, n), succeeded, empty);
  }

  lemma AnnouncedKeepsRing(v: View, k: BindingKey, n: nat)
    ensures RingFor(Announced(v, k, n), k) == RingFor(v, k)
  {
  }

  // ---- nobody is skipped, nobody twice ----

  /** Every qualifying place of the ring, in order. */
  ghost predicate Turns(r: Ring, bs: map<BindingKey, Binding>, turns: seq<nat>) {
    && (forall j :: 0 <= j < |turns| ==> Seat(r, bs, turns[j]))
    && (forall i, j :: 0 <= i < j < |turns| ==> turns[i] < turns[j])
    && (forall i :: Seat(r, bs, i) ==> i in turns)
  }

  /** No seat lies strictly between two turns that follow each other. */
  lemma BetweenTurns(r: Ring, bs: map<BindingKey, Binding>, turns: seq<nat>, j: nat, i: nat)
    requires Turns(r, bs, turns) && j < |turns| && Seat(r, bs, i)
    ensures j + 1 < |turns| ==> !(turns[j] < i < turns[j + 1])
    ensures j + 1 == |turns| ==> turns[0] <= i <= turns[j]
  {
    var x :| 0 <= x < |turns| && turns[x] == i;
  }

  function After(turns: seq<nat>, j: nat): nat
    requires j < |turns|
  {
    if j + 1 < |turns| then j + 1 else 0
  }

  lemma NextTurn(r: Ring, bs: map<BindingKey, Binding>, turns: seq<nat>, j: nat)
    requires Turns(r, bs, turns) && j < |turns| && r.cursor == turns[j]
    ensures Next(r, bs) == turns[After(turns, j)]
  {
    var next := turns[After(turns, j)];
    assert Seat(r, bs, turns[j]) && Seat(r, bs, next);
    var d := Ahead(r, next);
    AheadLands(r, next);
    forall x | 1 <= x < d ensures !Qualifies(bs, r.order[At(r, x)]) {
      var i := At(r, x);
      if Seat(r, bs, i) {
        BetweenTurns(r, bs, turns, j, i);
        Unwrapped(r, x);
      }
    }
    SearchSkips(r, bs, 1, d);
  }

  /** The ring after `n` rotations with nothing else happening. */
  function Rotations(r: Ring, bs: map<BindingKey, Binding>, n: nat): Ring {
    if n == 0 then r else Rotate(Rotations(r, bs, n - 1), bs)
  }

  function Wrap(x: nat, n: nat): (y: nat)
    requires x < 2 * n
    ensures y < n
  {
    if x < n then x else x - n
  }

  lemma {:induction false} TurnAfter(r: Ring, bs: map<BindingKey, Binding>, turns: seq<nat>, j: nat, n: nat)
    requires Turns(r, bs, turns) && j < |turns| && r.cursor == turns[j] && n <= |turns|
    ensures Rotations(r, bs, n).order == r.order
    ensures Rotations(r, bs, n).cursor == turns[Wrap(j + n, |turns|)] && Seat(r, bs, Rotations(r, bs, n).cursor)
  {
    if n > 0 {
      TurnAfter(r, bs, turns, j, n - 1);
      var q := Rotations(r, bs, n - 1);
      SameOrderSameTurns(r, q, bs, turns);
      NextTurn(q, bs, turns, Wrap(j + n - 1, |turns|));
    }
    assert Seat(r, bs, turns[Wrap(j + n, |turns|)]);
  }

  lemma TurnsDiffer(r: Ring, bs: map<BindingKey, Binding>, turns: seq<nat>, j: nat, m: nat, n: nat)
    requires Turns(r, bs, turns) && j < |turns| && r.cursor == turns[j] && m < n < |turns|
    ensures Rotations(r, bs, m).cursor != Rotations(r, bs, n).cursor
  {
    TurnAfter(r, bs, turns, j, m);
    TurnAfter(r, bs, turns, j, n);
    var x, y := Wrap(j + m, |turns|), Wrap(j + n, |turns|);
    assert x != y && (x < y || y < x);
  }

  lemma TurnComes(r: Ring, bs: map<BindingKey, Binding>, turns: seq<nat>, j: nat, i: nat) returns (n: nat)
    requires Turns(r, bs, turns) && j < |turns| && r.cursor == turns[j] && Seat(r, bs, i)
    ensures n < |turns| && Rotations(r, bs, n).cursor == i
  {
    var x :| 0 <= x < |turns| && turns[x] == i;
    n := if j <= x then x - j else x - j + |turns|;
    TurnAfter(r, bs, turns, j, n);
  }

  lemma SameOrderSameTurns(r: Ring, q: Ring, bs: map<BindingKey, Binding>, turns: seq<nat>)
    requires q.order == r.order && Turns(r, bs, turns)
    ensures Turns(q, bs, turns)
  {
    forall i | Seat(q, bs, i) ensures i in turns {
      assert Seat(r, bs, i);
    }
    forall j | 0 <= j < |turns| ensures Seat(q, bs, turns[j]) {
      assert Seat(r, bs, turns[j]);
    }
  }

  /** Who holds the credit over `n` rotations. */
  function Holders(r: Ring, bs: map<BindingKey, Binding>, n: nat): (hs: seq<nat>)
    ensures |hs| == n
  {
    seq(n, i requires 0 <= i => Rotations(r, bs, i).cursor)
  }

  /** With the same bindings qualifying throughout, one cycle visits each of them exactly once. */
  lemma CycleOfTurns(r: Ring, bs: map<BindingKey, Binding>, turns: seq<nat>, j: nat)
    requires Turns(r, bs, turns) && j < |turns| && r.cursor == turns[j]
    ensures Rotations(r, bs, |turns|).cursor == r.cursor
    ensures Distinct(Holders(r, bs, |turns|))
    ensures forall i: nat :: i in Holders(r, bs, |turns|) <==> Seat(r, bs, i)
  {
    var holders := Holders(r, bs, |turns|);
    TurnAfter(r, bs, turns, j, |turns|);
    forall m, n | 0 <= m < n < |turns| ensures holders[m] != holders[n] {
      TurnsDiffer(r, bs, turns, j, m, n);
    }
    forall n | 0 <= n < |turns| ensures Seat(r, bs, holders[n]) {
      TurnAfter(r, bs, turns, j, n);
    }
    forall i: nat | Seat(r, bs, i) ensures i in holders {
      var n := TurnComes(r, bs, turns, j, i);
      assert holders[n] == i;
    }
  }

  /** The qualifying places before place `n`. */
  function Seats(r: Ring, bs: map<BindingKey, Binding>, n: nat): seq<nat>
    requires n <= |r.order|
  {
    if n == 0 then [] else Seats(r, bs, n - 1) + if Qualifies(bs, r.order[n - 1]) then [n - 1] else []
  }

  lemma {:induction false} SeatsAreTurns(r: Ring, bs: map<BindingKey, Binding>, n: nat)
    requires n <= |r.order|
    ensures forall j :: 0 <= j < |Seats(r, bs, n)| ==> Seat(r, bs, Seats(r, bs, n)[j]) && Seats(r, bs, n)[j] < n
    ensures forall i, j :: 0 <= i < j < |Seats(r, bs, n)| ==> Seats(r, bs, n)[i] < Seats(r, bs, n)[j]
    ensures forall i :: Seat(r, bs, i) && i < n ==> i in Seats(r, bs, n)
  {
    if n > 0 {
      SeatsAreTurns(r, bs, n - 1);
    }
  }

  /** How many bindings of the ring qualify. */
  function Qualifying(r: Ring, bs: map<BindingKey, Binding>): nat { |Seats(r, bs, |r.order|)| }

  /** From a holder that qualifies, as many rotations as bindings qualify give each of them the credit once. */
  lemma EveryoneInTurn(r: Ring, bs: map<BindingKey, Binding>)
    requires Seat(r, bs, r.cursor)
    ensures Rotations(r, bs, Qualifying(r, bs)).cursor == r.cursor
    ensures Distinct(Holders(r, bs, Qualifying(r, bs)))
    ensures forall i: nat :: i in Holders(r, bs, Qualifying(r, bs)) <==> Seat(r, bs, i)
  {
    var turns := Seats(r, bs, |r.order|);
    SeatsAreTurns(r, bs, |r.order|);
    assert r.cursor in turns;
    var j :| 0 <= j < |turns| && turns[j] == r.cursor;
    CycleOfTurns(r, bs, turns, j);
  }

  // ---- over a run ----

  /** The same bindings of the ring qualify. */
  ghost predicate SameSeats(r: Ring, bs: map<BindingKey, Binding>, bs': map<BindingKey, Binding>) {
    forall k :: k in r.order ==> (Qualifies(bs, k) <==> Qualifies(bs', k))
  }

  lemma {:induction false} SearchAgrees(r: Ring, bs: map<BindingKey, Binding>, bs': map<BindingKey, Binding>, i: nat)
    requires 0 < |r.order| && SameSeats(r, bs, bs')
    ensures Search(r, bs, i) == Search(r, bs', i)
    decreases |r.order| + 1 - i
  {
    if i <= |r.order| {
      assert r.order[(r.cursor + i) % |r.order|] in r.order;
      SearchAgrees(r, bs, bs', i + 1);
    }
  }

  lemma RotateAgrees(r: Ring, bs: map<BindingKey, Binding>, bs': map<BindingKey, Binding>)
    requires SameSeats(r, bs, bs')
    ensures Rotate(r, bs) == Rotate(r, bs')
  {
    if r.order != [] {
      SearchAgrees(r, bs, bs', 1);
    }
  }

  lemma {:induction false} RotationsKeep(r: Ring, bs: map<BindingKey, Binding>, n: nat)
    ensures Rotations(r, bs, n).order == r.order && Rotations(r, bs, n).generation == r.generation + n
  {
    if n > 0 {
      RotationsKeep(r, bs, n - 1);
    }
  }

  /** Between `i` and `j` the bindings of `k`'s ring that qualify are the same. */
  ghost predicate Steady(ws: seq<B.World>, i: nat, j: nat, k: BindingKey)
    requires i <= j < |ws|
  {
    forall n {:trigger ws[n]} :: i <= n <= j ==>
      SameSeats(RingFor(ws[i].view, k), ws[i].view.bindings, ws[n].view.bindings)
  }

  /** While the same bindings qualify, a ring is as many rotations on as its generation is. */
  lemma {:induction false} GenerationsAreRotations(ws: seq<B.World>, es: seq<B.Event>, i: nat, j: nat, k: BindingKey)
    requires B.Run(ws, es) && i <= j < |ws| && Steady(ws, i, j, k)
    ensures var r, r' := RingFor(ws[i].view, k), RingFor(ws[j].view, k);
            r.generation <= r'.generation && r' == Rotations(r, ws[i].view.bindings, r'.generation - r.generation)
  {
    hide RingFor, SameSeats, B.After, ValidView;
    if i < j {
      GenerationsAreRotations(ws, es, i, j - 1, k);
      assert B.Next(ws[j - 1], es[j - 1], ws[j]);
      EventIsTurn(ws, es, j - 1, k);
      var r, q := RingFor(ws[i].view, k), RingFor(ws[j - 1].view, k);
      RotationsKeep(r, ws[i].view.bindings, q.generation - r.generation);
      OneMoreRotation(r, q, RingFor(ws[j].view, k), ws[i].view.bindings, ws[j].view.bindings);
    }
  }

  lemma EventIsTurn(ws: seq<B.World>, es: seq<B.Event>, n: nat, k: BindingKey)
    requires B.Run(ws, es) && n < |es|
    ensures Turned(RingFor(ws[n].view, k), RingFor(ws[n + 1].view, k), ws[n + 1].view.bindings)
  {
    hide RingFor, Turned, ValidView, B.Controller;
    assert B.Next(ws[n], es[n], ws[n + 1]);
    EveryEventTurns(ws[n].view, es[n], k);
  }

  lemma OneMoreRotation(r: Ring, q: Ring, q': Ring, bs: map<BindingKey, Binding>, bs': map<BindingKey, Binding>)
    requires r.generation <= q.generation && q == Rotations(r, bs, q.generation - r.generation) && q.order == r.order
    requires Turned(q, q', bs') && SameSeats(r, bs, bs')
    ensures r.generation <= q'.generation && q' == Rotations(r, bs, q'.generation - r.generation)
  {
    hide Next;
    RotateAgrees(q, bs, bs');
    if q' != q {
      assert q' == Rotate(q, bs);
    }
  }

  /** Generations are not skipped. */
  lemma {:induction false} EveryGenerationOccurs(ws: seq<B.World>, es: seq<B.Event>, i: nat, j: nat, k: BindingKey, g: nat)
    returns (n: nat)
    requires B.Run(ws, es) && i <= j < |ws|
    requires RingFor(ws[i].view, k).generation <= g < RingFor(ws[j].view, k).generation
    ensures i <= n < j && RingFor(ws[n].view, k).generation == g
  {
    hide RingFor, Next;
    EventIsTurn(ws, es, j - 1, k);
    if RingFor(ws[j - 1].view, k).generation == g {
      n := j - 1;
    } else {
      n := EveryGenerationOccurs(ws, es, i, j - 1, k, g);
    }
  }

  /**
   Over any stretch of any run in which the same bindings of a ring qualify, and which is one
   cycle long, the credit comes back to where it was; on the way everybody who qualifies holds
   it, nobody else does, and nobody holds it in two generations.
   */
  lemma CycleServesEveryone(ws: seq<B.World>, es: seq<B.Event>, i: nat, j: nat, k: BindingKey)
    requires B.Run(ws, es) && i <= j < |ws| && Steady(ws, i, j, k)
    requires Seat(RingFor(ws[i].view, k), ws[i].view.bindings, RingFor(ws[i].view, k).cursor)
    requires RingFor(ws[j].view, k).generation
             == RingFor(ws[i].view, k).generation + Qualifying(RingFor(ws[i].view, k), ws[i].view.bindings)
    ensures RingFor(ws[j].view, k).cursor == RingFor(ws[i].view, k).cursor
    ensures forall x: nat :: Seat(RingFor(ws[i].view, k), ws[i].view.bindings, x) ==>
              exists n :: i <= n < j && RingFor(ws[n].view, k).cursor == x
    ensures forall n :: i <= n <= j ==> Seat(RingFor(ws[i].view, k), ws[i].view.bindings, RingFor(ws[n].view, k).cursor)
    ensures forall n, n' | i <= n < n' < j && RingFor(ws[n'].view, k).generation < RingFor(ws[j].view, k).generation ::
              RingFor(ws[n].view, k).cursor == RingFor(ws[n'].view, k).cursor ==>
                RingFor(ws[n].view, k).generation == RingFor(ws[n'].view, k).generation
  {
    hide RingFor, Rotations, Seats, Next;
    var r, bs := RingFor(ws[i].view, k), ws[i].view.bindings;
    EveryoneInTurn(r, bs);
    GenerationsAreRotations(ws, es, i, j, k);
    forall x: nat | Seat(r, bs, x) ensures exists n :: i <= n < j && RingFor(ws[n].view, k).cursor == x {
      var n := SeatIsHeld(ws, es, i, j, k, x);
    }
    forall n | i <= n <= j ensures Seat(r, bs, RingFor(ws[n].view, k).cursor) {
      HolderSits(ws, es, i, j, n, k);
    }
    forall n, n' | i <= n < n' < j && RingFor(ws[n].view, k).cursor == RingFor(ws[n'].view, k).cursor
      && RingFor(ws[n'].view, k).generation < RingFor(ws[j].view, k).generation
      ensures RingFor(ws[n].view, k).generation == RingFor(ws[n'].view, k).generation
    {
      HeldOnce(ws, es, i, j, n, n', k);
    }
  }

  // ---- what makes a cycle ----

  /** The event is an answer that passes on the credit of `k`'s ring. */
  predicate Passes(v: View, e: B.Event, k: BindingKey) {
    e.CompletePoll? && PassesOn(v, e.poll, e.succeeded, e.empty) && ShareRing(v, e.poll.key, k)
  }

  /** The holder of the ring still qualifies afterwards. */
  predicate HolderStays(v: View, w: View, k: BindingKey) {
    var r := RingFor(v, k);
    r.cursor < |r.order| && Qualifies(v.bindings, r.order[r.cursor]) && Qualifies(w.bindings, r.order[r.cursor])
  }

  lemma AdvanceStays(v: View, j: BindingKey, k: BindingKey)
    requires HolderStays(v, v, k)
    ensures RingFor(AdvanceFrom(v, j), k) == RingFor(v, k)
  {
  }

  lemma DemandedStays(v: View, j: BindingKey, d: int, k: BindingKey)
    requires HolderStays(v, Demanded(v, j, d), k)
    ensures RingFor(Demanded(v, j, d), k) == RingFor(v, k)
  {
    hide RingFor;
    if j in v.bindings {
      var b := v.bindings[j].(assignedDemand := Max(d, 0));
      RebindKeepsRing(v, j, b, k);
      AdvanceTurns(Rebind(v, j, b), j, k);
      if v.bindings[j].assignedDemand != Max(d, 0) {
        AdvanceStays(Rebind(v, j, b), j, k);
      }
    }
  }

  lemma StartedStays(v: View, j: BindingKey, k: BindingKey)
    requires HolderStays(v, Started(v, j), k)
    ensures RingFor(Started(v, j), k) == RingFor(v, k)
  {
    hide RingFor;
    if j in v.bindings {
      var b := v.bindings[j].(active := v.bindings[j].active + 1);
      RebindKeepsRing(v, j, b, k);
      AdvanceTurns(Rebind(v, j, b), j, k);
      AdvanceStays(Rebind(v, j, b), j, k);
    }
  }

  lemma HeldStays(v: View, held: bool, k: BindingKey)
    requires ValidView(v) && HolderStays(v, Held(v, held), k)
    ensures RingFor(Held(v, held), k) == RingFor(v, k)
  {
    var r := RingFor(v, k);
    assert v.bindings[r.order[r.cursor]].held == v.held;
  }

  /** While its holder goes on qualifying, a ring moves on such answers and on nothing else. */
  lemma OnlyAnswersPass(v: View, e: B.Event, k: BindingKey)
    requires ValidView(v) && HolderStays(v, B.Controller(v, e), k)
    ensures RingFor(B.Controller(v, e), k) == if Passes(v, e, k) then Rotate(RingFor(v, e.poll.key), v.bindings) else RingFor(v, k)
  {
    hide ValidView, RingFor, Rotate, Demanded, Held, Started, Completed, PassesOn, ShareRing, HolderStays;
    match e
    case Demand(j, d) => DemandedStays(v, j, d, k);
    case Hold(held) => HeldStays(v, held, k);
    case Reserve(j) =>
      if Reservable(v, j) {
        StartedStays(v, j, k);
      }
    case Adopt(j) => StartedStays(v, j, k);
    case CompletePoll(p, succeeded, empty) => AnswerRotatesExactly(v, p, succeeded, empty, k);
    case _ => OthersKeepRing(v, e, k);
  }

  /** How many answers passed the credit of `k`'s ring on. */
  ghost function Passed(ws: seq<B.World>, es: seq<B.Event>, i: nat, j: nat, k: BindingKey): nat
    requires i <= j <= |es| <= |ws|
  {
    if i == j then 0 else Passed(ws, es, i, j - 1, k) + if Passes(ws[j - 1].view, es[j - 1], k) then 1 else 0
  }

  lemma SharedRing(v: View, j: BindingKey, k: BindingKey)
    requires ShareRing(v, j, k)
    ensures RingFor(v, j) == RingFor(v, k)
  {
  }

  /** While the same bindings qualify, a ring's generation counts exactly the answers that passed its credit on. */
  lemma {:induction false} GenerationsCountAnswers(ws: seq<B.World>, es: seq<B.Event>, i: nat, j: nat, k: BindingKey)
    requires B.Run(ws, es) && i <= j < |ws| && Steady(ws, i, j, k)
    requires Seat(RingFor(ws[i].view, k), ws[i].view.bindings, RingFor(ws[i].view, k).cursor)
    ensures var r, q := RingFor(ws[i].view, k), RingFor(ws[j].view, k);
            q.order == r.order && q.generation == r.generation + Passed(ws, es, i, j, k)
    ensures Seat(RingFor(ws[i].view, k), ws[i].view.bindings, RingFor(ws[j].view, k).cursor)
  {
    hide RingFor, Rotate, B.After, ValidView, Passes, B.Controller;
    if i < j {
      SteadySooner(ws, i, j - 1, j, k);
      GenerationsCountAnswers(ws, es, i, j - 1, k);
      StillSeated(ws, es, i, j, k);
      RingMoves(ws, es, j - 1, k);
    }
  }

  lemma RingMoves(ws: seq<B.World>, es: seq<B.Event>, n: nat, k: BindingKey)
    requires B.Run(ws, es) && n < |es| && HolderStays(ws[n].view, ws[n + 1].view, k)
    ensures var r, q := RingFor(ws[n].view, k), RingFor(ws[n + 1].view, k);
            && q.order == r.order
            && q.generation == r.generation + (if Passes(ws[n].view, es[n], k) then 1 else 0)
            && Seat(r, ws[n].view.bindings, q.cursor)
  {
    hide RingFor, Rotate, ValidView, B.Controller, PassesOn, ShareRing;
    assert B.Next(ws[n], es[n], ws[n + 1]);
    var v, e := ws[n].view, es[n];
    OnlyAnswersPass(v, e, k);
    var r := RingFor(v, k);
    assert Seat(r, v.bindings, r.cursor);
    if Passes(v, e, k) {
      SharedRing(v, e.poll.key, k);
      RotationMoves(r, v.bindings);
    }
  }

  lemma StillSeated(ws: seq<B.World>, es: seq<B.Event>, i: nat, j: nat, k: BindingKey)
    requires i < j < |ws| && Steady(ws, i, j, k) && RingFor(ws[j - 1].view, k).order == RingFor(ws[i].view, k).order
    requires Seat(RingFor(ws[i].view, k), ws[i].view.bindings, RingFor(ws[j - 1].view, k).cursor)
    ensures HolderStays(ws[j - 1].view, ws[j].view, k)
    ensures forall c :: Seat(RingFor(ws[j - 1].view, k), ws[j - 1].view.bindings, c) ==> Seat(RingFor(ws[i].view, k), ws[i].view.bindings, c)
  {
    hide RingFor;
    var r := RingFor(ws[i].view, k);
    assert SameSeats(r, ws[i].view.bindings, ws[j - 1].view.bindings) && SameSeats(r, ws[i].view.bindings, ws[j].view.bindings);
    var holder := r.order[RingFor(ws[j - 1].view, k).cursor];
    assert holder in r.order;
    forall c | Seat(RingFor(ws[j - 1].view, k), ws[j - 1].view.bindings, c) ensures Seat(r, ws[i].view.bindings, c) {
      assert r.order[c] in r.order;
    }
  }

  /** As many such answers as bindings qualify make a cycle: each of them held the credit on the way. */
  lemma EmptyAnswersServeEveryone(ws: seq<B.World>, es: seq<B.Event>, i: nat, j: nat, k: BindingKey)
    requires B.Run(ws, es) && i <= j < |ws| && Steady(ws, i, j, k)
    requires Seat(RingFor(ws[i].view, k), ws[i].view.bindings, RingFor(ws[i].view, k).cursor)
    requires Passed(ws, es, i, j, k) == Qualifying(RingFor(ws[i].view, k), ws[i].view.bindings)
    ensures RingFor(ws[j].view, k).cursor == RingFor(ws[i].view, k).cursor
    ensures forall x: nat :: Seat(RingFor(ws[i].view, k), ws[i].view.bindings, x) ==>
              exists n :: i <= n < j && RingFor(ws[n].view, k).cursor == x
  {
    hide RingFor, Passed, Seats, Steady, Seat;
    GenerationsCountAnswers(ws, es, i, j, k);
    CycleServesEveryone(ws, es, i, j, k);
  }

  lemma SteadySooner(ws: seq<B.World>, i: nat, n: nat, j: nat, k: BindingKey)
    requires i <= n <= j < |ws| && Steady(ws, i, j, k)
    ensures Steady(ws, i, n, k)
  {
    hide SameSeats, RingFor;
  }

  /** Where the ring stands at a moment of the cycle. */
  lemma HolderAt(ws: seq<B.World>, es: seq<B.Event>, i: nat, n: nat, j: nat, k: BindingKey)
    requires B.Run(ws, es) && i <= n <= j < |ws| && Steady(ws, i, j, k)
    ensures var r, q := RingFor(ws[i].view, k), RingFor(ws[n].view, k);
            r.generation <= q.generation <= RingFor(ws[j].view, k).generation
            && q.cursor == Rotations(r, ws[i].view.bindings, q.generation - r.generation).cursor
  {
    hide RingFor, Rotations, SameSeats;
    SteadySooner(ws, i, n, j, k);
    GenerationsAreRotations(ws, es, i, n, k);
    GenerationsGrow(ws, es, n, j, k);
  }

  lemma SeatIsHeld(ws: seq<B.World>, es: seq<B.Event>, i: nat, j: nat, k: BindingKey, x: nat) returns (n: nat)
    requires B.Run(ws, es) && i <= j < |ws| && Steady(ws, i, j, k)
    requires Seat(RingFor(ws[i].view, k), ws[i].view.bindings, RingFor(ws[i].view, k).cursor)
    requires RingFor(ws[j].view, k).generation
             == RingFor(ws[i].view, k).generation + Qualifying(RingFor(ws[i].view, k), ws[i].view.bindings)
    requires Seat(RingFor(ws[i].view, k), ws[i].view.bindings, x)
    ensures i <= n < j && RingFor(ws[n].view, k).cursor == x
  {
    hide RingFor, Rotations, Seats, Steady, Seat;
    var r, bs := RingFor(ws[i].view, k), ws[i].view.bindings;
    EveryoneInTurn(r, bs);
    var holders := Holders(r, bs, Qualifying(r, bs));
    assert x in holders;
    var m :| 0 <= m < |holders| && holders[m] == x;
    n := EveryGenerationOccurs(ws, es, i, j, k, r.generation + m);
    HolderAt(ws, es, i, n, j, k);
  }

  lemma HolderSits(ws: seq<B.World>, es: seq<B.Event>, i: nat, j: nat, n: nat, k: BindingKey)
    requires B.Run(ws, es) && i <= n <= j < |ws| && Steady(ws, i, j, k)
    requires Seat(RingFor(ws[i].view, k), ws[i].view.bindings, RingFor(ws[i].view, k).cursor)
    requires RingFor(ws[j].view, k).generation
             == RingFor(ws[i].view, k).generation + Qualifying(RingFor(ws[i].view, k), ws[i].view.bindings)
    ensures Seat(RingFor(ws[i].view, k), ws[i].view.bindings, RingFor(ws[n].view, k).cursor)
  {
    hide RingFor, Rotations, Seats, Steady, Seat;
    var r, bs := RingFor(ws[i].view, k), ws[i].view.bindings;
    EveryoneInTurn(r, bs);
    HolderAt(ws, es, i, n, j, k);
    var m, holders := RingFor(ws[n].view, k).generation - r.generation, Holders(r, bs, Qualifying(r, bs));
    if m < |holders| {
      assert holders[m] in holders;
    }
  }

  lemma HeldOnce(ws: seq<B.World>, es: seq<B.Event>, i: nat, j: nat, n: nat, n': nat, k: BindingKey)
    requires B.Run(ws, es) && i <= n < n' < j < |ws| && Steady(ws, i, j, k)
    requires Seat(RingFor(ws[i].view, k), ws[i].view.bindings, RingFor(ws[i].view, k).cursor)
    requires RingFor(ws[j].view, k).generation
             == RingFor(ws[i].view, k).generation + Qualifying(RingFor(ws[i].view, k), ws[i].view.bindings)
    requires RingFor(ws[n].view, k).cursor == RingFor(ws[n'].view, k).cursor
    requires RingFor(ws[n'].view, k).generation < RingFor(ws[j].view, k).generation
    ensures RingFor(ws[n].view, k).generation == RingFor(ws[n'].view, k).generation
  {
    hide RingFor, Rotations, Seats, Steady, Seat;
    var r, bs := RingFor(ws[i].view, k), ws[i].view.bindings;
    EveryoneInTurn(r, bs);
    HolderAt(ws, es, i, n, j, k);
    HolderAt(ws, es, i, n', j, k);
    GenerationsGrow(ws, es, n, n', k);
    var holders := Holders(r, bs, Qualifying(r, bs));
    assert holders[RingFor(ws[n].view, k).generation - r.generation] == RingFor(ws[n].view, k).cursor;
    assert holders[RingFor(ws[n'].view, k).generation - r.generation] == RingFor(ws[n'].view, k).cursor;
  }
}
