/**
 The provider's side. Each binding has a capacity really in force at the broker, and a set of
 announcements that may still land: sent, and not yet settled by a successful answer or by a
 session known to be gone. The controller sees neither.

 `BrokerWithinBudgets` says that over every run that registers first, and starts with
 inherited capacity within the budgets, what is really in force never exceeds a tier's
 parallelism or the instance's limit: through failed polls, late landings, uncertain closes
 and reopened sessions.
 */
module Broker {
  import opened Base
  import opened Sums
  import opened Ledger
  import opened Planning
  import opened Operations
  import opened Bookkeeping
  import opened Holding
  import E = Enrolment

  datatype World = World(
    view: View,
    issued: set<Poll>,
    inForce: map<BindingKey, int>,
    flying: map<BindingKey, set<nat>>)

  datatype Event =
    | Demand(key: BindingKey, demand: int)
    | Hold(held: bool)
    | Reserve(key: BindingKey)
    | Adopt(key: BindingKey)
    | Release(key: BindingKey)
    | SessionOpened(key: BindingKey)
    | SessionClosed(key: BindingKey, confirmed: bool)
    | BeginPoll(key: BindingKey)
    | CompletePoll(poll: Poll, succeeded: bool, empty: bool)
    | Lands(key: BindingKey, capacity: nat)
    | Lapses(key: BindingKey)

  /** What the allocator does; the broker's own events leave it alone. */
  ghost function Controller(v: View, e: Event): View
    requires ValidView(v)
  {
    match e
    case Demand(k, d) => Demanded(v, k, d)
    case Hold(held) => Held(v, held)
    case Reserve(k) => if Reservable(v, k) then Started(v, k) else v
    case Adopt(k) => Started(v, k)
    case Release(k) => Released(v, k)
    case SessionOpened(k) => Opened(v, k)
    case SessionClosed(k, confirmed) => Closed(v, k, confirmed)
    case BeginPoll(k) => Announced(v, k, Offer(v, k))
    case CompletePoll(p, succeeded, empty) => Completed(v, p, succeeded, empty)
    case Lands(_, _) => v
    case Lapses(_) => v
  }

  ghost function Offer(v: View, k: BindingKey): nat
    requires ValidView(v)
  {
    if MayPoll(v, k) then Max(0, Announcement(v, k)) else 0
  }

  /** The broker forgets what it held for `k` and whatever was still on its way. */
  function Gone(w: World, k: BindingKey): World {
    w.(inForce := w.inForce[k := 0], flying := w.flying[k := {}])
  }

  /** Whether the event can happen: only issued polls complete, only sent announcements land. */
  ghost predicate Possible(w: World, e: Event) {
    match e
    case CompletePoll(p, _, _) => p in w.issued
    case Lands(k, capacity) => k in w.flying && capacity in w.flying[k]
    case _ => true
  }

  ghost function After(w: World, e: Event): World
    requires ValidView(w.view)
  {
    var w' := w.(view := Controller(w.view, e));
    match e
    case SessionOpened(k) => if k in w.view.bindings then Gone(w', k) else w'
    case SessionClosed(k, confirmed) => if k in w.view.bindings && confirmed then Gone(w', k) else w'
    case BeginPoll(k) =>
      var sent := w'.(issued := w.issued + {Ticket(w.view, k, Offer(w.view, k))});
      if MayPoll(w.view, k) && k in w.flying then sent.(flying := w.flying[k := w.flying[k] + {Offer(w.view, k)}])
      else sent
    case CompletePoll(p, succeeded, _) =>
      if Current(w.view, p) && succeeded
      then w'.(inForce := w.inForce[p.key := p.capacity], flying := w.flying[p.key := {}]) else w'
    case Lands(k, capacity) => w'.(inForce := w.inForce[k := capacity])
    case Lapses(k) => if k in w.inForce then w'.(inForce := w.inForce[k := 0]) else w'
    case _ => w'
  }

  // ---- the invariant ----

  ghost predicate Kept(v: View, issued: set<Poll>) {
    ValidView(v) && RemoteWithinBudgets(v) && Genuine(v, issued)
  }

  /** `most` bounds what is in force and what may land; a known session's bound is reserved for. */
  ghost predicate Covers(b: Binding, inForce: int, flying: set<nat>, most: int) {
    && 0 <= inForce <= most
    && (forall n :: n in flying ==> n <= most)
    && (b.remoteKnown ==> most <= b.Effective())
    && (b.pending.Some? ==> b.pending.value.capacity in flying)
  }

  ghost predicate Bounded(w: World, most: map<BindingKey, int>, k: BindingKey)
    requires k in w.view.bindings && k in w.inForce && k in w.flying && k in most
  {
    Covers(w.view.bindings[k], w.inForce[k], w.flying[k], most[k])
  }

  ghost predicate MostFits(v: View, most: map<BindingKey, int>)
    requires ValidView(v) && most.Keys == v.bindings.Keys
  {
    && (forall t {:trigger Members(v, t)} :: t in v.parallelism ==> Sum(Members(v, t), most) <= v.parallelism[t])
    && (v.limit > 0 ==> Sum(v.bindings.Keys, most) <= v.limit)
  }

  ghost predicate Inv(w: World, most: map<BindingKey, int>) {
    && Kept(w.view, w.issued)
    && w.inForce.Keys == w.flying.Keys == most.Keys == w.view.bindings.Keys
    && (forall k {:trigger Bounded(w, most, k)} :: k in most ==> Bounded(w, most, k))
    && MostFits(w.view, most)
  }

  /** What is really in force fits every budget. */
  ghost predicate InForceFits(w: World)
    requires ValidView(w.view) && w.inForce.Keys == w.view.bindings.Keys
  {
    && (forall t :: t in w.view.parallelism ==> Sum(Members(w.view, t), w.inForce) <= w.view.parallelism[t])
    && (w.view.limit > 0 ==> Sum(w.view.bindings.Keys, w.inForce) <= w.view.limit)
  }

  lemma InvFits(w: World, most: map<BindingKey, int>)
    requires Inv(w, most)
    ensures InForceFits(w)
  {
    hide Genuine;
    assert forall k :: k in most ==> Bounded(w, most, k);
    forall t | t in w.view.parallelism ensures Sum(Members(w.view, t), w.inForce) <= w.view.parallelism[t] {
      SumLe(Members(w.view, t), w.inForce, most);
    }
    SumLe(w.view.bindings.Keys, w.inForce, most);
  }

  // ---- admission leaves the remote side alone ----

  ghost predicate RemoteAlike(b: Binding, c: Binding) {
    c.published == b.published && c.pending == b.pending && c.pollID == b.pollID && c.remoteKnown == b.remoteKnown
  }

  ghost predicate SameRemote(v: View, w: View) {
    && w.limit == v.limit && w.parallelism == v.parallelism && w.tierOf == v.tierOf
    && w.bindings.Keys == v.bindings.Keys
    && (forall k {:trigger w.bindings[k]} :: k in v.bindings ==> RemoteAlike(v.bindings[k], w.bindings[k]))
  }

  lemma SameRemoteKept(v: View, w: View, issued: set<Poll>)
    requires Kept(v, issued) && ValidView(w) && SameRemote(v, w)
    ensures Kept(w, issued)
  {
    hide Genuine;
    assert Effectives(w.bindings) == Effectives(v.bindings);
    forall t | t in v.parallelism ensures RemoteWithinTier(w, t) {
      assert Members(w, t) == Members(v, t) && RemoteWithinTier(v, t);
    }
    SameRemoteGenuine(v, w, issued);
  }

  lemma SameRemoteGenuine(v: View, w: View, issued: set<Poll>)
    requires Genuine(v, issued) && SameRemote(v, w)
    ensures Genuine(w, issued)
  {
    forall p | p in issued ensures Honest(w, p) {
      assert Honest(v, p);
    }
  }

  lemma SameTiersFit(v: View, w: View, most: map<BindingKey, int>)
    requires ValidView(v) && ValidView(w) && most.Keys == v.bindings.Keys == w.bindings.Keys
    requires w.limit == v.limit && w.parallelism == v.parallelism && w.tierOf == v.tierOf && MostFits(v, most)
    ensures MostFits(w, most)
  {
    forall t | t in v.parallelism ensures Sum(Members(w, t), most) <= w.parallelism[t] {
      assert Members(w, t) == Members(v, t);
    }
  }

  lemma SameRemoteInv(w: World, v: View, most: map<BindingKey, int>)
    requires Inv(w, most) && ValidView(v) && SameRemote(w.view, v)
    ensures Inv(w.(view := v), most)
  {
    hide Genuine;
    SameRemoteKept(w.view, v, w.issued);
    SameTiersFit(w.view, v, most);
    forall k | k in most ensures Bounded(w.(view := v), most, k) {
      assert Bounded(w, most, k) && RemoteAlike(w.view.bindings[k], v.bindings[k]);
    }
  }

  lemma TurnKeepsRemote(v: View, k: BindingKey, r: Ring)
    requires ValidView(v) && SameRing(RingFor(v, k), r)
    ensures ValidView(WithRing(v, k, r)) && SameRemote(v, WithRing(v, k, r))
  {
    TurnIsValid(v, k, r);
  }

  lemma AdvanceIsValid(v: View, k: BindingKey)
    requires ValidView(v)
    ensures ValidView(AdvanceFrom(v, k)) && SameRemote(v, AdvanceFrom(v, k))
  {
    var r := RingFor(v, k);
    if HolderOf(r) == Some(k) {
      RotateStays(r, v.bindings);
      TurnKeepsRemote(v, k, Settle(r, v.bindings));
    }
  }

  /** Changing what a binding runs or wants, and perhaps passing the credit on. */
  lemma LocalChange(v: View, k: BindingKey, b: Binding)
    requires ValidView(v) && k in v.bindings && RemoteAlike(v.bindings[k], b) && b.held == v.held
    ensures ValidView(Rebind(v, k, b)) && SameRemote(v, Rebind(v, k, b))
    ensures ValidView(AdvanceFrom(Rebind(v, k, b), k)) && SameRemote(v, AdvanceFrom(Rebind(v, k, b), k))
  {
    hide Distinct, ToSet, Sum;
    assert ValidBinding(v.bindings[k]);
    RebindIsValid(v, k, b);
    AdvanceIsValid(Rebind(v, k, b), k);
  }

  lemma HeldIsValid(v: View, held: bool)
    requires ValidView(v)
    ensures ValidView(Held(v, held)) && SameRemote(v, Held(v, held))
  {
    if v.held != held {
      var u := Stamped(v, held);
      StampIsValid(v, held);
      if !held {
        ThawIsValid(u);
        assert Held(v, held) == Settled(u);
      } else {
        assert Held(v, held) == u;
      }
    }
  }

  function Settled(u: View): View {
    if u.limit > 0 then u.(ring := Settle(u.ring, u.bindings))
    else u.(rings := map t | t in u.rings :: Settle(u.rings[t], u.bindings))
  }

  lemma ThawIsValid(u: View)
    requires ValidView(u)
    ensures ValidView(Settled(u))
  {
    hide Settle, RingOf, Sum;
    var w := Settled(u);
    SettleIsRing(u.ring, u.bindings.Keys, u.bindings);
    forall t | t in u.rings ensures TierRing(w, t) {
      assert TierRing(u, t) && Members(w, t) == Members(u, t);
      SettleIsRing(u.rings[t], Members(u, t), u.bindings);
    }
  }

  lemma SettleIsRing(r: Ring, members: set<BindingKey>, bs: map<BindingKey, Binding>)
    requires RingOf(r, members)
    ensures RingOf(Settle(r, bs), members) && Settle(r, bs).order == r.order
  {
    if r.order != [] {
      RotateStays(r, bs);
    }
  }

  predicate Local(e: Event) { e.Demand? || e.Hold? || e.Reserve? || e.Adopt? || e.Release? }

  lemma DemandedKeeps(v: View, k: BindingKey, demand: int)
    requires ValidView(v)
    ensures ValidView(Demanded(v, k, demand)) && SameRemote(v, Demanded(v, k, demand))
  {
    if k in v.bindings {
      LocalChange(v, k, v.bindings[k].(assignedDemand := Max(demand, 0)));
    }
  }

  lemma StartedKeeps(v: View, k: BindingKey)
    requires ValidView(v)
    ensures ValidView(Started(v, k)) && SameRemote(v, Started(v, k))
  {
    hide TierRing, RingOf;
    if k in v.bindings {
      var b := v.bindings[k].(active := v.bindings[k].active + 1);
      LocalChange(v, k, b);
      assert Started(v, k) == AdvanceFrom(Rebind(v, k, b), k);
    }
  }

  lemma ReleasedKeeps(v: View, k: BindingKey)
    requires ValidView(v)
    ensures ValidView(Released(v, k)) && SameRemote(v, Released(v, k))
  {
    if k in v.bindings && v.bindings[k].active > 0 {
      LocalChange(v, k, v.bindings[k].(active := v.bindings[k].active - 1));
    }
  }

  lemma LocalKeepsRemote(v: View, e: Event)
    requires ValidView(v) && Local(e)
    ensures ValidView(Controller(v, e)) && SameRemote(v, Controller(v, e))
  {
    match e
    case Demand(k, d) => DemandedKeeps(v, k, d);
    case Hold(held) => HeldIsValid(v, held);
    case Reserve(k) => StartedKeeps(v, k);
    case Adopt(k) => StartedKeeps(v, k);
    case Release(k) => ReleasedKeeps(v, k);
    case _ =>
  }

  // ---- sessions, polls and the broker's own events ----

  function Moved(w: World, k: BindingKey, b: Binding, issued: set<Poll>, inForce: int, flying: set<nat>): World {
    World(Rebind(w.view, k, b), issued, w.inForce[k := inForce], w.flying[k := flying])
  }

  /** One binding's remote side moved: its new bound must cover what may be in force, and fit. */
  lemma RemoteChange(w: World, most: map<BindingKey, int>, k: BindingKey, b: Binding, issued: set<Poll>,
                     inForce: int, flying: set<nat>, bound: int)
    requires Inv(w, most) && k in most && Kept(Rebind(w.view, k, b), issued)
    requires Covers(b, inForce, flying, bound) && MostFits(w.view, most[k := bound])
    ensures Inv(Moved(w, k, b, issued, inForce, flying), most[k := bound])
  {
    hide Genuine, ValidView;
    var w', most' := Moved(w, k, b, issued, inForce, flying), most[k := bound];
    SameTiersFit(w.view, w'.view, most');
    forall j | j in most' ensures Bounded(w', most', j) {
      if j != k {
        assert Bounded(w, most, j);
      }
    }
  }

  /** Lowering a bound keeps the budgets. */
  lemma LowerFits(v: View, most: map<BindingKey, int>, k: BindingKey, bound: int)
    requires ValidView(v) && most.Keys == v.bindings.Keys && MostFits(v, most) && k in most && bound <= most[k]
    ensures MostFits(v, most[k := bound])
  {
    forall t | t in v.parallelism ensures Sum(Members(v, t), most[k := bound]) <= v.parallelism[t] {
      SumUpdate(Members(v, t), most, k, bound);
    }
    SumUpdate(v.bindings.Keys, most, k, bound);
  }

  lemma RebindKept(v: View, k: BindingKey, b: Binding, issued: set<Poll>)
    requires Kept(v, issued) && k in v.bindings && b.held == v.held && b.pollID == v.bindings[k].pollID
    requires b.pending.None? && b.Effective() <= v.bindings[k].Effective()
    ensures Kept(Rebind(v, k, b), issued)
  {
    hide Genuine;
    RebindKeepsBudgets(v, k, b);
    RebindStaysGenuine(v, k, b, issued);
  }

  /** The session is known to be gone: nothing of it is in force and nothing can land. */
  lemma SessionGone(w: World, most: map<BindingKey, int>, k: BindingKey)
    requires Inv(w, most) && k in most
    ensures var b := w.view.bindings[k].(published := 0, pending := None, remoteKnown := true);
            Inv(Moved(w, k, b, w.issued, 0, {}), most[k := 0])
  {
    hide Genuine;
    var b := w.view.bindings[k].(published := 0, pending := None, remoteKnown := true);
    assert Bounded(w, most, k);
    assert ValidBinding(w.view.bindings[k]) && w.view.bindings[k].held == w.view.held;
    RebindKept(w.view, k, b, w.issued);
    LowerFits(w.view, most, k, 0);
    RemoteChange(w, most, k, b, w.issued, 0, {}, 0);
  }

  /** The controller records the most it may have in force; the broker keeps what it has. */
  lemma KeepsMost(w: World, most: map<BindingKey, int>, k: BindingKey, known: bool)
    requires Inv(w, most) && k in most && (known ==> w.view.bindings[k].remoteKnown)
    ensures var b := w.view.bindings[k];
            Inv(w.(view := Rebind(w.view, k, b.(published := b.Effective(), pending := None, remoteKnown := known))), most)
  {
    hide Genuine;
    var b := w.view.bindings[k];
    var b' := b.(published := b.Effective(), pending := None, remoteKnown := known);
    assert Bounded(w, most, k);
    assert b.held == w.view.held;
    RebindKept(w.view, k, b', w.issued);
    assert most[k := most[k]] == most && w.inForce[k := w.inForce[k]] == w.inForce && w.flying[k := w.flying[k]] == w.flying;
    RemoteChange(w, most, k, b', w.issued, w.inForce[k], w.flying[k], most[k]);
  }

  lemma ClosedInv(w: World, most: map<BindingKey, int>, k: BindingKey, confirmed: bool)
    requires Inv(w, most)
    ensures exists most' :: Inv(After(w, SessionClosed(k, confirmed)), most')
  {
    hide Genuine, ValidView;
    if k in most {
      if confirmed {
        SessionGone(w, most, k);
        assert Inv(After(w, SessionClosed(k, confirmed)), most[k := 0]);
      } else {
        KeepsMost(w, most, k, false);
        assert Inv(After(w, SessionClosed(k, confirmed)), most);
      }
    } else {
      assert Inv(After(w, SessionClosed(k, confirmed)), most);
    }
  }

  lemma OpenedInv(w: World, most: map<BindingKey, int>, k: BindingKey)
    requires Inv(w, most)
    ensures exists most' :: Inv(After(w, SessionOpened(k)), most')
  {
    hide Genuine, ValidView;
    if k in most {
      SessionGone(w, most, k);
      assert Inv(After(w, SessionOpened(k)), most[k := 0]);
    } else {
      assert Inv(After(w, SessionOpened(k)), most);
    }
  }

  // ---- an announcement ----

  /** An announcement reserved for in a budget whose sessions are all known leaves room for itself. */
  lemma AnnouncedFits(w: World, most: map<BindingKey, int>, k: BindingKey, b: Binding, bound: int, s: set<BindingKey>, budget: int)
    requires Inv(w, most) && k in most && s <= most.Keys
    requires forall j :: j in s ==> w.view.bindings[j].remoteKnown
    requires bound <= b.Effective() && Sum(s, Effectives(Rebind(w.view, k, b).bindings)) <= budget
    ensures Sum(s, most[k := bound]) <= budget
  {
    hide Genuine;
    var e := Effectives(Rebind(w.view, k, b).bindings);
    forall j | j in s ensures most[k := bound][j] <= e[j] {
      assert Bounded(w, most, j);
    }
    SumLe(s, most[k := bound], e);
  }

  lemma RaiseFits(w: World, most: map<BindingKey, int>, k: BindingKey, b: Binding, bound: int)
    requires Inv(w, most) && k in most && AllKnown(w.view, k) && bound <= b.Effective()
    requires ValidView(Rebind(w.view, k, b)) && RemoteWithinBudgets(Rebind(w.view, k, b))
    ensures MostFits(w.view, most[k := bound])
  {
    hide Genuine;
    var v, v' := w.view, Rebind(w.view, k, b);
    forall t | t in v.parallelism ensures Sum(Members(v, t), most[k := bound]) <= v.parallelism[t] {
      assert Members(v', t) == Members(v, t) && RemoteWithinTier(v', t);
      if v.limit > 0 || v.tierOf[k] == t {
        AnnouncedFits(w, most, k, b, bound, Members(v, t), v.parallelism[t]);
      } else {
        SumUpdate(Members(v, t), most, k, bound);
      }
    }
    if v.limit > 0 {
      assert v'.bindings.Keys == v.bindings.Keys;
      AnnouncedFits(w, most, k, b, bound, v.bindings.Keys, v.limit);
    }
  }

  function Sent(b: Binding, capacity: nat): Binding {
    b.(pollID := b.pollID + 1, pending := Some(PendingPoll(b.pollID + 1, capacity)))
  }

  lemma OfferIsSpare(v: View, k: BindingKey)
    requires ValidView(v) && MayPoll(v, k)
    ensures Offer(v, k) <= Max(0, Spare(v, k)) && (!AllKnown(v, k) ==> Offer(v, k) == 0)
  {
  }

  lemma SentIsModest(v: View, k: BindingKey)
    requires ValidView(v) && MayPoll(v, k)
    ensures var b := Sent(v.bindings[k], Offer(v, k));
            ValidBinding(b) && b.held == v.held && b.Effective() <= Max(v.bindings[k].Effective(), Spare(v, k))
  {
    hide Distinct, ToSet, Sum, Spare;
    OfferIsSpare(v, k);
    assert ValidBinding(v.bindings[k]) && v.bindings[k].held == v.held;
  }

  lemma SentIsAnnounced(v: View, k: BindingKey, n: nat)
    requires MayPoll(v, k)
    ensures Announced(v, k, n) == Rebind(v, k, Sent(v.bindings[k], n))
  {
  }

  lemma SentKept(v: View, k: BindingKey, issued: set<Poll>)
    requires Kept(v, issued) && MayPoll(v, k)
    ensures var n := Offer(v, k); Kept(Rebind(v, k, Sent(v.bindings[k], n)), issued + {Ticket(v, k, n)})
  {
    hide ValidView, RemoteWithinBudgets, Genuine, Offer, Sent, Rebind, Ticket, Announced, Spare, ValidBinding;
    SentIsModest(v, k);
    RebindKeepsBudgets(v, k, Sent(v.bindings[k], Offer(v, k)));
    AnnouncedStaysGenuine(v, k, Offer(v, k), issued);
    SentIsAnnounced(v, k, Offer(v, k));
  }

  lemma SentIsMoved(w: World, k: BindingKey)
    requires ValidView(w.view) && MayPoll(w.view, k) && k in w.flying && k in w.inForce
    ensures var n := Offer(w.view, k);
            After(w, BeginPoll(k)) == Moved(w, k, Sent(w.view.bindings[k], n), w.issued + {Ticket(w.view, k, n)},
                                            w.inForce[k], w.flying[k] + {n})
  {
    hide ValidView, Offer, Sent, Ticket, Rebind, Announced;
    SentIsAnnounced(w.view, k, Offer(w.view, k));
    assert w.inForce[k := w.inForce[k]] == w.inForce;
  }

  lemma SentFits(w: World, most: map<BindingKey, int>, k: BindingKey, n: nat)
    requires Inv(w, most) && MayPoll(w.view, k) && n == Offer(w.view, k)
    requires Kept(Rebind(w.view, k, Sent(w.view.bindings[k], n)), w.issued + {Ticket(w.view, k, n)})
    ensures MostFits(w.view, most[k := Max(most[k], n)])
  {
    hide Genuine, Distinct, ToSet, Sum;
    assert Bounded(w, most, k);
    OfferIsSpare(w.view, k);
    if AllKnown(w.view, k) {
      RaiseFits(w, most, k, Sent(w.view.bindings[k], n), Max(most[k], n));
    } else {
      LowerFits(w.view, most, k, Max(most[k], n));
    }
  }

  lemma SentCovers(w: World, most: map<BindingKey, int>, k: BindingKey, n: nat)
    requires Inv(w, most) && MayPoll(w.view, k)
    ensures Covers(Sent(w.view.bindings[k], n), w.inForce[k], w.flying[k] + {n}, Max(most[k], n))
  {
    hide Genuine;
    assert Bounded(w, most, k);
  }

  lemma SentInv(w: World, most: map<BindingKey, int>, k: BindingKey)
    requires Inv(w, most) && MayPoll(w.view, k)
    ensures exists most' :: Inv(After(w, BeginPoll(k)), most')
  {
    hide Genuine;
    var n := Offer(w.view, k);
    SentKept(w.view, k, w.issued);
    SentFits(w, most, k, n);
    SentCovers(w, most, k, n);
    RemoteChange(w, most, k, Sent(w.view.bindings[k], n), w.issued + {Ticket(w.view, k, n)},
                 w.inForce[k], w.flying[k] + {n}, Max(most[k], n));
    SentIsMoved(w, k);
    assert Inv(After(w, BeginPoll(k)), most[k := Max(most[k], n)]);
  }

  lemma BegunInv(w: World, most: map<BindingKey, int>, k: BindingKey)
    requires Inv(w, most)
    ensures exists most' :: Inv(After(w, BeginPoll(k)), most')
  {
    hide Genuine;
    if MayPoll(w.view, k) {
      SentInv(w, most, k);
    } else {
      var w' := After(w, BeginPoll(k));
      InvalidStaysGenuine(w.view, Ticket(w.view, k, 0), w.issued);
      forall j | j in most ensures Bounded(w', most, j) {
        assert Bounded(w, most, j);
      }
      assert Inv(w', most);
    }
  }

  // ---- an answer ----

  /** A successful answer settles what is in force; a failed one leaves everything possible. */
  lemma AnsweredInv(w: World, most: map<BindingKey, int>, p: Poll, succeeded: bool) returns (most': map<BindingKey, int>)
    requires Inv(w, most) && p in w.issued && Current(w.view, p)
    ensures var v := Answered(w.view, p, succeeded);
            Inv(if succeeded then World(v, w.issued, w.inForce[p.key := p.capacity], w.flying[p.key := {}])
                else w.(view := v), most')
  {
    hide Genuine, TierRing, RingOf;
    var k, b := p.key, w.view.bindings[p.key];
    AnswerIsHonest(w.view, p, w.issued);
    assert Bounded(w, most, k);
    assert b.held == w.view.held;
    if succeeded {
      var b' := b.(published := p.capacity, pending := None);
      RebindKept(w.view, k, b', w.issued);
      LowerFits(w.view, most, k, p.capacity);
      RemoteChange(w, most, k, b', w.issued, p.capacity, {}, p.capacity);
      most' := most[k := p.capacity];
    } else {
      KeepsMost(w, most, k, b.remoteKnown);
      most' := most;
    }
  }

  lemma RotatedIsValid(v: View, p: Poll)
    requires ValidView(v)
    ensures ValidView(Rotated(v, p)) && SameRemote(v, Rotated(v, p))
  {
    var r := RingFor(v, p.key);
    if HolderOf(r) == Some(p.key) {
      RotateStays(r, v.bindings);
      TurnKeepsRemote(v, p.key, Rotate(r, v.bindings));
    }
  }

  lemma CompletedInv(w: World, most: map<BindingKey, int>, p: Poll, succeeded: bool, empty: bool)
    requires Inv(w, most) && p in w.issued
    ensures exists most' :: Inv(After(w, CompletePoll(p, succeeded, empty)), most')
  {
    hide Genuine;
    var w' := After(w, CompletePoll(p, succeeded, empty));
    if !Current(w.view, p) {
      assert w' == w;
    } else {
      var most' := AnsweredInv(w, most, p, succeeded);
      var answered := Answered(w.view, p, succeeded);
      var u := w'.(view := answered);
      assert Inv(u, most');
      RotatedIsValid(answered, p);
      if w'.view != answered {
        SameRemoteInv(u, Rotated(answered, p), most');
      }
      assert Inv(w', most');
    }
  }

  // ---- every event, every run ----

  lemma BrokerInv(w: World, most: map<BindingKey, int>, k: BindingKey, capacity: nat)
    requires Inv(w, most) && k in w.flying && (capacity in w.flying[k] || capacity == 0)
    ensures Inv(w.(inForce := w.inForce[k := capacity]), most)
  {
    hide Genuine;
    var w' := w.(inForce := w.inForce[k := capacity]);
    forall j | j in most ensures Bounded(w', most, j) {
      assert Bounded(w, most, j);
    }
  }

  lemma EveryEventInv(w: World, e: Event, most: map<BindingKey, int>)
    requires Inv(w, most) && Possible(w, e)
    ensures exists most' :: Inv(After(w, e), most')
  {
    hide Genuine;
    match e
    case SessionOpened(k) => OpenedInv(w, most, k);
    case SessionClosed(k, confirmed) => ClosedInv(w, most, k, confirmed);
    case BeginPoll(k) => BegunInv(w, most, k);
    case CompletePoll(p, succeeded, empty) => CompletedInv(w, most, p, succeeded, empty);
    case Lands(k, capacity) =>
      BrokerInv(w, most, k, capacity);
      assert Inv(After(w, e), most);
    case Lapses(k) =>
      if k in w.inForce {
        BrokerInv(w, most, k, 0);
      }
      assert Inv(After(w, e), most);
    case _ =>
      LocalKeepsRemote(w.view, e);
      SameRemoteInv(w, Controller(w.view, e), most);
      assert Inv(After(w, e), most);
  }

  /** All bindings registered, nothing announced yet, no predecessor accounted for. */
  ghost predicate Fresh(v: View) {
    && ValidView(v)
    && forall k :: k in v.bindings ==>
         v.bindings[k].published == 0 && v.bindings[k].pending.None? && !v.bindings[k].remoteKnown
  }

  /** An allocator that has only been registered with is fresh. */
  lemma RegisteringIsFresh(v: View, t: TierID, k: BindingKey, parallelism: nat)
    requires Fresh(v) && E.Admissible(v, t, k, parallelism)
    ensures Fresh(Registered(v, t, k, parallelism))
  {
    E.RegisteredIsValid(v, t, k, parallelism);
  }

  /** A restart: whatever the predecessor left in force, or on its way, fits the budgets. */
  ghost predicate Start(w: World, inherited: map<BindingKey, int>) {
    && Fresh(w.view) && w.issued == {}
    && w.inForce.Keys == w.flying.Keys == inherited.Keys == w.view.bindings.Keys
    && (forall k :: k in inherited ==> 0 <= w.inForce[k] <= inherited[k])
    && (forall k, n :: k in inherited && n in w.flying[k] ==> n <= inherited[k])
    && MostFits(w.view, inherited)
  }

  lemma StartInv(w: World, inherited: map<BindingKey, int>)
    requires Start(w, inherited)
    ensures Inv(w, inherited)
  {
    hide Genuine;
    forall k | k in inherited ensures Bounded(w, inherited, k) {
    }
    FreshKept(w.view);
  }

  lemma FreshKept(v: View)
    requires Fresh(v)
    ensures Kept(v, {})
  {
    assert forall k :: k in v.bindings ==> Effectives(v.bindings)[k] == 0;
    forall t | t in v.parallelism ensures RemoteWithinTier(v, t) {
      SumAllZero(Members(v, t), Effectives(v.bindings));
    }
    SumAllZero(v.bindings.Keys, Effectives(v.bindings));
  }

  ghost predicate Next(w: World, e: Event, w': World) {
    ValidView(w.view) && Possible(w, e) && w' == After(w, e)
  }

  ghost predicate Run(ws: seq<World>, es: seq<Event>) {
    |ws| == |es| + 1 && forall i {:trigger es[i]} :: 0 <= i < |es| ==> Next(ws[i], es[i], ws[i + 1])
  }

  /** The allocator's part of a step. */
  lemma ViewMoves(ws: seq<World>, es: seq<Event>, n: nat)
    requires Run(ws, es) && n < |es|
    ensures ValidView(ws[n].view) && ws[n + 1].view == Controller(ws[n].view, es[n])
  {
    hide ValidView, Controller;
    assert Next(ws[n], es[n], ws[n + 1]);
  }

  lemma NextInv(w: World, e: Event, w': World)
    requires Next(w, e, w') && exists most :: Inv(w, most)
    ensures exists most :: Inv(w', most)
  {
    hide Genuine;
    var most :| Inv(w, most);
    EveryEventInv(w, e, most);
  }

  lemma {:induction false} RunInv(ws: seq<World>, es: seq<Event>, inherited: map<BindingKey, int>, n: nat)
    requires Run(ws, es) && Start(ws[0], inherited) && n < |ws|
    ensures exists most :: Inv(ws[n], most)
  {
    hide Genuine;
    if n == 0 {
      StartInv(ws[0], inherited);
    } else {
      RunInv(ws, es, inherited, n - 1);
      NextInv(ws[n - 1], es[n - 1], ws[n]);
    }
  }

  /** Every run, every moment: capacity in force fits every tier and the instance. */
  lemma BrokerWithinBudgets(ws: seq<World>, es: seq<Event>, inherited: map<BindingKey, int>, n: nat)
    requires Run(ws, es) && Start(ws[0], inherited) && n < |ws|
    ensures ValidView(ws[n].view) && ws[n].inForce.Keys == ws[n].view.bindings.Keys && InForceFits(ws[n])
  {
    hide Genuine;
    RunInv(ws, es, inherited, n);
    var most :| Inv(ws[n], most);
    InvFits(ws[n], most);
  }
}
