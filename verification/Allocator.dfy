/**
 The allocator: admission counts, the poll protocol, the discovery credit and a cached plan.

 `view` is what the fields mean. Every method states the new view as a function of the old
 one, and that the counters, the remote budgets and the cached plan still hold.
 */
module Allocation {
  import opened Base
  import opened Sums
  import opened Ledger
  import opened Planning
  import opened PlanBuilding
  import opened Operations
  import opened Bookkeeping
  import opened Enrolment
  import opened Holding

  datatype RegisterError = ConflictingParallelism | AlreadyRegistered

  class Allocator {
    const globalParallelism: nat
    var pools: map<TierID, Pool>
    var tierOf: map<BindingKey, TierID>
    var order: seq<BindingKey>
    var discovery: nat
    var discoveryGeneration: nat
    var activeCount: int
    var remoteCapacity: int
    var unknownSessions: int
    var planGeneration: nat
    var plan: Option<Plan>
    var held: bool

    ghost var view: View
    ghost var issued: set<Poll>

    function Books(): Ledger
      reads this
    {
      Ledger(globalParallelism, pools, tierOf, order, discovery, discoveryGeneration, activeCount, remoteCapacity,
             unknownSessions, held)
    }

    /** The counters count, and what may be in force remotely fits the budgets. */
    ghost predicate Sound()
      reads this
    {
      InOrder(Books(), view)
    }

    /** A published plan is the one the present state promises, under the present generation. */
    ghost predicate Cached()
      reads this
      requires ValidView(view)
    {
      UpToDate(view, plan, planGeneration)
    }

    ghost predicate Valid()
      reads this
    {
      Sound() && Cached() && Genuine(view, issued)
    }

    constructor (globalParallelism: nat)
      ensures Valid()
      ensures view == View(globalParallelism, map[], map[], Ring([], 0, 0), map[], map[], false)
      ensures issued == {} && planGeneration == 0
    {
      this.globalParallelism := globalParallelism;
      pools, tierOf, order := map[], map[], [];
      discovery, discoveryGeneration := 0, 0;
      activeCount, remoteCapacity, unknownSessions := 0, 0, 0;
      planGeneration, plan, held := 0, None, false;
      view := View(globalParallelism, map[], map[], Ring([], 0, 0), map[], map[], false);
      issued := {};
    }

    // ---- the plan ----

    method InvalidatePlan()
      modifies this
      ensures plan == None && planGeneration == old(planGeneration) + 1
      ensures Books() == old(Books()) && view == old(view) && issued == old(issued)
    {
      hide Booked, Genuine, PlanOf;
      planGeneration := planGeneration + 1;
      plan := None;
    }

    /** The published plan, built at most once per generation. */
    method CurrentPlan() returns (p: Plan)
      requires Sound() && Cached()
      modifies this
      ensures Books() == old(Books()) && view == old(view) && issued == old(issued) && planGeneration == old(planGeneration)
      ensures Cached() && PlanOf(view, p) && p.generation == planGeneration && plan == Some(p)
      ensures old(plan).Some? ==> p == old(plan).value
    {
      hide Genuine, Distinct, ToSet, Sum;
      if plan.Some? {
        return plan.value;
      }
      p := BuildPlan(view, Books(), planGeneration);
      plan := Some(p);
    }
  
    /** Nothing a plan depends on changed under the same generation. */
    ghost predicate Follows(before: View, generation: nat)
      reads this
    {
      Followed(before, generation, view, planGeneration)
    }

    // ---- the discovery credit ----

    method BindingOf(key: BindingKey) returns (b: Option<Binding>)
      requires Sound()
      ensures b == if key in view.bindings then Some(view.bindings[key]) else None
    {
      hide Genuine, PlanOf;
      Located(Books(), view, key);
      if key !in tierOf {
        return None;
      }
      return Some(pools[tierOf[key]].state[key]);
    }

    method NextDiscovery(ring: seq<BindingKey>, current: nat, ghost generation: nat) returns (next: nat)
      requires Sound()
      ensures next == Next(Ring(ring, current, generation), view.bindings)
    {
      hide Booked, Genuine, PlanOf;
      if |ring| == 0 {
        return 0;
      }
      ghost var r := Ring(ring, current, generation);
      for i := 1 to |ring| + 1
        invariant Search(r, view.bindings, 1) == Search(r, view.bindings, i)
      {
        next := (current + i) % |ring|;
        var b := BindingOf(ring[next]);
        if b.Some? && !b.value.held && b.value.assignedDemand == 0 && b.value.active == 0 {
          return;
        }
      }
      next := current;
    }

    method AdvanceInstance(key: BindingKey, still: bool)
      requires Sound() && globalParallelism > 0 && still == Qualifies(view.bindings, key)
      modifies this
      ensures issued == old(issued)
      ensures Sound() && view == AdvanceFrom(old(view), key)
      ensures old(planGeneration) <= planGeneration && (old(plan) == None ==> plan == None)
    {
      hide Booked, Genuine, PlanOf, ValidView, Sum, Distinct, ToSet;
      RingLocated(Books(), view, key);
      if |order| == 0 || order[discovery] != key || still {
        NotAdvanced(view, key);
        return;
      }
      var next := NextDiscovery(order, discovery, discoveryGeneration);
      if next == discovery {
        NotAdvanced(view, key);
        return;
      }
      ghost var moved := Ring(order, next, discoveryGeneration + 1);
      Advanced(Books(), view, key, RingFor(view, key), moved);
      view := WithRing(view, key, moved);
      discovery := next;
      discoveryGeneration := discoveryGeneration + 1;
      InvalidatePlan();
      assert Books() == Turn(old(Books()), key, moved);
    }

    method AdvanceTier(key: BindingKey, still: bool)
      requires Sound() && globalParallelism == 0 && still == Qualifies(view.bindings, key)
      modifies this
      ensures issued == old(issued)
      ensures Sound() && view == AdvanceFrom(old(view), key)
      ensures old(planGeneration) <= planGeneration && (old(plan) == None ==> plan == None)
    {
      hide Booked, Genuine, PlanOf, ValidView;
      RingLocated(Books(), view, key);
      if key !in tierOf {
        NotAdvanced(view, key);
        return;
      }
      var t := tierOf[key];
      var p := pools[t];
      if |p.order| == 0 || p.order[p.discovery] != key || still {
        NotAdvanced(view, key);
        return;
      }
      var next := NextDiscovery(p.order, p.discovery, p.discoveryGeneration);
      if next == p.discovery {
        NotAdvanced(view, key);
        return;
      }
      ghost var moved := Ring(p.order, next, p.discoveryGeneration + 1);
      Advanced(Books(), view, key, RingFor(view, key), moved);
      view := WithRing(view, key, moved);
      pools := pools[t := p.(discovery := next, discoveryGeneration := p.discoveryGeneration + 1)];
      InvalidatePlan();
      assert Books() == Turn(old(Books()), key, moved);
    }

    /** Moves the credit off `key` if it held it and no longer qualifies. */
    method AdvanceDiscoveryFrom(key: BindingKey)
      requires Sound()
      modifies this
      ensures issued == old(issued)
      ensures Sound() && view == AdvanceFrom(old(view), key)
      ensures old(planGeneration) <= planGeneration && (old(plan) == None ==> plan == None)
    {
      hide Booked, Genuine, PlanOf;
      var b := BindingOf(key);
      var still := b.Some? && !b.value.held && b.value.assignedDemand == 0 && b.value.active == 0;
      if globalParallelism > 0 {
        AdvanceInstance(key, still);
      } else {
        AdvanceTier(key, still);
      }
    }
  
    // ---- admission ----

    method ReplaceDemand(key: BindingKey, demand: nat)
      requires Sound() && key in view.bindings
      modifies this
      ensures issued == old(issued) && plan == old(plan) && planGeneration == old(planGeneration)
      ensures Sound() && view == Rebind(old(view), key, old(view).bindings[key].(assignedDemand := demand))
    {
      hide Booked, Genuine, PlanOf;
      ghost var b' := view.bindings[key].(assignedDemand := demand);
      PostInOrder(Books(), view, key, b');
      PoolHas(Books(), view, key);
      var t := tierOf[key];
      var p := pools[t];
      pools := pools[t := p.(state := p.state[key := p.state[key].(assignedDemand := demand)])];
      assert Books() == Post(old(Books()), key, b');
      view := Rebind(view, key, b');
    }

    method ChangeActive(key: BindingKey, delta: int)
      requires Sound() && key in view.bindings && 0 <= view.bindings[key].active + delta
      modifies this
      ensures issued == old(issued) && plan == old(plan) && planGeneration == old(planGeneration)
      ensures Sound()
      ensures view == Rebind(old(view), key, old(view).bindings[key].(active := old(view).bindings[key].active + delta))
    {
      hide Booked, Genuine, PlanOf;
      ghost var b' := view.bindings[key].(active := view.bindings[key].active + delta);
      PostInOrder(Books(), view, key, b');
      PoolHas(Books(), view, key);
      var t := tierOf[key];
      var p := pools[t];
      var b := p.state[key];
      pools := pools[t := p.(state := p.state[key := b.(active := b.active + delta)], active := p.active + delta)];
      activeCount := activeCount + delta;
      assert Books() == Post(old(Books()), key, b');
      view := Rebind(view, key, b');
    }

    /** What the provider has committed to a binding; negative reports count as none. */
    method SetAssignedDemand(key: BindingKey, demand: int)
      requires Valid()
      modifies this
      ensures Valid() && view == Demanded(old(view), key, demand) && issued == old(issued)
      ensures Follows(old(view), old(planGeneration))
    {
      hide Booked, Genuine, PlanOf;
      DemandedStaysGenuine(view, key, demand, issued);
      var b := BindingOf(key);
      var d := if demand < 0 then 0 else demand;
      if b.None? || b.value.assignedDemand == d {
        SameInputsReflexive(view);
        return;
      }
      ReplaceDemand(key, d);
      InvalidatePlan();
      if d > 0 {
        AdvanceDiscoveryFrom(key);
      }
    }
  
    /** Whether tier and instance both have an active credit left for an unheld binding. */
    method HasCredit(key: BindingKey) returns (has: bool)
      requires Sound()
      ensures has == Reservable(view, key)
    {
      hide Booked, Genuine, PlanOf;
      var b := BindingOf(key);
      if b.None? || b.value.held {
        return false;
      }
      PoolHas(Books(), view, key);
      Tallies(Books(), view, key);
      var p := pools[tierOf[key]];
      if p.active >= p.parallelism {
        return false;
      }
      if globalParallelism > 0 && activeCount >= globalParallelism {
        return false;
      }
      return true;
    }

    /** One more capsule of `key`: counted, and the credit moved on if `key` held it. */
    method Start(key: BindingKey)
      requires Sound() && key in view.bindings
      modifies this
      ensures issued == old(issued)
      ensures Sound() && view == Started(old(view), key)
      ensures plan == None && old(planGeneration) < planGeneration
    {
      hide Booked, Genuine, PlanOf, ValidView;
      ghost var counted := Rebind(view, key, view.bindings[key].(active := view.bindings[key].active + 1));
      assert Started(view, key) == AdvanceFrom(counted, key);
      ChangeActive(key, 1);
      assert view == counted;
      InvalidatePlan();
      AdvanceDiscoveryFrom(key);
    }

    /** Claims one admission credit if the tier and the instance have one. */
    method TryReserve(key: BindingKey) returns (ok: bool)
      requires Valid()
      modifies this
      ensures Valid() && ok == Reservable(old(view), key) && issued == old(issued)
      ensures view == if ok then Started(old(view), key) else old(view)
      ensures Follows(old(view), old(planGeneration))
    {
      hide Booked, Genuine, PlanOf;
      ok := HasCredit(key);
      if !ok {
        SameInputsReflexive(view);
        return;
      }
      StartedStaysGenuine(view, key, issued);
      Start(key);
    }

    /** Accounts a lease that already exists; it never refuses, and says when a budget is exceeded. */
    method Adopt(key: BindingKey) returns (overBudget: bool)
      requires Valid()
      modifies this
      ensures Valid() && view == Started(old(view), key) && issued == old(issued)
      ensures overBudget == OverBudget(view, key)
      ensures Follows(old(view), old(planGeneration))
    {
      hide Booked, Genuine, PlanOf;
      var b := BindingOf(key);
      if b.None? {
        SameInputsReflexive(view);
        return false;
      }
      StartedStaysGenuine(view, key, issued);
      Start(key);
      overBudget := ExceedsBudget(key);
    }

    method ExceedsBudget(key: BindingKey) returns (over: bool)
      requires Sound() && key in view.bindings
      ensures over == OverBudget(view, key)
    {
      hide Booked, Genuine, PlanOf;
      PoolHas(Books(), view, key);
      Tallies(Books(), view, key);
      var p := pools[tierOf[key]];
      if p.active > p.parallelism {
        return true;
      }
      return globalParallelism > 0 && activeCount > globalParallelism;
    }

    /** Gives an admission credit back; a binding that has none gives nothing. */
    method Release(key: BindingKey)
      requires Valid()
      modifies this
      ensures Valid() && view == Released(old(view), key) && issued == old(issued)
      ensures Follows(old(view), old(planGeneration))
    {
      hide Booked, Genuine, PlanOf;
      var b := BindingOf(key);
      if b.None? || b.value.active == 0 {
        SameInputsReflexive(view);
        return;
      }
      RebindStaysGenuine(view, key, b.value.(active := b.value.active - 1), issued);
      ChangeActive(key, -1);
      InvalidatePlan();
    }

    method Active(key: BindingKey) returns (active: nat)
      requires Valid()
      ensures active == if key in view.bindings then view.bindings[key].active else 0
    {
      hide Booked, Genuine, PlanOf;
      var b := BindingOf(key);
      return if b.Some? then b.value.active else 0;
    }

    /** How many credits `key` could still claim: as many as TryReserve would grant in a row. */
    method ReservableCapacity(key: BindingKey) returns (available: nat)
      requires Valid()
      ensures available == Room(view, key)
    {
      hide Booked, Genuine, PlanOf;
      var b := BindingOf(key);
      if b.None? || b.value.held {
        return 0;
      }
      PoolHas(Books(), view, key);
      Tallies(Books(), view, key);
      var p := pools[tierOf[key]];
      var free := p.parallelism - p.active;
      if globalParallelism > 0 {
        var globalAvailable := globalParallelism - activeCount;
        if globalAvailable < free {
          free := globalAvailable;
        }
      }
      if free < 0 {
        return 0;
      }
      return free;
    }
  
    // ---- provider sessions ----

    /** Replaces what `key` may hold remotely and moves both remote counters by the difference. */
    method ChangeRemoteCapacity(key: BindingKey, changed: Binding)
      requires Sound() && key in view.bindings && ValidBinding(changed)
      requires changed == view.bindings[key].(published := changed.published, pending := changed.pending,
                                              pollID := changed.pollID)
      requires changed.Effective() <= Max(view.bindings[key].Effective(), Spare(view, key))
      modifies this
      ensures issued == old(issued) && plan == old(plan) && planGeneration == old(planGeneration)
      ensures Sound() && view == Rebind(old(view), key, changed)
    {
      hide Booked, Genuine, PlanOf, Distinct, ToSet, Sum;
      PostInOrder(Books(), view, key, changed);
      PoolHas(Books(), view, key);
      var t := tierOf[key];
      var p := pools[t];
      var delta := changed.Effective() - p.state[key].Effective();
      pools := pools[t := p.(state := p.state[key := changed], remote := p.remote + delta)];
      remoteCapacity := remoteCapacity + delta;
      assert Books() == Post(old(Books()), key, changed);
      view := Rebind(view, key, changed);
    }

    method SetRemoteKnown(key: BindingKey, known: bool)
      requires Sound() && key in view.bindings
      modifies this
      ensures issued == old(issued) && plan == old(plan) && planGeneration == old(planGeneration)
      ensures Sound() && view == Rebind(old(view), key, old(view).bindings[key].(remoteKnown := known))
    {
      hide Booked, Genuine, PlanOf, Distinct, ToSet, Sum;
      ghost var b' := view.bindings[key].(remoteKnown := known);
      PostInOrder(Books(), view, key, b');
      PoolHas(Books(), view, key);
      var t := tierOf[key];
      var p := pools[t];
      var b := p.state[key];
      if b.remoteKnown == known {
        assert Rebind(view, key, b').bindings == view.bindings;
        return;
      }
      var delta := if known then -1 else 1;
      pools := pools[t := p.(state := p.state[key := b.(remoteKnown := known)], unknown := p.unknown + delta)];
      unknownSessions := unknownSessions + delta;
      assert Books() == Post(old(Books()), key, b');
      view := Rebind(view, key, b');
    }

    /** What a session event leaves the binding with; it is no input of a plan. */
    method Resettle(key: BindingKey, changed: Binding, known: bool)
      requires Valid() && key in view.bindings && changed.Effective() <= view.bindings[key].Effective()
      requires changed == view.bindings[key].(published := changed.published, pending := None)
      modifies this
      ensures issued == old(issued) && plan == old(plan) && planGeneration == old(planGeneration)
      ensures Valid() && view == Rebind(old(view), key, changed.(remoteKnown := known))
      ensures SameInputs(old(view), view)
    {
      hide Booked, Genuine, PlanOf;
      RebindTwice(view, key, changed, changed.(remoteKnown := known));
      RebindStaysGenuine(view, key, changed.(remoteKnown := known), issued);
      RebindSameInputs(view, key, changed.(remoteKnown := known));
      ChangeRemoteCapacity(key, changed);
      SetRemoteKnown(key, known);
      StaysUpToDate(old(view), view, plan, planGeneration);
    }

    /** A new session proves the predecessor gone and its capacity back at zero. */
    method SessionOpened(key: BindingKey)
      requires Valid()
      modifies this
      ensures Valid() && view == Opened(old(view), key) && issued == old(issued)
      ensures planGeneration == old(planGeneration) && SameInputs(old(view), view)
    {
      hide Booked, Genuine, PlanOf;
      var b := BindingOf(key);
      if b.None? {
        SameInputsReflexive(view);
        return;
      }
      Resettle(key, b.value.(published := 0, pending := None), true);
    }

    /** A confirmed close gives its capacity back; an uncertain one keeps the most it may hold. */
    method SessionClosed(key: BindingKey, confirmed: bool)
      requires Valid()
      modifies this
      ensures Valid() && view == Closed(old(view), key, confirmed) && issued == old(issued)
      ensures planGeneration == old(planGeneration) && SameInputs(old(view), view)
    {
      hide Booked, Genuine, PlanOf;
      var b := BindingOf(key);
      if b.None? {
        SameInputsReflexive(view);
        return;
      }
      var published := b.value.published;
      if b.value.pending.Some? && b.value.pending.value.capacity > published {
        published := b.value.pending.value.capacity;
      }
      if confirmed {
        published := 0;
      }
      Resettle(key, b.value.(published := published, pending := None), confirmed);
    }
  
    // ---- the poll protocol ----

    /** Whether every predecessor session sharing the budget of `key` is accounted for. */
    method RemoteStateKnown(key: BindingKey) returns (known: bool)
      requires Sound() && key in view.bindings
      ensures known == AllKnown(view, key)
    {
      hide Booked, Genuine, PlanOf;
      PoolHas(Books(), view, key);
      UnknownTallies(Books(), view, key);
      if globalParallelism > 0 {
        return unknownSessions == 0;
      }
      return pools[tierOf[key]].unknown == 0;
    }

    /** The most of `desired` that the other bindings' possible remote capacity leaves room for. */
    method ClampPublished(key: BindingKey, desired: int) returns (capacity: nat)
      requires Sound() && key in view.bindings
      ensures capacity == if desired <= 0 then 0 else Min(desired, Max(Spare(view, key), 0))
    {
      hide Booked, Genuine, PlanOf;
      if desired <= 0 {
        return 0;
      }
      PoolHas(Books(), view, key);
      Tallies(Books(), view, key);
      RemoteTallies(Books(), view, key);
      var p := pools[tierOf[key]];
      var current := p.state[key].Effective();
      var allowed := p.parallelism - (p.remote - current);
      if allowed < 0 {
        allowed := 0;
      }
      if globalParallelism > 0 {
        var globalAvailable := globalParallelism - (remoteCapacity - current);
        if globalAvailable < 0 {
          globalAvailable := 0;
        }
        if globalAvailable < allowed {
          allowed := globalAvailable;
        }
      }
      if desired < allowed {
        return desired;
      }
      return allowed;
    }

    /** Whether an announcement of `capacity` is the discovery credit's, and under which generation. */
    method DiscoveryAnnouncement(key: BindingKey, capacity: nat) returns (discovers: bool, generation: nat)
      requires Sound() && key in view.bindings
      ensures discovers == Discovers(view, key, capacity)
      ensures generation == if discovers then RingFor(view, key).generation else 0
    {
      hide Booked, Genuine, PlanOf;
      if capacity == 0 {
        return false, 0;
      }
      var b := BindingOf(key);
      if b.None? || b.value.held || b.value.assignedDemand != 0 || b.value.active != 0 {
        return false, 0;
      }
      RingLocated(Books(), view, key);
      PoolHas(Books(), view, key);
      if globalParallelism > 0 {
        if |order| == 0 || order[discovery] != key {
          return false, 0;
        }
        return true, discoveryGeneration;
      }
      var p := pools[tierOf[key]];
      if |p.order| == 0 || p.order[p.discovery] != key {
        return false, 0;
      }
      return true, p.discoveryGeneration;
    }

    /** What `key` wants to announce, before the clamp. */
    method DesiredNow(key: BindingKey) returns (desired: int)
      requires Valid() && key in view.bindings
      modifies this
      ensures Valid() && Books() == old(Books()) && view == old(view) && issued == old(issued)
      ensures planGeneration == old(planGeneration)
      ensures desired == if AllKnown(view, key) then DesiredFor(view, key) else 0
    {
      hide Booked, Genuine;
      desired := 0;
      var known := RemoteStateKnown(key);
      if known {
        var p := CurrentPlan();
        desired := p.desired[key];
      }
    }

    /** Puts the announcement in flight: from now on it may be in force remotely. */
    method Announce(key: BindingKey, capacity: nat)
      requires Valid() && MayPoll(view, key) && capacity <= Max(0, Spare(view, key))
      modifies this
      ensures Valid() && view == Announced(old(view), key, capacity)
      ensures issued == old(issued) + {Ticket(old(view), key, capacity)}
      ensures planGeneration == old(planGeneration) && SameInputs(old(view), view)
    {
      hide Booked, Genuine, PlanOf;
      var b := BindingOf(key);
      var changed := b.value.(pollID := b.value.pollID + 1, pending := Some(PendingPoll(b.value.pollID + 1, capacity)));
      assert Announced(view, key, capacity) == Rebind(view, key, changed);
      AnnouncedStaysGenuine(view, key, capacity, issued);
      RebindSameInputs(view, key, changed);
      issued := issued + {Ticket(view, key, capacity)};
      ChangeRemoteCapacity(key, changed);
      StaysUpToDate(old(view), view, plan, planGeneration);
    }

    /** Reserves one announcement; an invalid one, of nothing, if the key is unknown or already polling. */
    method BeginPoll(key: BindingKey) returns (poll: Poll)
      requires Valid()
      modifies this
      ensures Valid() && issued == old(issued) + {poll}
      ensures view == Announced(old(view), key, poll.capacity) && poll == Ticket(old(view), key, poll.capacity)
      ensures MayPoll(old(view), key) ==> poll.capacity == Announcement(old(view), key)
      ensures planGeneration == old(planGeneration) && SameInputs(old(view), view)
    {
      hide Booked, Genuine, PlanOf, ValidView, Sum, Distinct, ToSet;
      var b := BindingOf(key);
      if b.None? || b.value.pending.Some? {
        poll := Poll(key, 0, 0, false, 0);
        InvalidStaysGenuine(view, poll, issued);
        SameInputsReflexive(view);
        issued := issued + {poll};
        return;
      }
      var desired := DesiredNow(key);
      var capacity := ClampPublished(key, desired);
      var discovers, generation := DiscoveryAnnouncement(key, capacity);
      poll := Poll(key, b.value.pollID + 1, capacity, discovers, generation);
      Announce(key, capacity);
    }
  
    /** After a ring turned: a plan is affected only if the credit changed hands. */
    method AfterTurn(key: BindingKey, ghost before: View, ghost turned: Ring, moved: bool)
      requires ValidView(before) && Sound() && view == WithRing(before, key, turned)
      requires Genuine(before, issued) && UpToDate(before, plan, planGeneration)
      requires turned.order == RingFor(before, key).order && (moved <==> turned.cursor != RingFor(before, key).cursor)
      modifies this
      ensures Valid() && view == old(view) && issued == old(issued)
      ensures Follows(before, old(planGeneration))
    {
      hide Booked, Genuine, PlanOf;
      TurnStaysGenuine(before, key, turned, issued);
      if moved {
        InvalidatePlan();
        return;
      }
      TurnSameInputs(before, key, turned);
      StaysUpToDate(before, view, plan, planGeneration);
    }

    method RotateInstance(poll: Poll)
      requires Valid() && globalParallelism > 0
      modifies this
      ensures Valid() && view == Rotated(old(view), poll) && issued == old(issued)
      ensures Follows(old(view), old(planGeneration))
    {
      hide Booked, Genuine, PlanOf, ValidView, Sum, Distinct, ToSet;
      RingLocated(Books(), view, poll.key);
      if poll.discoveryGeneration != discoveryGeneration || |order| == 0 || order[discovery] != poll.key {
        SameInputsReflexive(view);
        return;
      }
      var next := NextDiscovery(order, discovery, discoveryGeneration);
      var moved := next != discovery;
      ghost var turned := Ring(order, next, discoveryGeneration + 1);
      RotateInOrder(Books(), view, poll.key);
      view := WithRing(view, poll.key, turned);
      discovery := next;
      discoveryGeneration := discoveryGeneration + 1;
      assert Books() == Turn(old(Books()), poll.key, turned);
      AfterTurn(poll.key, old(view), turned, moved);
    }

    method RotateTier(poll: Poll)
      requires Valid() && globalParallelism == 0 && poll.key in view.bindings
      modifies this
      ensures Valid() && view == Rotated(old(view), poll) && issued == old(issued)
      ensures Follows(old(view), old(planGeneration))
    {
      hide Booked, Genuine, PlanOf, ValidView;
      RingLocated(Books(), view, poll.key);
      PoolHas(Books(), view, poll.key);
      var t := tierOf[poll.key];
      var p := pools[t];
      if poll.discoveryGeneration != p.discoveryGeneration || |p.order| == 0 || p.order[p.discovery] != poll.key {
        SameInputsReflexive(view);
        return;
      }
      var next := NextDiscovery(p.order, p.discovery, p.discoveryGeneration);
      var moved := next != p.discovery;
      ghost var turned := Ring(p.order, next, p.discoveryGeneration + 1);
      RotateInOrder(Books(), view, poll.key);
      TurnTier(poll.key, next, turned);
      AfterTurn(poll.key, old(view), turned, moved);
    }

    /** Puts a tier's cursor on `next` under a new generation. */
    method TurnTier(key: BindingKey, next: nat, ghost turned: Ring)
      requires globalParallelism == 0 && key in tierOf && tierOf[key] in pools
      requires turned == Ring(pools[tierOf[key]].order, next, pools[tierOf[key]].discoveryGeneration + 1)
      requires InOrder(Turn(Books(), key, turned), WithRing(view, key, turned))
      modifies this
      ensures Sound() && view == WithRing(old(view), key, turned)
      ensures issued == old(issued) && plan == old(plan) && planGeneration == old(planGeneration)
    {
      hide Booked, Genuine, PlanOf;
      var t := tierOf[key];
      var p := pools[t];
      pools := pools[t := p.(discovery := next, discoveryGeneration := p.discoveryGeneration + 1)];
      assert Books() == Turn(old(Books()), key, turned);
      view := WithRing(view, key, turned);
    }

    /** The answer to a poll that is still pending; any other is ignored. */
    method Settle(poll: Poll, succeeded: bool) returns (current: bool)
      requires Valid() && poll in issued
      modifies this
      ensures Valid() && current == Current(old(view), poll) && view == Answered(old(view), poll, succeeded)
      ensures issued == old(issued) && planGeneration == old(planGeneration) && SameInputs(old(view), view)
    {
      hide Booked, Genuine, PlanOf, ValidView;
      var b := BindingOf(poll.key);
      if b.None? || b.value.pending.None? || b.value.pending.value.id != poll.id {
        SameInputsReflexive(view);
        return false;
      }
      var published := b.value.published;
      if succeeded {
        published := poll.capacity;
      } else if poll.capacity > published {
        published := poll.capacity;
      }
      var changed := b.value.(published := published, pending := None);
      AnswerIsHonest(view, poll, issued);
      RebindStaysGenuine(view, poll.key, changed, issued);
      RebindSameInputs(view, poll.key, changed);
      ChangeRemoteCapacity(poll.key, changed);
      StaysUpToDate(old(view), view, plan, planGeneration);
      return true;
    }

    /** Records which capacity the provider may now hold; an empty discovery poll passes the credit on. */
    method CompletePoll(poll: Poll, succeeded: bool, empty: bool)
      requires Valid() && poll in issued
      modifies this
      ensures Valid() && view == Completed(old(view), poll, succeeded, empty) && issued == old(issued)
      ensures Follows(old(view), old(planGeneration))
    {
      hide Booked, Genuine, PlanOf;
      var current := Settle(poll, succeeded);
      if !current || !succeeded || !empty || !poll.discovery {
        return;
      }
      ghost var answered := view;
      if globalParallelism > 0 {
        RotateInstance(poll);
      } else {
        RotateTier(poll);
      }
      if planGeneration == old(planGeneration) {
        SameInputsTransitive(old(view), answered, view);
      }
    }
  
    // ---- registration and holds ----

    ghost function Refusal(v: View, tierID: TierID, key: BindingKey, parallelism: nat): Option<RegisterError> {
      if tierID in v.parallelism && v.parallelism[tierID] != parallelism then Some(ConflictingParallelism)
      else if key in v.bindings then Some(AlreadyRegistered)
      else None
    }

    /** Adds a binding to its tier; its key must be new to every tier or belong to this one. */
    method Register(tierID: TierID, key: BindingKey, parallelism: nat) returns (error: Option<RegisterError>)
      requires Valid() && (key in view.tierOf ==> view.tierOf[key] == tierID)
      modifies this
      ensures Valid() && error == Refusal(old(view), tierID, key, parallelism) && issued == old(issued)
      ensures view == if error == None then Registered(old(view), tierID, key, parallelism) else old(view)
      ensures Follows(old(view), old(planGeneration))
    {
      hide Booked, Genuine, PlanOf;
      PoolShown(Books(), view, tierID, key);
      var p := if tierID in pools then pools[tierID] else EmptyPool(parallelism);
      if p.parallelism != parallelism {
        SameInputsReflexive(view);
        return Some(ConflictingParallelism);
      }
      if key in p.state {
        SameInputsReflexive(view);
        return Some(AlreadyRegistered);
      }
      Enrol(tierID, key, p);
      RegisteredStaysGenuine(old(view), tierID, key, parallelism, issued);
      InvalidatePlan();
      error := None;
    }

    method Enrol(tierID: TierID, key: BindingKey, pool: Pool)
      requires Sound() && Admissible(view, tierID, key, pool.parallelism)
      requires pool == if tierID in pools then pools[tierID] else EmptyPool(pool.parallelism)
      modifies this
      ensures Sound() && view == Registered(old(view), tierID, key, pool.parallelism)
      ensures issued == old(issued) && planGeneration == old(planGeneration)
    {
      hide Booked, Genuine, PlanOf, ValidView;
      EnrolledInOrder(Books(), view, tierID, key, pool.parallelism);
      pools := pools[tierID := pool.(order := pool.order + [key],
                                     state := pool.state[key := Binding(0, 0, held, 0, None, 0, false)],
                                     unknown := pool.unknown + 1)];
      tierOf := tierOf[key := tierID];
      order := order + [key];
      unknownSessions := unknownSessions + 1;
      assert Books() == Enrolled(old(Books()), tierID, key, pool.parallelism);
      view := Registered(view, tierID, key, pool.parallelism);
    }

    method HoldBindings(held: bool)
      requires Sound()
      modifies this
      ensures Sound() && view == Stamped(old(view), held)
      ensures issued == old(issued) && planGeneration == old(planGeneration)
    {
      hide Booked, Genuine, PlanOf;
      StampInOrder(Books(), view, held);
      var held' := HeldPools(pools, held);
      this.held := held;
      pools := held';
      view := Stamped(view, held);
      assert Books() == old(Books()).(held := held, pools := HoldPools(old(pools), held));
    }

    static method HeldPools(pools: map<TierID, Pool>, held: bool) returns (r: map<TierID, Pool>)
      ensures r == HoldPools(pools, held)
    {
      hide Booked, Genuine, PlanOf;
      r := pools;
      var ids := InSomeOrder(pools.Keys);
      for index := 0 to |ids|
        invariant r.Keys == pools.Keys
        invariant forall t :: t in pools ==>
          r[t] == if t in ToSet(ids[..index]) then pools[t].(state := HoldAll(pools[t].state, held)) else pools[t]
      {
        SeenGrows(ids, index);
        assert ids[index] in ToSet(ids);
        var state := HeldState(pools[ids[index]].state, held);
        r := r[ids[index] := r[ids[index]].(state := state)];
      }
      assert ids[..|ids|] == ids;
    }

    static method HeldState(state: map<BindingKey, Binding>, held: bool) returns (r: map<BindingKey, Binding>)
      ensures r == HoldAll(state, held)
    {
      hide Booked, Genuine, PlanOf;
      r := state;
      var keys := InSomeOrder(state.Keys);
      for index := 0 to |keys|
        invariant r.Keys == state.Keys
        invariant forall k :: k in state ==>
          r[k] == if k in ToSet(keys[..index]) then state[k].(held := held) else state[k]
      {
        SeenGrows(keys, index);
        assert keys[index] in ToSet(keys);
        r := r[keys[index] := r[keys[index]].(held := held)];
      }
      assert keys[..|keys|] == keys;
    }
  
    method ThawRing(tierID: TierID, ghost before: View, ghost seen: set<TierID>)
      requires Sound() && plan == None && tierID in pools && ValidView(before) && Thawing(before, view, seen)
      modifies this
      ensures Sound() && plan == None && Thawing(before, view, seen + {tierID})
      ensures issued == old(issued) && old(planGeneration) <= planGeneration && pools.Keys == old(pools).Keys
    {
      hide Booked, Genuine, PlanOf;
      RingShown(Books(), view, tierID);
      var p := pools[tierID];
      if |p.order| > 0 {
        AdvanceDiscoveryFrom(p.order[p.discovery]);
      }
      ThawStep(before, old(view), view, seen, tierID);
      InstanceRing(Books(), view);
      InstanceRing(old(Books()), old(view));
      assert pools.Keys == old(pools).Keys;
    }

    /** Passes every ring's credit on from a holder that gained demand or work during the hold. */
    method Thaw()
      requires Sound() && plan == None
      modifies this
      ensures Sound() && plan == None && Thawing(old(view), view, old(view).rings.Keys)
      ensures issued == old(issued) && old(planGeneration) <= planGeneration
    {
      hide Booked, Genuine, PlanOf;
      InstanceRing(Books(), view);
      if |order| > 0 {
        AdvanceDiscoveryFrom(order[discovery]);
      }
      ThawStarts(old(view), view);
      InstanceRing(Books(), view);
      var ids := InSomeOrder(pools.Keys);
      assert ToSet(ids[..0]) == {};
      for index := 0 to |ids|
        invariant Sound() && plan == None && pools.Keys == old(view).rings.Keys == ToSet(ids)
        invariant Thawing(old(view), view, ToSet(ids[..index]))
        invariant issued == old(issued) && old(planGeneration) <= planGeneration
      {
        SeenGrows(ids, index);
        assert ids[index] in ToSet(ids);
        ThawRing(ids[index], old(view), ToSet(ids[..index]));
      }
      assert ids[..|ids|] == ids;
    }

    /** Withholds new credit from every binding, present and future, or restores it. */
    method Hold(held: bool)
      requires Valid()
      modifies this
      ensures Valid() && view == Held(old(view), held) && issued == old(issued)
      ensures Follows(old(view), old(planGeneration))
    {
      hide Booked, Genuine, PlanOf;
      HeldAlike(Books(), view);
      if this.held == held {
        SameInputsReflexive(view);
        return;
      }
      StampStaysGenuine(view, held, issued);
      HoldBindings(held);
      InvalidatePlan();
      if !held {
        ghost var stamped := view;
        Thaw();
        Thawed(old(view), stamped, view, stamped.rings.Keys);
        ThawStaysGenuine(stamped, view, issued);
      }
    }
  }
}
