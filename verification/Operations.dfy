/**
 What each operation of the allocator does to its state, said on views: bindings, rings
 and nothing derived. The class keeps counters and caches besides; its methods are shown
 to do this and no more.
 */
module Operations {
  import opened Base
  import opened Sums
  import opened Ledger
  import opened Planning

  /** One announcement reserved against the remote budget; only BeginPoll makes a valid one. */
  datatype Poll = Poll(key: BindingKey, id: nat, capacity: nat, discovery: bool, discoveryGeneration: nat)

  function Rebind(v: View, k: BindingKey, b: Binding): View {
    v.(bindings := v.bindings[k := b])
  }

  // ---- the discovery ring ----

  predicate Qualifies(bs: map<BindingKey, Binding>, k: BindingKey) { k in bs && bs[k].Silent() }

  /** The first place after the cursor, at distance `i` or more, whose binding qualifies. */
  function Search(r: Ring, bs: map<BindingKey, Binding>, i: nat): (n: nat)
    requires 0 < |r.order|
    decreases |r.order| + 1 - i
  {
    if i > |r.order| then r.cursor
    else
      var next := (r.cursor + i) % |r.order|;
      if Qualifies(bs, r.order[next]) then next else Search(r, bs, i + 1)
  }

  /** The place the credit goes to next; where it is when nobody qualifies. */
  function Next(r: Ring, bs: map<BindingKey, Binding>): nat {
    if r.order == [] then 0 else Search(r, bs, 1)
  }

  function Rotate(r: Ring, bs: map<BindingKey, Binding>): Ring {
    r.(cursor := Next(r, bs), generation := r.generation + 1)
  }

  /** Moves the credit off a holder that does not qualify for it. */
  function Settle(r: Ring, bs: map<BindingKey, Binding>): Ring {
    match HolderOf(r)
    case None => r
    case Some(k) => if Qualifies(bs, k) || Next(r, bs) == r.cursor then r else Rotate(r, bs)
  }

  /** The ring `k` takes its turns in. */
  function RingFor(v: View, k: BindingKey): (r: Ring) {
    if v.limit > 0 then v.ring
    else if k in v.tierOf && v.tierOf[k] in v.rings then v.rings[v.tierOf[k]]
    else Ring([], 0, 0)
  }

  function WithRing(v: View, k: BindingKey, r: Ring): View {
    if v.limit > 0 then v.(ring := r)
    else if k in v.tierOf && v.tierOf[k] in v.rings then v.(rings := v.rings[v.tierOf[k] := r])
    else v
  }

  /** After `k` gained demand or work: if it held the credit, the credit moves on. */
  function AdvanceFrom(v: View, k: BindingKey): View {
    if HolderOf(RingFor(v, k)) == Some(k) then WithRing(v, k, Settle(RingFor(v, k), v.bindings)) else v
  }

  // ---- admission ----

  function Registered(v: View, t: TierID, k: BindingKey, parallelism: nat): View {
    var ring := if t in v.rings then v.rings[t] else Ring([], 0, 0);
    v.(parallelism := v.parallelism[t := parallelism],
       rings := v.rings[t := ring.(order := ring.order + [k])],
       ring := v.ring.(order := v.ring.order + [k]),
       tierOf := v.tierOf[k := t],
       bindings := v.bindings[k := Binding(0, 0, v.held, 0, None, 0, false)])
  }

  function Demanded(v: View, k: BindingKey, demand: int): View {
    var d := Max(demand, 0);
    if k !in v.bindings || v.bindings[k].assignedDemand == d then v
    else
      var changed := Rebind(v, k, v.bindings[k].(assignedDemand := d));
      if d > 0 then AdvanceFrom(changed, k) else changed
  }

  /** A thaw settles every ring: demand and work may have arrived during the hold. */
  function Held(v: View, held: bool): View {
    var bs := map k | k in v.bindings :: v.bindings[k].(held := held);
    var changed := v.(held := held, bindings := bs);
    if v.held == held then v
    else if held then changed
    else if v.limit > 0 then changed.(ring := Settle(v.ring, bs))
    else changed.(rings := map t | t in v.rings :: Settle(v.rings[t], bs))
  }

  ghost function TierActive(v: View, t: TierID): int
    requires Members(v, t) <= v.bindings.Keys
  {
    Sum(Members(v, t), Actives(v.bindings))
  }

  ghost function InstanceActive(v: View): int {
    Sum(v.bindings.Keys, Actives(v.bindings))
  }

  ghost predicate Reservable(v: View, k: BindingKey)
    requires ValidView(v)
  {
    && k in v.bindings && !v.bindings[k].held
    && TierActive(v, v.tierOf[k]) < v.parallelism[v.tierOf[k]]
    && (v.limit > 0 ==> InstanceActive(v) < v.limit)
  }

  ghost predicate OverBudget(v: View, k: BindingKey)
    requires ValidView(v)
  {
    && k in v.bindings
    && (|| TierActive(v, v.tierOf[k]) > v.parallelism[v.tierOf[k]]
        || (v.limit > 0 && InstanceActive(v) > v.limit))
  }

  /** How many more times in a row `k` could be started. */
  ghost function Room(v: View, k: BindingKey): (n: nat)
    requires ValidView(v)
    ensures n > 0 <==> Reservable(v, k)
  {
    if k !in v.bindings || v.bindings[k].held then 0
    else
      var tier := v.parallelism[v.tierOf[k]] - TierActive(v, v.tierOf[k]);
      Max(0, if v.limit > 0 then Min(tier, v.limit - InstanceActive(v)) else tier)
  }

  function Started(v: View, k: BindingKey): View {
    if k !in v.bindings then v
    else AdvanceFrom(Rebind(v, k, v.bindings[k].(active := v.bindings[k].active + 1)), k)
  }

  function Released(v: View, k: BindingKey): View {
    if k !in v.bindings || v.bindings[k].active == 0 then v
    else Rebind(v, k, v.bindings[k].(active := v.bindings[k].active - 1))
  }

  // ---- provider sessions and polls ----

  function Opened(v: View, k: BindingKey): View {
    if k !in v.bindings then v
    else Rebind(v, k, v.bindings[k].(published := 0, pending := None, remoteKnown := true))
  }

  function Closed(v: View, k: BindingKey, confirmed: bool): View {
    if k !in v.bindings then v
    else
      var b := v.bindings[k];
      Rebind(v, k, b.(published := if confirmed then 0 else b.Effective(), pending := None, remoteKnown := confirmed))
  }

  /** Every predecessor session sharing the budget of `k` is accounted for. */
  ghost predicate AllKnown(v: View, k: BindingKey)
    requires ValidView(v) && k in v.bindings
  {
    forall j :: j in v.bindings && (v.limit > 0 || v.tierOf[j] == v.tierOf[k]) ==> v.bindings[j].remoteKnown
  }

  /** What the other bindings may hold remotely leaves this much for `k`. */
  ghost function Spare(v: View, k: BindingKey): int
    requires ValidView(v) && k in v.bindings
  {
    var t := v.tierOf[k];
    var tier := v.parallelism[t] - Sum(Members(v, t) - {k}, Effectives(v.bindings));
    if v.limit > 0 then Min(tier, v.limit - Sum(v.bindings.Keys - {k}, Effectives(v.bindings))) else tier
  }

  ghost function Announcement(v: View, k: BindingKey): int
    requires ValidView(v) && k in v.bindings
  {
    var desired := if AllKnown(v, k) then Desired(v)[k] else 0;
    if desired <= 0 then 0 else Min(desired, Max(Spare(v, k), 0))
  }

  /** The announcement is the discovery credit's. */
  predicate Discovers(v: View, k: BindingKey, capacity: int) {
    capacity != 0 && Qualifies(v.bindings, k) && HolderOf(RingFor(v, k)) == Some(k)
  }

  predicate MayPoll(v: View, k: BindingKey) { k in v.bindings && v.bindings[k].pending.None? }

  function Announced(v: View, k: BindingKey, capacity: nat): View {
    if !MayPoll(v, k) then v
    else
      var b := v.bindings[k];
      Rebind(v, k, b.(pollID := b.pollID + 1, pending := Some(PendingPoll(b.pollID + 1, capacity))))
  }

  function Ticket(v: View, k: BindingKey, capacity: nat): Poll {
    if !MayPoll(v, k) then Poll(k, 0, 0, false, 0)
    else
      var discovery := Discovers(v, k, capacity);
      Poll(k, v.bindings[k].pollID + 1, capacity, discovery, if discovery then RingFor(v, k).generation else 0)
  }

  predicate Current(v: View, p: Poll) {
    p.key in v.bindings && v.bindings[p.key].pending.Some? && v.bindings[p.key].pending.value.id == p.id
  }

  function Answered(v: View, p: Poll, succeeded: bool): View {
    if !Current(v, p) then v
    else
      var b := v.bindings[p.key];
      Rebind(v, p.key, b.(published := if succeeded then p.capacity else Max(p.capacity, b.published), pending := None))
  }

  function Rotated(v: View, p: Poll): View {
    var r := RingFor(v, p.key);
    if p.discoveryGeneration == r.generation && HolderOf(r) == Some(p.key)
    then WithRing(v, p.key, Rotate(r, v.bindings)) else v
  }

  function Completed(v: View, p: Poll, succeeded: bool, empty: bool): View {
    var answered := Answered(v, p, succeeded);
    if Current(v, p) && succeeded && empty && p.discovery then Rotated(answered, p) else answered
  }

  /** Polls are genuine: an answer to one that is still pending is about the capacity it reserved. */
  ghost predicate Genuine(v: View, issued: set<Poll>) {
    forall p :: p in issued ==> Honest(v, p)
  }

  ghost predicate Honest(v: View, p: Poll) {
    && p.id <= (if p.key in v.bindings then v.bindings[p.key].pollID else 0)
    && (Current(v, p) ==> v.bindings[p.key].pending.value.capacity == p.capacity)
  }
}
