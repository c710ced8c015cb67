/**
 Whether the host can carry the worst set of workloads admission can let in.

 `SumLargest` takes the most expensive envelopes first. It is the exact maximum over every
 workload set within each tier's parallelism and the instance's limit, cut off at the largest
 64-bit integer; so a host that passes carries every state reservations can reach.
 */
module Capacity {
  import opened Base
  import opened Sums

  const MAX_INT64: nat := 0x7fff_ffff_ffff_ffff

  datatype Resources = Resources(memory: nat, swap: nat, nanoCPUs: nat)

  datatype Tier = Tier(id: TierID, parallelism: nat, resources: Resources)

  /** Tiers as the configuration lists them: each once, none with no parallelism. */
  ghost predicate Configured(tiers: seq<Tier>) {
    && (forall i, j :: 0 <= i < j < |tiers| ==> tiers[i].id != tiers[j].id)
    && (forall i :: 0 <= i < |tiers| ==> 1 <= tiers[i].parallelism)
  }

  ghost function Ids(tiers: seq<Tier>): set<TierID> { set i | 0 <= i < |tiers| :: tiers[i].id }

  /** One resource of every tier, with how often it may be taken. */
  datatype Weighted = Weighted(id: TierID, value: nat, count: nat)

  /** How many workloads of each tier run. */
  type Load = map<TierID, nat>

  ghost predicate Listed(ws: seq<Weighted>) {
    && (forall i, j :: 0 <= i < j < |ws| ==> ws[i].id != ws[j].id)
    && (forall i :: 0 <= i < |ws| ==> 1 <= ws[i].count)
  }

  ghost predicate Falling(ws: seq<Weighted>) {
    forall i, j :: 0 <= i < j < |ws| ==> ws[j].value <= ws[i].value
  }

  ghost predicate Within(ws: seq<Weighted>, load: Load) {
    forall i :: 0 <= i < |ws| ==> ws[i].id in load && load[ws[i].id] <= ws[i].count
  }

  ghost function Workloads(ws: seq<Weighted>, load: Load): nat
    requires Within(ws, load)
  {
    if ws == [] then 0 else load[ws[0].id] + Workloads(ws[1..], load)
  }

  ghost function Need(ws: seq<Weighted>, load: Load): nat
    requires Within(ws, load)
  {
    if ws == [] then 0 else ws[0].value * load[ws[0].id] + Need(ws[1..], load)
  }

  /** Most expensive first, as many as the limit leaves. */
  function Greedy(ws: seq<Weighted>, limit: nat): nat {
    if ws == [] then 0
    else
      var take := Min(ws[0].count, limit);
      ws[0].value * take + Greedy(ws[1..], limit - take)
  }

  /** One more workload costs at most the most expensive one. */
  lemma {:induction false} OneMoreCosts(ws: seq<Weighted>, limit: nat, extra: nat, most: nat)
    requires forall i :: 0 <= i < |ws| ==> ws[i].value <= most
    ensures Greedy(ws, limit + extra) <= Greedy(ws, limit) + extra * most
  {
    if ws != [] {
      var a, b := Min(ws[0].count, limit), Min(ws[0].count, limit + extra);
      var v := ws[0].value;
      OneMoreCosts(ws[1..], limit - a, extra - (b - a), most);
      assert limit + extra - b == (limit - a) + (extra - (b - a));
      Spread(a, b, v, extra, most);
    }
  }

  lemma Spread(a: nat, b: nat, v: nat, extra: nat, most: nat)
    requires a <= b <= a + extra && v <= most
    ensures v * b + (extra - (b - a)) * most <= v * a + extra * most
  {
    assert v * (b - a) <= (b - a) * most;
    assert v * b == v * a + v * (b - a);
    assert (extra - (b - a)) * most == extra * most - (b - a) * most;
  }

  lemma Distribute(v: nat, take: nat, c: nat)
    requires c <= take
    ensures v * take == v * c + (take - c) * v
  {
  }

  /** No workload set within the limits needs more. */
  lemma {:induction false} GreedyIsWorst(ws: seq<Weighted>, limit: nat, load: Load)
    requires Falling(ws) && Within(ws, load) && Workloads(ws, load) <= limit
    ensures Need(ws, load) <= Greedy(ws, limit)
  {
    if ws != [] {
      var c, take, v := load[ws[0].id], Min(ws[0].count, limit), ws[0].value;
      GreedyIsWorst(ws[1..], limit - c, load);
      OneMoreCosts(ws[1..], limit - take, take - c, v);
      Distribute(v, take, c);
    }
  }

  /** And one of them needs as much. */
  lemma {:induction false} GreedyIsReached(ws: seq<Weighted>, limit: nat) returns (load: Load)
    requires Listed(ws)
    ensures Within(ws, load) && Workloads(ws, load) <= limit && Need(ws, load) == Greedy(ws, limit)
    ensures load.Keys == set i | 0 <= i < |ws| :: ws[i].id
  {
    if ws == [] {
      load := map[];
    } else {
      var take := Min(ws[0].count, limit);
      var rest := GreedyIsReached(ws[1..], limit - take);
      load := rest[ws[0].id := take];
      OthersAlike(ws[1..], rest, load);
    }
  }

  lemma {:induction false} OthersAlike(ws: seq<Weighted>, a: Load, b: Load)
    requires Within(ws, a) && forall i :: 0 <= i < |ws| ==> ws[i].id in b && b[ws[i].id] == a[ws[i].id]
    ensures Within(ws, b) && Workloads(ws, b) == Workloads(ws, a) && Need(ws, b) == Need(ws, a)
  {
    if ws != [] {
      OthersAlike(ws[1..], a, b);
    }
  }

  // ---- the order of the tiers does not matter ----

  lemma {:induction false} TakeOut(ws: seq<Weighted>, load: Load, i: nat)
    requires Within(ws, load) && i < |ws|
    ensures var rest := ws[..i] + ws[i + 1..];
            && Within(rest, load)
            && Workloads(ws, load) == load[ws[i].id] + Workloads(rest, load)
            && Need(ws, load) == ws[i].value * load[ws[i].id] + Need(rest, load)
  {
    var rest := ws[..i] + ws[i + 1..];
    if i == 0 {
      assert rest == ws[1..];
    } else {
      TakeOut(ws[1..], load, i - 1);
      assert rest[1..] == ws[1..][..i - 1] + ws[1..][i..];
    }
  }

  lemma Without(vs: seq<Weighted>, i: nat)
    requires i < |vs|
    ensures multiset(vs[..i] + vs[i + 1..]) == multiset(vs) - multiset{vs[i]}
  {
    assert vs == vs[..i] + [vs[i]] + vs[i + 1..];
  }

  lemma SameRest(ws: seq<Weighted>, vs: seq<Weighted>, i: nat)
    requires ws != [] && i < |vs| && vs[i] == ws[0] && multiset(ws) == multiset(vs)
    ensures multiset(ws[1..]) == multiset(vs[..i] + vs[i + 1..])
  {
    Without(vs, i);
    assert ws == [ws[0]] + ws[1..];
  }

  lemma {:induction false} Rearranged(ws: seq<Weighted>, vs: seq<Weighted>, load: Load)
    requires multiset(ws) == multiset(vs) && Within(ws, load)
    ensures Within(vs, load) && Workloads(vs, load) == Workloads(ws, load) && Need(vs, load) == Need(ws, load)
  {
    if ws == [] {
      assert |multiset(vs)| == |multiset(ws)|;
    } else {
      assert ws[0] in multiset(vs);
      var i :| 0 <= i < |vs| && vs[i] == ws[0];
      var rest := vs[..i] + vs[i + 1..];
      SameRest(ws, vs, i);
      Rearranged(ws[1..], rest, load);
      WithinTogether(vs, i, load);
      TakeOut(vs, load, i);
    }
  }

  lemma WithinTogether(vs: seq<Weighted>, i: nat, load: Load)
    requires i < |vs| && Within(vs[..i] + vs[i + 1..], load) && vs[i].id in load && load[vs[i].id] <= vs[i].count
    ensures Within(vs, load)
  {
    var rest := vs[..i] + vs[i + 1..];
    forall j | 0 <= j < |vs| ensures vs[j].id in load && load[vs[j].id] <= vs[j].count {
      if j < i {
        assert rest[j] == vs[j];
      } else if i < j {
        assert rest[j - 1] == vs[j];
      }
    }
  }

  /** `most` is what the worst workload set within the limits needs. */
  ghost predicate IsWorst(ws: seq<Weighted>, limit: nat, most: nat) {
    && (forall load :: Within(ws, load) && Workloads(ws, load) <= limit ==> Need(ws, load) <= most)
    && (exists load :: Within(ws, load) && Workloads(ws, load) <= limit && Need(ws, load) == most)
  }

  lemma GreedyOnSorted(ws: seq<Weighted>, vs: seq<Weighted>, limit: nat)
    requires multiset(ws) == multiset(vs) && Listed(vs) && Falling(vs)
    ensures IsWorst(ws, limit, Greedy(vs, limit))
  {
    forall load | Within(ws, load) && Workloads(ws, load) <= limit ensures Need(ws, load) <= Greedy(vs, limit) {
      Rearranged(ws, vs, load);
      GreedyIsWorst(vs, limit, load);
    }
    var load := GreedyIsReached(vs, limit);
    Rearranged(vs, ws, load);
  }

  // ---- the computation ----

  lemma InsertedFalling(vs: seq<Weighted>, w: Weighted, j: nat)
    requires Falling(vs) && j <= |vs| && (j > 0 ==> w.value <= vs[j - 1].value)
    requires forall k :: j <= k < |vs| ==> vs[k].value < w.value
    ensures Falling(vs[..j] + [w] + vs[j..])
  {
    var r := vs[..j] + [w] + vs[j..];
    forall a, b | 0 <= a < b < |r| ensures r[b].value <= r[a].value {
      assert a < j ==> w.value <= vs[j - 1].value <= vs[a].value;
    }
  }

  method InsertFalling(vs: seq<Weighted>, w: Weighted) returns (r: seq<Weighted>)
    requires Falling(vs)
    ensures Falling(r) && multiset(r) == multiset(vs) + multiset{w}
  {
    var j := |vs|;
    while j > 0 && vs[j - 1].value < w.value
      invariant 0 <= j <= |vs|
      invariant forall k :: j <= k < |vs| ==> vs[k].value < w.value
    {
      j := j - 1;
    }
    InsertedFalling(vs, w, j);
    assert vs == vs[..j] + vs[j..];
    r := vs[..j] + [w] + vs[j..];
  }

  method SortFalling(ws: seq<Weighted>) returns (vs: seq<Weighted>)
    ensures multiset(vs) == multiset(ws) && Falling(vs)
  {
    vs := [];
    for i := 0 to |ws|
      invariant multiset(vs) == multiset(ws[..i]) && Falling(vs)
    {
      vs := InsertFalling(vs, ws[i]);
      assert ws[..i + 1] == ws[..i] + [ws[i]];
    }
    assert ws[..|ws|] == ws;
  }

  lemma ListedStays(ws: seq<Weighted>, vs: seq<Weighted>)
    requires Listed(ws) && multiset(ws) == multiset(vs)
    ensures Listed(vs)
  {
    forall i | 0 <= i < |vs| ensures vs[i] in ws {
      assert vs[i] in multiset(vs);
    }
    forall i, j | 0 <= i < j < |vs| ensures vs[i].id != vs[j].id {
      if vs[i] == vs[j] {
        assert vs == vs[..i] + [vs[i]] + vs[i + 1..j] + [vs[j]] + vs[j + 1..];
        assert multiset(vs)[vs[i]] >= 2;
        OnceEach(ws, vs[i]);
      }
    }
  }

  lemma {:induction false} OnceEach(ws: seq<Weighted>, w: Weighted)
    requires forall i, j :: 0 <= i < j < |ws| ==> ws[i].id != ws[j].id
    ensures multiset(ws)[w] <= 1
  {
    if ws != [] {
      OnceEach(ws[1..], w);
      assert ws == [ws[0]] + ws[1..];
      assert forall j :: 0 <= j < |ws[1..]| ==> ws[1..][j] == ws[j + 1];
      assert ws[0] == w ==> w !in ws[1..];
    }
  }

  /** One tier's part of the sum, or where it stops. */
  method AddTier(total: nat, w: Weighted, left: nat, ghost rest: seq<Weighted>)
    returns (total': nat, left': nat, overflows: bool)
    requires total <= MAX_INT64 && 1 <= w.count && 0 < left && rest != [] && rest[0] == w
    ensures left' <= left
    ensures overflows ==> total + Greedy(rest, left) > MAX_INT64
    ensures !overflows ==> total' <= MAX_INT64 && total + Greedy(rest, left) == total' + Greedy(rest[1..], left')
  {
    var count := if w.count < left then w.count else left;
    left' := left - count;
    if w.value > 0 && count > (MAX_INT64 - total) / w.value {
      Overflows(count, w.value, MAX_INT64 - total);
      return total, left', true;
    }
    FitsStill(count, w.value, MAX_INT64 - total);
    return total + w.value * count, left', false;
  }

  method SumLargest(ws: seq<Weighted>, limit: nat) returns (total: nat)
    requires Listed(ws)
    ensures exists most: nat :: IsWorst(ws, limit, most) && total == Min(most, MAX_INT64)
  {
    var values := SortFalling(ws);
    ListedStays(ws, values);
    GreedyOnSorted(ws, values, limit);
    ghost var most := Greedy(values, limit);
    assert IsWorst(ws, limit, most);
    total := 0;
    var left := limit;
    for i := 0 to |values|
      invariant total <= MAX_INT64 && 0 <= left && most == total + Greedy(values[i..], left)
    {
      if left <= 0 {
        NothingLeft(values[i..]);
        return;
      }
      var overflows;
      assert values[i..][1..] == values[i + 1..];
      total, left, overflows := AddTier(total, values[i], left, values[i..]);
      if overflows {
        return MAX_INT64;
      }
    }
  }

  lemma {:induction false} NothingLeft(ws: seq<Weighted>)
    ensures Greedy(ws, 0) == 0
  {
    if ws != [] {
      NothingLeft(ws[1..]);
    }
  }

  lemma Overflows(count: nat, value: nat, room: nat)
    requires value > 0 && count > room / value
    ensures value * count > room
  {
    assert room < value * (room / value + 1);
    assert value * (room / value + 1) <= value * count;
  }

  lemma FitsStill(count: nat, value: nat, room: nat)
    requires value > 0 ==> count <= room / value
    ensures value * count <= room
  {
    if value > 0 {
      assert value * count <= value * (room / value) <= room;
    }
  }

  function SaturatingAdd(a: nat, b: nat): (r: nat)
    requires a <= MAX_INT64 && b <= MAX_INT64
    ensures r == Min(a + b, 9_223_372_036_854_775_807)
  {
    if b > MAX_INT64 - a then MAX_INT64 else a + b
  }

  // ---- the check ----

  datatype Host = Host(memory: nat, swap: nat, swapKnown: bool, cpus: nat)

  datatype Dimension = Memory | Swap | CPU

  function Amount(r: Resources, d: Dimension): nat {
    match d
    case Memory => r.memory
    case Swap => r.swap
    case CPU => r.nanoCPUs
  }

  function Total(h: Host, d: Dimension): nat {
    match d
    case Memory => h.memory
    case Swap => h.swap
    case CPU => h.cpus * 1_000_000_000
  }

  function Weights(tiers: seq<Tier>, d: Dimension): seq<Weighted> {
    seq(|tiers|, i requires 0 <= i < |tiers| => Weighted(tiers[i].id, Amount(tiers[i].resources, d), tiers[i].parallelism))
  }

  function TotalParallelism(tiers: seq<Tier>): nat {
    if tiers == [] then 0 else TotalParallelism(tiers[..|tiers| - 1]) + tiers[|tiers| - 1].parallelism
  }

  /** A set of workloads admission can let in: within each tier, and within the instance if it has a limit. */
  ghost predicate Admissible(tiers: seq<Tier>, instance: Option<nat>, load: Load) {
    && Within(Weights(tiers, Memory), load)
    && (instance.Some? ==> Workloads(Weights(tiers, Memory), load) <= instance.value)
  }

  lemma {:induction false} SameLoads(ws: seq<Weighted>, vs: seq<Weighted>, load: Load)
    requires |ws| == |vs| && forall i :: 0 <= i < |ws| ==> ws[i].id == vs[i].id && ws[i].count == vs[i].count
    ensures Within(ws, load) <==> Within(vs, load)
    ensures Within(ws, load) ==> Workloads(ws, load) == Workloads(vs, load)
  {
    if ws != [] {
      assert Within(ws, load) ==> Within(ws[1..], load) && Within(vs, load);
      SameLoads(ws[1..], vs[1..], load);
    }
  }

  lemma {:induction false} WorkloadsBounded(tiers: seq<Tier>, d: Dimension, load: Load)
    requires Within(Weights(tiers, d), load)
    ensures Workloads(Weights(tiers, d), load) <= TotalParallelism(tiers)
  {
    if tiers != [] {
      var n := |tiers| - 1;
      var ws := Weights(tiers, d);
      TakeOut(ws, load, n);
      assert ws[..n] + ws[n + 1..] == Weights(tiers[..n], d);
      WorkloadsBounded(tiers[..n], d, load);
    }
  }

  /** What the worst admissible load needs of one resource, and a load that needs it. */
  ghost predicate Requires(tiers: seq<Tier>, instance: Option<nat>, d: Dimension, most: nat) {
    && (forall load :: Admissible(tiers, instance, load) ==> Within(Weights(tiers, d), load) && Need(Weights(tiers, d), load) <= most)
    && (exists load :: Admissible(tiers, instance, load) && Within(Weights(tiers, d), load) && Need(Weights(tiers, d), load) == most)
  }

  lemma WorstIsRequired(tiers: seq<Tier>, instance: Option<nat>, d: Dimension, limit: nat, most: nat)
    requires limit == if instance.Some? && instance.value < TotalParallelism(tiers) then instance.value else TotalParallelism(tiers)
    requires IsWorst(Weights(tiers, d), limit, most)
    ensures Requires(tiers, instance, d, most)
  {
    var ws, vs := Weights(tiers, d), Weights(tiers, Memory);
    forall load | Admissible(tiers, instance, load) ensures Within(ws, load) && Need(ws, load) <= most {
      SameLoads(vs, ws, load);
      WorkloadsBounded(tiers, d, load);
    }
    var load :| Within(ws, load) && Workloads(ws, load) <= limit && Need(ws, load) == most;
    SameLoads(vs, ws, load);
    assert Admissible(tiers, instance, load);
  }

  method CapacityRequirement(tiers: seq<Tier>, instance: Option<nat>, d: Dimension) returns (need: nat)
    requires Configured(tiers)
    ensures exists most: nat :: Requires(tiers, instance, d, most) && need == Min(most, 9_223_372_036_854_775_807)
  {
    var totalParallelism := 0;
    for i := 0 to |tiers|
      invariant totalParallelism == TotalParallelism(tiers[..i])
    {
      assert tiers[..i + 1][..i] == tiers[..i];
      totalParallelism := totalParallelism + tiers[i].parallelism;
    }
    assert tiers[..|tiers|] == tiers;
    var limit := totalParallelism;
    if instance.Some? && instance.value < limit {
      limit := instance.value;
    }
    need := SumLargest(Weights(tiers, d), limit);
    ghost var most: nat :| IsWorst(Weights(tiers, d), limit, most) && need == Min(most, MAX_INT64);
    WorstIsRequired(tiers, instance, d, limit, most);
  }

  /** Every admissible load, with the reserve on top, fits the host in this resource. */
  ghost predicate Carries(tiers: seq<Tier>, instance: Option<nat>, reserve: Resources, h: Host, d: Dimension) {
    forall load :: Admissible(tiers, instance, load) && Within(Weights(tiers, d), load) ==>
      Need(Weights(tiers, d), load) + Amount(reserve, d) <= Total(h, d)
  }

  lemma CarriesExactly(tiers: seq<Tier>, instance: Option<nat>, reserve: Resources, h: Host, d: Dimension, most: nat)
    requires Requires(tiers, instance, d, most)
    ensures Carries(tiers, instance, reserve, h, d) <==> most + Amount(reserve, d) <= Total(h, d)
  {
  }

  /** What a load draws of one resource. */
  ghost function Draw(tiers: seq<Tier>, load: Load, f: Resources -> nat): nat
    requires forall i :: 0 <= i < |tiers| ==> tiers[i].id in load
  {
    if tiers == [] then 0 else load[tiers[0].id] * f(tiers[0].resources) + Draw(tiers[1..], load, f)
  }

  lemma {:induction false} NeedIsDraw(tiers: seq<Tier>, load: Load, d: Dimension, f: Resources -> nat)
    requires Within(Weights(tiers, d), load) && (forall i :: 0 <= i < |tiers| ==> tiers[i].id in load)
    requires forall r :: f(r) == Amount(r, d)
    ensures Need(Weights(tiers, d), load) == Draw(tiers, load, f)
  {
    if tiers != [] {
      assert Weights(tiers, d)[1..] == Weights(tiers[1..], d);
      NeedIsDraw(tiers[1..], load, d, f);
    }
  }

  /** The host has the memory, the swap and the processors for the load and the reserve. */
  ghost predicate Houses(h: Host, tiers: seq<Tier>, reserve: Resources, load: Load) {
    && (forall i :: 0 <= i < |tiers| ==> tiers[i].id in load)
    && Draw(tiers, load, (r: Resources) => r.memory) + reserve.memory <= h.memory
    && Draw(tiers, load, (r: Resources) => r.swap) + reserve.swap <= h.swap
    && Draw(tiers, load, (r: Resources) => r.nanoCPUs) + reserve.nanoCPUs <= h.cpus * 1_000_000_000
  }

  lemma HousesExactly(tiers: seq<Tier>, instance: Option<nat>, reserve: Resources, h: Host)
    ensures (forall d :: Carries(tiers, instance, reserve, h, d)) <==>
            forall load :: Admissible(tiers, instance, load) ==> Houses(h, tiers, reserve, load)
  {
    hide Houses, Admissible, Amount, Total;
    if forall d :: Carries(tiers, instance, reserve, h, d) {
      forall load | Admissible(tiers, instance, load) ensures Houses(h, tiers, reserve, load) {
        HousesLoad(tiers, instance, reserve, h, load);
        forall d ensures Need(Weights(tiers, d), load) + Amount(reserve, d) <= Total(h, d) {
          assert Carries(tiers, instance, reserve, h, d);
        }
      }
    }
    if forall load :: Admissible(tiers, instance, load) ==> Houses(h, tiers, reserve, load) {
      forall d, load | Admissible(tiers, instance, load) && Within(Weights(tiers, d), load)
        ensures Need(Weights(tiers, d), load) + Amount(reserve, d) <= Total(h, d)
      {
        HousesLoad(tiers, instance, reserve, h, load);
      }
    }
  }

  lemma HousesLoad(tiers: seq<Tier>, instance: Option<nat>, reserve: Resources, h: Host, load: Load)
    requires Admissible(tiers, instance, load)
    ensures forall d :: Within(Weights(tiers, d), load)
    ensures Houses(h, tiers, reserve, load) <==>
            forall d :: Need(Weights(tiers, d), load) + Amount(reserve, d) <= Total(h, d)
  {
    forall d ensures Within(Weights(tiers, d), load) {
      SameLoads(Weights(tiers, Memory), Weights(tiers, d), load);
    }
    forall i | 0 <= i < |tiers| ensures tiers[i].id in load {
      assert Weights(tiers, Memory)[i].id in load;
    }
    NeedIsDraw(tiers, load, Memory, (r: Resources) => r.memory);
    NeedIsDraw(tiers, load, Swap, (r: Resources) => r.swap);
    NeedIsDraw(tiers, load, CPU, (r: Resources) => r.nanoCPUs);
    if Houses(h, tiers, reserve, load) {
      forall d ensures Need(Weights(tiers, d), load) + Amount(reserve, d) <= Total(h, d) {
        match d
        case Memory =>
        case Swap =>
        case CPU =>
      }
    }
  }

  method FitsIn(tiers: seq<Tier>, instance: Option<nat>, reserve: Resources, h: Host, d: Dimension)
    returns (needed: nat, fits: bool)
    requires Configured(tiers) && Amount(reserve, d) <= MAX_INT64 && Total(h, d) < MAX_INT64
    ensures fits <==> Carries(tiers, instance, reserve, h, d)
    ensures needed == 0 <==> Amount(reserve, d) == 0 && Requires(tiers, instance, d, 0)
  {
    needed := CapacityRequirement(tiers, instance, d);
    ghost var most: nat :| Requires(tiers, instance, d, most) && needed == Min(most, MAX_INT64);
    CarriesExactly(tiers, instance, reserve, h, d, most);
    needed := SaturatingAdd(needed, Amount(reserve, d));
    fits := needed <= Total(h, d);
  }

  /** Passes exactly when every load admission can let in fits, and swap is known where it is needed. */
  method PhysicalCapacity(tiers: seq<Tier>, instance: Option<nat>, reserve: Resources, h: Host) returns (pass: bool)
    requires Configured(tiers) && forall d :: Amount(reserve, d) <= MAX_INT64 && Total(h, d) < MAX_INT64
    ensures pass <==> && (forall d :: Carries(tiers, instance, reserve, h, d))
                      && (h.swapKnown || (reserve.swap == 0 && Requires(tiers, instance, Swap, 0)))
    ensures pass ==> forall load :: Admissible(tiers, instance, load) ==> Houses(h, tiers, reserve, load)
  {
    HousesExactly(tiers, instance, reserve, h);
    var memory, fitsMemory := FitsIn(tiers, instance, reserve, h, Memory);
    var cpu, fitsCPU := FitsIn(tiers, instance, reserve, h, CPU);
    var swap, fitsSwap := FitsIn(tiers, instance, reserve, h, Swap);
    if !fitsMemory {
      return false;
    }
    if !fitsCPU {
      return false;
    }
    if swap > 0 && !h.swapKnown {
      return false;
    }
    if !fitsSwap {
      return false;
    }
    forall d ensures Carries(tiers, instance, reserve, h, d) {
      match d
      case Memory =>
      case Swap =>
      case CPU =>
    }
    return true;
  }
}
