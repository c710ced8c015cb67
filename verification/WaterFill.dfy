/**
 The batch form: raise the least-filled candidates to a common level found by binary
 search, then hand the remainder out in candidate order.
 */
module WaterFill {
  import opened Base
  import opened Work

  datatype Candidate = Candidate(key: BindingKey, floor: nat, ceiling: nat)

  /** The credits it takes to raise one candidate to `level`. */
  function Lift(c: Candidate, level: int): nat {
    Max(0, Min(c.ceiling, level) - c.floor)
  }

  function Credits(cs: seq<Candidate>, level: int): nat {
    if cs == [] then 0 else Credits(cs[..|cs| - 1], level) + Lift(cs[|cs| - 1], level)
  }

  /** The credits a vector of capacities spends above the floors. */
  function Spent(cs: seq<Candidate>, caps: seq<int>): int
    requires |caps| == |cs|
  {
    if cs == [] then 0
    else Spent(cs[..|cs| - 1], caps[..|cs| - 1]) + caps[|cs| - 1] - cs[|cs| - 1].floor
  }

  /** Where a candidate may rise to when no level above `limit` is open. */
  function Cap(c: Candidate, limit: int): int { Min(c.ceiling, limit) }

  function Target(c: Candidate, limit: int, level: int): int {
    Max(c.floor, Min(Cap(c, limit), level))
  }

  /** Capacities after the first `p` candidates took one credit above `level`. */
  function Stair(cs: seq<Candidate>, limit: int, level: int, p: nat): seq<int> {
    seq(|cs|, i requires 0 <= i < |cs| => Target(cs[i], limit, if i < p then level + 1 else level))
  }

  function Floors(cs: seq<Candidate>): seq<int> {
    seq(|cs|, i requires 0 <= i < |cs| => cs[i].floor)
  }

  /**
   A tier's credits are shared max-min fairly: within the budget, nobody below its cap
   while a credit is left, and no credit taken above another candidate's level, earlier
   candidates first on a tie.
   */
  ghost predicate Filled(cs: seq<Candidate>, budget: int, limit: int, caps: seq<int>) {
    && |caps| == |cs|
    && (forall i :: 0 <= i < |cs| ==>
         cs[i].floor <= caps[i] && (cs[i].floor < caps[i] ==> caps[i] <= Cap(cs[i], limit)))
    && Spent(cs, caps) <= budget
    && (forall j :: 0 <= j < |cs| && caps[j] < Cap(cs[j], limit) ==> Spent(cs, caps) == budget)
    && (forall i, j | 0 <= i < |cs| && 0 <= j < |cs|
         :: cs[i].floor < caps[i] && caps[j] < Cap(cs[j], limit) ==>
              caps[i] - 1 < caps[j] || (caps[i] - 1 == caps[j] && i < j))
  }

  lemma {:induction false} SpentUpdate(cs: seq<Candidate>, caps: seq<int>, i: nat, v: int)
    requires |caps| == |cs| && i < |cs|
    ensures Spent(cs, caps[i := v]) == Spent(cs, caps) + v - caps[i]
  {
    var n := |cs| - 1;
    if i < n {
      SpentUpdate(cs[..n], caps[..n], i, v);
      assert caps[i := v][..n] == caps[..n][i := v];
    } else {
      assert caps[i := v][..n] == caps[..n];
    }
  }

  lemma {:induction false} SpentAtLevel(cs: seq<Candidate>, caps: seq<int>, level: int)
    requires |caps| == |cs|
    requires forall i :: 0 <= i < |cs| ==> caps[i] - cs[i].floor == Lift(cs[i], level)
    ensures Spent(cs, caps) == Credits(cs, level)
  {
    if cs != [] {
      SpentAtLevel(cs[..|cs| - 1], caps[..|cs| - 1], level);
    }
  }

  lemma {:induction false} CreditsSameLift(cs: seq<Candidate>, l: int, l': int)
    requires forall i :: 0 <= i < |cs| ==> Lift(cs[i], l) <= Lift(cs[i], l')
    ensures Credits(cs, l) <= Credits(cs, l')
    ensures (forall i :: 0 <= i < |cs| ==> Lift(cs[i], l) == Lift(cs[i], l'))
      ==> Credits(cs, l) == Credits(cs, l')
  {
    if cs != [] {
      CreditsSameLift(cs[..|cs| - 1], l, l');
    }
  }

  lemma {:induction false} CreditsBelowFloors(cs: seq<Candidate>, level: int)
    requires forall i :: 0 <= i < |cs| ==> level <= cs[i].floor
    ensures Credits(cs, level) == 0
  {
    if cs != [] {
      CreditsBelowFloors(cs[..|cs| - 1], level);
    }
  }

  lemma StairCredits(cs: seq<Candidate>, limit: int, level: int)
    requires level <= limit
    ensures Spent(cs, Stair(cs, limit, level, 0)) == Credits(cs, level)
    ensures level < limit ==> Spent(cs, Stair(cs, limit, level, |cs|)) == Credits(cs, level + 1)
  {
    SpentAtLevel(cs, Stair(cs, limit, level, 0), level);
    if level < limit {
      SpentAtLevel(cs, Stair(cs, limit, level, |cs|), level + 1);
    }
  }

  lemma StairBetween(cs: seq<Candidate>, limit: int, level: int, p: nat)
    requires p <= |cs|
    ensures var caps := Stair(cs, limit, level, p);
            && |caps| == |cs|
            && (forall i :: 0 <= i < |cs| ==>
                 cs[i].floor <= caps[i] && (cs[i].floor < caps[i] ==> caps[i] <= Cap(cs[i], limit)))
            && (forall i :: 0 <= i < |cs| && Cap(cs[i], limit) <= level ==> Cap(cs[i], limit) <= caps[i])
  {
  }

  lemma StairIsFilled(cs: seq<Candidate>, budget: int, limit: int, level: int, p: nat)
    requires p <= |cs| && Spent(cs, Stair(cs, limit, level, p)) <= budget
    requires
      || Spent(cs, Stair(cs, limit, level, p)) == budget
      || (forall i :: 0 <= i < |cs| ==> Cap(cs[i], limit) <= level)
    ensures Filled(cs, budget, limit, Stair(cs, limit, level, p))
  {
    var caps := Stair(cs, limit, level, p);
    StairBetween(cs, limit, level, p);
    forall i, j | 0 <= i < |cs| && 0 <= j < |cs| && cs[i].floor < caps[i] && caps[j] < Cap(cs[j], limit)
      ensures caps[i] - 1 < caps[j] || (caps[i] - 1 == caps[j] && i < j)
    {
      StairOrdered(cs[i], cs[j], limit, level, i, j, p);
    }
  }

  lemma StairOrdered(c: Candidate, d: Candidate, limit: int, level: int, i: nat, j: nat, p: nat)
    requires c.floor < Target(c, limit, if i < p then level + 1 else level)
    requires Target(d, limit, if j < p then level + 1 else level) < Cap(d, limit)
    ensures
      var mine := Target(c, limit, if i < p then level + 1 else level) - 1;
      var theirs := Target(d, limit, if j < p then level + 1 else level);
      mine < theirs || (mine == theirs && i < j)
  {
  }

  method CreditsAtLevel(cs: seq<Candidate>, level: int, stopAfter: int)
    returns (used: int, inspected: nat)
    ensures used > stopAfter <==> Credits(cs, level) > stopAfter
    ensures used <= stopAfter ==> used == Credits(cs, level)
    ensures inspected <= |cs|
  {
    used := 0;
    for index := 0 to |cs|
      invariant used == Credits(cs[..index], level)
      invariant index > 0 ==> used <= stopAfter
    {
      var target := cs[index].ceiling;
      if target > level {
        target := level;
      }
      assert cs[..index + 1][..index] == cs[..index];
      if target > cs[index].floor {
        used := used + target - cs[index].floor;
      }
      if used > stopAfter {
        CreditsPrefix(cs, level, index + 1);
        return used, index + 1;
      }
    }
    assert cs[..|cs|] == cs;
    inspected := |cs|;
  }

  lemma {:induction false} CreditsPrefix(cs: seq<Candidate>, level: int, n: nat)
    requires n <= |cs|
    ensures Credits(cs[..n], level) <= Credits(cs, level)
    decreases |cs|
  {
    if n < |cs| {
      assert cs[..|cs| - 1][..n] == cs[..n];
      CreditsPrefix(cs[..|cs| - 1], level, n);
    } else {
      assert cs[..n] == cs;
    }
  }

  /** The highest level between `low` and `high` the budget can pay for in full. */
  method FillLevel(cs: seq<Candidate>, budget: int, floor: int, top: int)
    returns (level: int, visits: nat)
    requires floor <= top && Credits(cs, floor) <= budget
    ensures floor <= level <= top && Credits(cs, level) <= budget
    ensures level == top || Credits(cs, level + 1) > budget
    ensures Few(0, visits, |cs|, Log2Up(top - floor + 1))
  {
    hide *;
    var low, high := floor, top;
    visits := 0;
    ghost var span := top - floor + 1;
    SearchStarts(|cs|, span);
    while low < high
      invariant floor <= low <= high <= top
      invariant Credits(cs, low) <= budget
      invariant high == top || Credits(cs, high + 1) > budget
      invariant Searching(visits, |cs|, high - low + 1, span)
    {
      var middle := low + (high - low + 1) / 2;
      var used, count := CreditsAtLevel(cs, middle, budget);
      if used <= budget {
        SearchNarrows(visits, count, |cs|, high - low + 1, high - middle + 1, span);
        low := middle;
      } else {
        SearchNarrows(visits, count, |cs|, high - low + 1, middle - low, span);
        high := middle - 1;
      }
      visits := visits + count;
    }
    level := low;
    SearchEnds(visits, |cs|, high - low + 1, span);
  }

  /** The first pass: everyone rises to `level`, and what that costs. */
  method RaiseTo(cs: seq<Candidate>, limit: int, level: int) returns (capacities: seq<int>, used: int)
    requires level <= limit
    ensures capacities == Stair(cs, limit, level, 0) && used == Spent(cs, capacities)
  {
    capacities := Floors(cs);
    used := 0;
    SpentAtFloors(cs);
    for index := 0 to |cs|
      invariant |capacities| == |cs|
      invariant forall i :: 0 <= i < index ==> capacities[i] == Target(cs[i], limit, level)
      invariant forall i :: index <= i < |cs| ==> capacities[i] == cs[i].floor
      invariant used == Spent(cs, capacities)
    {
      var target := cs[index].ceiling;
      if target > limit {
        target := limit;
      }
      if target > level {
        target := level;
      }
      if target < cs[index].floor {
        target := cs[index].floor;
      }
      SpentUpdate(cs, capacities, index, target);
      capacities := capacities[index := target];
      used := used + target - cs[index].floor;
    }
  }

  lemma {:induction false} SpentAtFloors(cs: seq<Candidate>)
    ensures Spent(cs, Floors(cs)) == 0
  {
    if cs != [] {
      SpentAtFloors(cs[..|cs| - 1]);
      assert Floors(cs)[..|cs| - 1] == Floors(cs[..|cs| - 1]);
    }
  }

  /** The second pass: one credit each above `level`, in candidate order, while any is left. */
  method HandOut(cs: seq<Candidate>, budget: int, limit: int, level: int, raised: seq<int>, spent: int)
    returns (capacities: seq<int>, used: int, ghost p: nat)
    requires level <= limit && raised == Stair(cs, limit, level, 0)
    requires spent == Spent(cs, raised) <= budget
    ensures p <= |cs| && capacities == Stair(cs, limit, level, p)
    ensures used == Spent(cs, capacities) <= budget
    ensures p == |cs| || used == budget
  {
    capacities := raised;
    used := spent;
    var remaining := budget - used;
    p := 0;
    for index := 0 to |cs|
      invariant p == index && capacities == Stair(cs, limit, level, p)
      invariant used == Spent(cs, capacities) && remaining == budget - used >= 0
    {
      if remaining == 0 {
        return;
      }
      var ceiling := cs[index].ceiling;
      if ceiling > limit {
        ceiling := limit;
      }
      if capacities[index] == level && capacities[index] < ceiling {
        SpentUpdate(cs, capacities, index, capacities[index] + 1);
        capacities := capacities[index := capacities[index] + 1];
        remaining := remaining - 1;
        used := used + 1;
      }
      p := index + 1;
      assert capacities == Stair(cs, limit, level, p);
    }
  }

  /** The lowest floor and the highest reachable level. */
  method Levels(cs: seq<Candidate>, limit: nat) returns (minimum: nat, maximum: nat)
    requires cs != []
    ensures forall i :: 0 <= i < |cs| ==> minimum <= cs[i].floor && Cap(cs[i], limit) <= maximum
    ensures exists i :: 0 <= i < |cs| && minimum == cs[i].floor
    ensures maximum <= limit
    ensures maximum == 0 || exists i :: 0 <= i < |cs| && maximum == Cap(cs[i], limit)
  {
    minimum, maximum := cs[0].floor, 0;
    for index := 0 to |cs|
      invariant forall i :: 0 <= i < index ==> minimum <= cs[i].floor && Cap(cs[i], limit) <= maximum
      invariant exists i :: 0 <= i < |cs| && minimum == cs[i].floor
      invariant maximum <= limit
      invariant maximum == 0 || exists i :: 0 <= i < |cs| && maximum == Cap(cs[i], limit)
    {
      if cs[index].floor < minimum {
        minimum := cs[index].floor;
      }
      var ceiling := cs[index].ceiling;
      if ceiling > limit {
        ceiling := limit;
      }
      if ceiling > maximum {
        maximum := ceiling;
      }
    }
  }

  /**
   Shares `budget` credits among the candidates without raising anyone above `limit`, and
   spends as many as the candidates can take. The work is bounded by the span of levels
   the ceilings open, not by the raw demand behind them.
   */
  method WaterFill(cs: seq<Candidate>, budget: int, limit: nat, ghost span: nat)
    returns (capacities: seq<int>, used: int, visits: nat)
    requires forall i :: 0 <= i < |cs| ==> cs[i].ceiling <= span
    ensures |capacities| == |cs|
    ensures budget > 0 ==> Filled(cs, budget, limit, capacities)
    ensures budget > 0 ==> used == Spent(cs, capacities) == Min(budget, Credits(cs, limit))
    ensures budget <= 0 ==> used == 0 && forall i :: 0 <= i < |cs| ==> capacities[i] == 0
    ensures Few(0, visits, |cs|, 4 + Log2Up(span + 1))
  {
    hide Few;
    FewAtMost(0, |cs|, |cs|, 4 + Log2Up(span + 1));
    if |cs| == 0 || budget <= 0 {
      return seq(|cs|, i => 0), 0, |cs|;
    }
    var minimum, maximum := Levels(cs, limit);
    LimitIsMaximum(cs, limit, maximum);
    if maximum < minimum {
      NothingToRaise(cs, budget, limit, maximum);
      return Floors(cs), 0, |cs|;
    }
    var level, searched := ChooseLevel(cs, budget, minimum, maximum);
    capacities, used := BothPasses(cs, budget, limit, maximum, level);
    visits := |cs| + searched + |cs| + |cs|;
    FourMoreRounds(searched, |cs|, maximum - minimum, span);
  }

  /** Everyone to the level, then the rest one by one. */
  method BothPasses(cs: seq<Candidate>, budget: int, limit: nat, ghost maximum: nat, level: int)
    returns (capacities: seq<int>, used: int)
    requires level <= maximum <= limit && Credits(cs, limit) == Credits(cs, maximum)
    requires forall i :: 0 <= i < |cs| ==> Cap(cs[i], limit) <= maximum
    requires Credits(cs, level) <= budget && (level == maximum || Credits(cs, level + 1) > budget)
    ensures Filled(cs, budget, limit, capacities) && |capacities| == |cs|
    ensures used == Spent(cs, capacities) == Min(budget, Credits(cs, limit))
  {
    var raised, spent := RaiseTo(cs, limit, level);
    StairCredits(cs, limit, level);
    ghost var p: nat;
    capacities, used, p := HandOut(cs, budget, limit, level, raised, spent);
    StairSpends(cs, budget, limit, maximum, level, p);
  }

  lemma NothingToRaise(cs: seq<Candidate>, budget: int, limit: nat, maximum: nat)
    requires budget >= 0 && Credits(cs, limit) == Credits(cs, maximum)
    requires forall i :: 0 <= i < |cs| ==> Cap(cs[i], limit) <= maximum < cs[i].floor
    ensures Filled(cs, budget, limit, Floors(cs)) && Spent(cs, Floors(cs)) == 0 == Credits(cs, limit)
  {
    CreditsBelowFloors(cs, maximum);
    SpentAtFloors(cs);
  }

  /** The level everyone rises to: the top if the budget covers it, else the highest it pays for. */
  method ChooseLevel(cs: seq<Candidate>, budget: int, minimum: nat, maximum: nat)
    returns (level: int, visits: nat)
    requires 0 < budget && minimum <= maximum
    requires forall i :: 0 <= i < |cs| ==> minimum <= cs[i].floor
    ensures level <= maximum && Credits(cs, level) <= budget
    ensures level == maximum || Credits(cs, level + 1) > budget
    ensures Few(0, visits, |cs|, 1 + Log2Up(maximum - minimum + 1))
  {
    hide Few;
    var usedAtLimit, inspected := CreditsAtLevel(cs, maximum, budget);
    level, visits := maximum, inspected;
    FewAtMost(0, visits, |cs|, 1);
    FewAtMost(0, visits, |cs|, 1 + Log2Up(maximum - minimum + 1));
    if usedAtLimit >= budget {
      CreditsBelowFloors(cs, minimum);
      var searched;
      level, searched := FillLevel(cs, budget, minimum, maximum);
      FewShifts(0, searched, |cs|, Log2Up(maximum - minimum + 1), visits);
      FewInTurn(0, visits, visits + searched, |cs|, 1, Log2Up(maximum - minimum + 1));
      visits := visits + searched;
    }
  }

  /** The scans around the search. */
  lemma FourMoreRounds(searched: nat, n: nat, levels: nat, span: nat)
    requires Few(0, searched, n, 1 + Log2Up(levels + 1)) && levels <= span
    ensures Few(0, n + searched + n + n, n, 4 + Log2Up(span + 1))
  {
    hide Few;
    Log2UpMonotone(levels + 1, span + 1);
    FewWidens(0, searched, n, n, 1 + Log2Up(levels + 1), 1 + Log2Up(span + 1));
    FewThreeMore(searched, n, 1 + Log2Up(span + 1));
  }

  lemma FewThreeMore(searched: nat, n: nat, rounds: nat)
    requires Few(0, searched, n, rounds)
    ensures Few(0, n + searched + n + n, n, 3 + rounds)
  {
    assert Looks(n, rounds + 1) == Looks(n, rounds) + n;
  }

  lemma LimitIsMaximum(cs: seq<Candidate>, limit: nat, maximum: nat)
    requires maximum <= limit && forall i :: 0 <= i < |cs| ==> Cap(cs[i], limit) <= maximum
    ensures Credits(cs, limit) == Credits(cs, maximum)
    ensures Credits(cs, maximum + 1) >= Credits(cs, maximum)
  {
    CreditsSameLift(cs, limit, maximum);
    CreditsSameLift(cs, maximum, maximum + 1);
  }

  /** The level the search found and the hand-out together spend exactly what can be spent. */
  lemma StairSpends(cs: seq<Candidate>, budget: int, limit: nat, maximum: nat, level: int, p: nat)
    requires p <= |cs| && level <= maximum <= limit
    requires forall i :: 0 <= i < |cs| ==> Cap(cs[i], limit) <= maximum
    requires Credits(cs, limit) == Credits(cs, maximum)
    requires Credits(cs, level) <= budget
    requires level == maximum || Credits(cs, level + 1) > budget
    requires Spent(cs, Stair(cs, limit, level, p)) <= budget
    requires p == |cs| || Spent(cs, Stair(cs, limit, level, p)) == budget
    ensures Spent(cs, Stair(cs, limit, level, p)) == Min(budget, Credits(cs, limit))
    ensures Filled(cs, budget, limit, Stair(cs, limit, level, p))
  {
    if level == maximum {
      assert Stair(cs, limit, level, p) == Stair(cs, limit, level, 0);
      StairCredits(cs, limit, level);
    } else {
      StairCredits(cs, limit, level);
      CreditsMonotone(cs, level + 1, maximum);
    }
    StairIsFilled(cs, budget, limit, level, p);
  }

  lemma CreditsMonotone(cs: seq<Candidate>, l: int, l': int)
    requires l <= l'
    ensures Credits(cs, l) <= Credits(cs, l')
  {
    CreditsSameLift(cs, l, l');
  }
}
