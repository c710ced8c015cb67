/**
 Identities and small helpers shared by every module.
 */
module Base {

  /** Opaque identities: nothing in the system looks inside one. */
  type BindingKey(==, !new)
  type TierID(==, !new)

  datatype Option<+T> = None | Some(value: T)

  function Min(a: int, b: int): int { if a < b then a else b }

  function Max(a: int, b: int): int { if a < b then b else a }

  ghost predicate Distinct<T>(s: seq<T>) {
    forall i, j :: 0 <= i < j < |s| ==> s[i] != s[j]
  }

  function ToSet<T>(s: seq<T>): set<T> { set x | x in s }

  /** The place of `k` in a sequence without repetitions. */
  ghost function Rank<T>(s: seq<T>, k: T): (r: nat)
    requires k in s
    ensures r < |s| && s[r] == k
  {
    var i :| 0 <= i < |s| && s[i] == k;
    i
  }

  lemma RankAt<T>(s: seq<T>, i: nat)
    requires Distinct(s) && i < |s|
    ensures Rank(s, s[i]) == i
  {
    var r := Rank(s, s[i]);
    assert s[r] == s[i];
  }

  lemma {:induction false} DistinctCount<T>(s: seq<T>)
    requires Distinct(s)
    ensures |ToSet(s)| == |s|
  {
    if s != [] {
      var n := |s| - 1;
      DistinctCount(s[..n]);
      assert ToSet(s) == ToSet(s[..n]) + {s[n]};
    }
  }
}

/**
 Sums of integers over finite sets. The allocator keeps running counters; what they
 must equal is a sum, and the sum does not care in which order the bindings were met.
 */
module Sums {

  ghost function Sum<K>(s: set<K>, g: map<K, int>): int
    requires s <= g.Keys
    decreases |s|
  {
    if s == {} then 0
    else
      var k :| k in s;
      g[k] + Sum(s - {k}, g)
  }

  lemma {:induction false} SumPick<K>(s: set<K>, g: map<K, int>, k: K)
    requires s <= g.Keys && k in s
    ensures Sum(s, g) == g[k] + Sum(s - {k}, g)
    decreases |s|
  {
    var p :| p in s && Sum(s, g) == g[p] + Sum(s - {p}, g);
    if p != k {
      SumPick(s - {p}, g, k);
      SumPick(s - {k}, g, p);
      assert s - {p} - {k} == s - {k} - {p};
    }
  }

  lemma {:induction false} SumUnion<K>(a: set<K>, b: set<K>, g: map<K, int>)
    requires a !! b && a + b <= g.Keys
    ensures Sum(a + b, g) == Sum(a, g) + Sum(b, g)
    decreases |a|
  {
    if a == {} {
      assert a + b == b;
    } else {
      var k :| k in a;
      SumPick(a, g, k);
      SumPick(a + b, g, k);
      assert a + b - {k} == (a - {k}) + b;
      SumUnion(a - {k}, b, g);
    }
  }

  /** Pointwise order lifts to sums, strictly when one point is strict. */
  lemma {:induction false} SumLe<K>(s: set<K>, g: map<K, int>, h: map<K, int>)
    requires s <= g.Keys && s <= h.Keys
    requires forall k :: k in s ==> g[k] <= h[k]
    ensures Sum(s, g) <= Sum(s, h)
    ensures (forall k :: k in s ==> g[k] == h[k]) ==> Sum(s, g) == Sum(s, h)
    decreases |s|
  {
    if s != {} {
      var k :| k in s;
      SumPick(s, g, k);
      SumPick(s, h, k);
      SumLe(s - {k}, g, h);
    }
  }

  lemma SumLt<K>(s: set<K>, g: map<K, int>, h: map<K, int>, k: K)
    requires s <= g.Keys && s <= h.Keys
    requires forall i :: i in s ==> g[i] <= h[i]
    requires k in s && g[k] < h[k]
    ensures Sum(s, g) < Sum(s, h)
  {
    SumPick(s, g, k);
    SumPick(s, h, k);
    SumLe(s - {k}, g, h);
  }

  lemma SumUpdate<K>(s: set<K>, g: map<K, int>, k: K, v: int)
    requires s <= g.Keys && k in g
    ensures Sum(s, g[k := v]) == Sum(s, g) + (if k in s then v - g[k] else 0)
  {
    if k in s {
      SumPick(s, g, k);
      SumPick(s, g[k := v], k);
      SumLe(s - {k}, g, g[k := v]);
    } else {
      SumLe(s, g, g[k := v]);
    }
  }

  lemma {:induction false} SumNonNegative<K>(s: set<K>, g: map<K, int>)
    requires s <= g.Keys && forall k :: k in s ==> 0 <= g[k]
    ensures 0 <= Sum(s, g)
    decreases |s|
  {
    if s != {} {
      var k :| k in s;
      SumPick(s, g, k);
      SumNonNegative(s - {k}, g);
    }
  }

  /** With non-negative terms, a sum is at least any two of them. */
  lemma SumAtLeast<K>(s: set<K>, g: map<K, int>, i: K, j: K)
    requires s <= g.Keys && forall k :: k in s ==> 0 <= g[k]
    requires i in s && j in s
    ensures g[i] <= Sum(s, g)
    ensures i != j ==> g[i] + g[j] <= Sum(s, g)
  {
    SumPick(s, g, i);
    SumNonNegative(s - {i}, g);
    if i != j {
      SumPick(s - {i}, g, j);
      SumNonNegative(s - {i} - {j}, g);
    }
  }

  lemma SumZero<K>(s: set<K>, g: map<K, int>)
    requires s <= g.Keys && forall k :: k in s ==> 0 <= g[k]
    ensures Sum(s, g) == 0 <==> forall k :: k in s ==> g[k] == 0
  {
    if k :| k in s && g[k] != 0 {
      SumAtLeast(s, g, k, k);
    } else {
      SumAllZero(s, g);
    }
  }

  lemma {:induction false} SumAllZero<K>(s: set<K>, g: map<K, int>)
    requires s <= g.Keys && forall k :: k in s ==> g[k] == 0
    ensures Sum(s, g) == 0
    decreases |s|
  {
    if s != {} {
      var k :| k in s;
      SumPick(s, g, k);
      SumAllZero(s - {k}, g);
    }
  }

  /** One more term, the others as they were. */
  lemma SumGrows<K>(s: set<K>, g: map<K, int>, h: map<K, int>, k: K)
    requires s <= g.Keys && k !in s && s + {k} <= h.Keys && forall j :: j in s ==> h[j] == g[j]
    ensures Sum(s, h) == Sum(s, g) && Sum(s + {k}, h) == Sum(s, g) + h[k]
  {
    hide Sum;
    SumLe(s, g, h);
    SumPick(s + {k}, h, k);
    assert s + {k} - {k} == s;
  }

  /** A sum of differences is the difference of the sums. */
  lemma {:induction false} SumMinus<K>(s: set<K>, g: map<K, int>, h: map<K, int>, d: map<K, int>)
    requires s <= g.Keys && s <= h.Keys && s <= d.Keys
    requires forall k :: k in s ==> d[k] == g[k] - h[k]
    ensures Sum(s, d) == Sum(s, g) - Sum(s, h)
    decreases |s|
  {
    if s != {} {
      var k :| k in s;
      SumPick(s, g, k);
      SumPick(s, h, k);
      SumPick(s, d, k);
      SumMinus(s - {k}, g, h, d);
    }
  }
}
