/**
 The canonical encoding a delivery is fingerprinted by.

 `SamePreimage` is the point: two deliveries have the same preimage exactly when they hold
 the same assignments, each as often, with labels compared as multisets. So the encoding
 forgets order and nothing else, and no arrangement of bytes can be read in two ways.
 */
module Fingerprint {

  type Byte = b: int | 0 <= b < 256

  type Bytes = seq<Byte>

  /** Identifiers are 64-bit signed integers; their bits are written unsigned. */
  type Int64 = n: int | -0x8000_0000_0000_0000 <= n < 0x8000_0000_0000_0000

  datatype Assignment = Assignment(
    workload: Bytes,
    tenant: Bytes,
    project: Bytes,
    requestID: Int64,
    runID: Int64,
    labels: seq<Bytes>)

  /** What an assignment says, whatever order its labels came in. */
  datatype Essence = Essence(
    workload: Bytes,
    tenant: Bytes,
    project: Bytes,
    requestID: Int64,
    runID: Int64,
    labels: multiset<Bytes>)

  function EssenceOf(a: Assignment): Essence {
    Essence(a.workload, a.tenant, a.project, a.requestID, a.runID, multiset(a.labels))
  }

  // ---- order and sorting ----

  /** Byte-wise lexicographic order. */
  predicate Le(a: Bytes, b: Bytes) {
    a == [] || (b != [] && (a[0] < b[0] || (a[0] == b[0] && Le(a[1..], b[1..]))))
  }

  lemma {:induction false} LeTotal(a: Bytes, b: Bytes)
    ensures Le(a, b) || Le(b, a)
    ensures Le(a, b) && Le(b, a) ==> a == b
  {
    if a != [] && b != [] && a[0] == b[0] {
      LeTotal(a[1..], b[1..]);
      assert a == [a[0]] + a[1..] && b == [b[0]] + b[1..];
    }
  }

  lemma {:induction false} LeTransitive(a: Bytes, b: Bytes, c: Bytes)
    requires Le(a, b) && Le(b, c)
    ensures Le(a, c)
  {
    if a != [] && b != [] && c != [] && a[0] == b[0] == c[0] {
      LeTransitive(a[1..], b[1..], c[1..]);
    }
  }

  /** Up to `i` the same, and there the smaller byte. */
  predicate SmallerAt(a: Bytes, b: Bytes, i: nat) { i < |a| && i < |b| && a[..i] == b[..i] && a[i] < b[i] }

  /** A prefix, or smaller at the first difference. */
  lemma {:induction false} LeMeans(a: Bytes, b: Bytes)
    ensures Le(a, b) <==> a <= b || exists i: nat :: SmallerAt(a, b, i)
  {
    if a != [] && b != [] {
      LeMeans(a[1..], b[1..]);
      assert a == [a[0]] + a[1..] && b == [b[0]] + b[1..];
      assert a[0] == b[0] ==> (a <= b <==> a[1..] <= b[1..]);
      if a[0] < b[0] {
        assert SmallerAt(a, b, 0);
      }
      if a[0] == b[0] {
        if i: nat :| SmallerAt(a[1..], b[1..], i) {
          assert a[..i + 1] == [a[0]] + a[1..][..i] && b[..i + 1] == [b[0]] + b[1..][..i];
          assert SmallerAt(a, b, i + 1);
        }
        if i: nat :| SmallerAt(a, b, i) {
          assert a[1..][..i - 1] == a[..i][1..] && b[1..][..i - 1] == b[..i][1..];
          assert SmallerAt(a[1..], b[1..], i - 1);
        }
      }
    }
  }

  ghost predicate Sorted(s: seq<Bytes>) {
    forall i, j :: 0 <= i < j < |s| ==> Le(s[i], s[j])
  }

  function Insert(x: Bytes, s: seq<Bytes>): seq<Bytes> {
    if s == [] || Le(x, s[0]) then [x] + s else [s[0]] + Insert(x, s[1..])
  }

  function Sort(s: seq<Bytes>): seq<Bytes> {
    if s == [] then [] else Insert(s[0], Sort(s[1..]))
  }

  lemma {:induction false} InsertSorts(x: Bytes, s: seq<Bytes>)
    requires Sorted(s)
    ensures Sorted(Insert(x, s)) && multiset(Insert(x, s)) == multiset{x} + multiset(s)
  {
    if s == [] {
    } else if Le(x, s[0]) {
      forall j | 0 <= j < |s| ensures Le(x, s[j]) {
        if 0 < j {
          LeTransitive(x, s[0], s[j]);
        }
      }
    } else {
      InsertSorts(x, s[1..]);
      LeTotal(x, s[0]);
      var t := Insert(x, s[1..]);
      assert s == [s[0]] + s[1..];
      forall j | 0 <= j < |t| ensures Le(s[0], t[j]) {
        assert t[j] in multiset(t);
        assert t[j] == x || t[j] in s[1..];
      }
    }
  }

  lemma {:induction false} SortSorts(s: seq<Bytes>)
    ensures Sorted(Sort(s)) && multiset(Sort(s)) == multiset(s)
  {
    if s != [] {
      SortSorts(s[1..]);
      InsertSorts(s[0], Sort(s[1..]));
      assert s == [s[0]] + s[1..];
    }
  }

  lemma SortedStartsAlike(a: seq<Bytes>, b: seq<Bytes>)
    requires Sorted(a) && Sorted(b) && multiset(a) == multiset(b) && a != []
    ensures b != [] && a[0] == b[0]
  {
    assert a[0] in multiset(b);
    var i :| 0 <= i < |b| && b[i] == a[0];
    assert b[0] in multiset(a);
    var j :| 0 <= j < |a| && a[j] == b[0];
    LeTotal(a[0], b[0]);
  }

  lemma RestOf(a: seq<Bytes>)
    requires a != []
    ensures multiset(a[1..]) == multiset(a) - multiset{a[0]}
  {
    assert a == [a[0]] + a[1..];
  }

  /** A multiset has one sorted order. */
  lemma {:induction false} SortedIsUnique(a: seq<Bytes>, b: seq<Bytes>)
    requires Sorted(a) && Sorted(b) && multiset(a) == multiset(b)
    ensures a == b
  {
    if a == [] {
      assert |multiset(a)| == |multiset(b)|;
    } else {
      SortedStartsAlike(a, b);
      RestOf(a);
      RestOf(b);
      SortedIsUnique(a[1..], b[1..]);
      assert a == [a[0]] + a[1..] && b == [b[0]] + b[1..];
    }
  }

  lemma SortForgetsOrder(a: seq<Bytes>, b: seq<Bytes>)
    ensures Sort(a) == Sort(b) <==> multiset(a) == multiset(b)
  {
    SortSorts(a);
    SortSorts(b);
    if multiset(a) == multiset(b) {
      SortedIsUnique(Sort(a), Sort(b));
    }
  }

  // ---- numbers ----

  function Power256(k: nat): nat { if k == 0 then 1 else 256 * Power256(k - 1) }

  /** `k` bytes, most significant first. */
  function BigEndian(n: nat, k: nat): (r: Bytes)
    ensures |r| == k
  {
    if k == 0 then [] else BigEndian(n / 256, k - 1) + [n % 256]
  }

  function Value(s: Bytes): nat {
    if s == [] then 0 else 256 * Value(s[..|s| - 1]) + s[|s| - 1]
  }

  lemma {:induction false} ValueOfBigEndian(n: nat, k: nat)
    requires n < Power256(k)
    ensures Value(BigEndian(n, k)) == n
  {
    if k > 0 {
      ValueOfBigEndian(n / 256, k - 1);
      assert BigEndian(n, k)[..k - 1] == BigEndian(n / 256, k - 1);
    }
  }

  const TWO_TO_THE_64: nat := 0x1_0000_0000_0000_0000

  /** The bits of an unsigned 64-bit number; longer numbers lose their high bits. */
  function U64(n: int): (r: Bytes)
    ensures |r| == 8
  {
    BigEndian(n % TWO_TO_THE_64, 8)
  }

  lemma U64Injective(a: int, b: int)
    requires U64(a) == U64(b)
    ensures a % TWO_TO_THE_64 == b % TWO_TO_THE_64
  {
    assert Power256(8) == TWO_TO_THE_64 by {
      assert Power256(2) == 0x1_0000;
      assert Power256(4) == 0x1_0000_0000;
      assert Power256(6) == 0x1_0000_0000_0000;
    }
    ValueOfBigEndian(a % TWO_TO_THE_64, 8);
    ValueOfBigEndian(b % TWO_TO_THE_64, 8);
  }

  lemma LengthsDecode(a: nat, b: nat)
    requires U64(a) == U64(b) && a < TWO_TO_THE_64 && b < TWO_TO_THE_64
    ensures a == b
  {
    hide *;
    U64Injective(a, b);
  }

  lemma IdentifiersDecode(a: Int64, b: Int64)
    requires U64(a) == U64(b)
    ensures a == b
  {
    U64Injective(a, b);
  }

  // ---- strings, one after the other ----

  predicate Fits(s: Bytes) { |s| < TWO_TO_THE_64 }

  function Prefixed(s: Bytes): Bytes { U64(|s|) + s }

  /** A length-prefixed string and what follows it can be told apart. */
  lemma PrefixedDecodes(a: Bytes, b: Bytes, x: Bytes, y: Bytes)
    requires Fits(a) && Fits(b) && Prefixed(a) + x == Prefixed(b) + y
    ensures a == b && x == y
  {
    var l, r := Prefixed(a) + x, Prefixed(b) + y;
    assert l[..8] == U64(|a|) && r[..8] == U64(|b|);
    LengthsDecode(|a|, |b|);
    assert l[8..8 + |a|] == a && r[8..8 + |b|] == b;
    assert l[8 + |a|..] == x && r[8 + |b|..] == y;
  }

  lemma NumberDecodes(a: Bytes, b: Bytes, x: Bytes, y: Bytes)
    requires |a| == |b| && a + x == b + y
    ensures a == b && x == y
  {
    assert (a + x)[..|a|] == a && (b + y)[..|b|] == b;
    assert (a + x)[|a|..] == x && (b + y)[|b|..] == y;
  }

  function PrefixedAll(s: seq<Bytes>): Bytes {
    if s == [] then [] else Prefixed(s[0]) + PrefixedAll(s[1..])
  }

  lemma {:induction false} PrefixedAllAppends(s: seq<Bytes>, x: Bytes)
    ensures PrefixedAll(s + [x]) == PrefixedAll(s) + Prefixed(x)
  {
    if s == [] {
    } else {
      assert (s + [x])[1..] == s[1..] + [x];
      PrefixedAllAppends(s[1..], x);
    }
  }

  ghost predicate AllFit(s: seq<Bytes>) { |s| < TWO_TO_THE_64 && forall i :: 0 <= i < |s| ==> Fits(s[i]) }

  lemma FirstThenRest(s: seq<Bytes>, x: Bytes)
    requires s != []
    ensures PrefixedAll(s) + x == Prefixed(s[0]) + (PrefixedAll(s[1..]) + x)
  {
  }

  lemma {:induction false} PrefixedAllDecodes(s: seq<Bytes>, t: seq<Bytes>, x: Bytes, y: Bytes)
    requires AllFit(s) && AllFit(t) && |s| == |t| && PrefixedAll(s) + x == PrefixedAll(t) + y
    ensures s == t && x == y
  {
    if s == [] {
      assert PrefixedAll(s) + x == x && PrefixedAll(t) + y == y;
    } else {
      FirstThenRest(s, x);
      FirstThenRest(t, y);
      PrefixedDecodes(s[0], t[0], PrefixedAll(s[1..]) + x, PrefixedAll(t[1..]) + y);
      PrefixedAllDecodes(s[1..], t[1..], x, y);
      assert s == [s[0]] + s[1..] && t == [t[0]] + t[1..];
    }
  }

  // ---- one assignment ----

  function Numbers(a: Assignment): Bytes { U64(a.requestID) + U64(a.runID) + U64(|a.labels|) }

  function Record(a: Assignment): Bytes {
    PrefixedAll([a.workload, a.tenant, a.project]) + (Numbers(a) + PrefixedAll(Sort(a.labels)))
  }

  ghost predicate Encodable(a: Assignment) {
    Fits(a.workload) && Fits(a.tenant) && Fits(a.project) && AllFit(a.labels) && Fits(Record(a))
  }

  lemma SortFits(s: seq<Bytes>)
    requires AllFit(s)
    ensures AllFit(Sort(s)) && |Sort(s)| == |s|
  {
    SortSorts(s);
    assert |multiset(Sort(s))| == |multiset(s)|;
    forall i | 0 <= i < |Sort(s)| ensures Fits(Sort(s)[i]) {
      assert Sort(s)[i] in multiset(Sort(s));
      assert Sort(s)[i] in s;
    }
  }

  lemma NumbersDecode(a: Assignment, b: Assignment)
    requires Numbers(a) == Numbers(b) && |a.labels| < TWO_TO_THE_64 && |b.labels| < TWO_TO_THE_64
    ensures a.requestID == b.requestID && a.runID == b.runID && |a.labels| == |b.labels|
  {
    NumberDecodes(U64(a.requestID) + U64(a.runID), U64(b.requestID) + U64(b.runID), U64(|a.labels|), U64(|b.labels|));
    NumberDecodes(U64(a.requestID), U64(b.requestID), U64(a.runID), U64(b.runID));
    IdentifiersDecode(a.requestID, b.requestID);
    IdentifiersDecode(a.runID, b.runID);
    LengthsDecode(|a.labels|, |b.labels|);
  }

  /** A record says everything but the order of the labels. */
  lemma RecordDecodes(a: Assignment, b: Assignment)
    requires Encodable(a) && Encodable(b)
    ensures Record(a) == Record(b) <==> EssenceOf(a) == EssenceOf(b)
  {
    SortForgetsOrder(a.labels, b.labels);
    SortFits(a.labels);
    SortFits(b.labels);
    if EssenceOf(a) == EssenceOf(b) {
      assert |multiset(a.labels)| == |a.labels| && |multiset(b.labels)| == |b.labels|;
    }
    if Record(a) == Record(b) {
      var x, y := PrefixedAll(Sort(a.labels)), PrefixedAll(Sort(b.labels));
      var f, g := [a.workload, a.tenant, a.project], [b.workload, b.tenant, b.project];
      PrefixedAllDecodes(f, g, Numbers(a) + x, Numbers(b) + y);
      assert f[0] == g[0] && f[1] == g[1] && f[2] == g[2];
      NumberDecodes(Numbers(a), Numbers(b), x, y);
      NumbersDecode(a, b);
      assert x + [] == x && y + [] == y;
      PrefixedAllDecodes(Sort(a.labels), Sort(b.labels), [], []);
    }
  }

  // ---- a delivery ----

  function Records(s: seq<Assignment>): seq<Bytes> { seq(|s|, i requires 0 <= i < |s| => Record(s[i])) }

  function Essences(s: seq<Assignment>): seq<Essence> { seq(|s|, i requires 0 <= i < |s| => EssenceOf(s[i])) }

  function Ascii(text: string): Bytes { seq(|text|, i requires 0 <= i < |text| => text[i] as int % 128) }

  const DOMAIN: Bytes := Ascii("runpool.delivery-fingerprint.length-prefixed") + [0]

  function Preimage(s: seq<Assignment>): Bytes {
    DOMAIN + (U64(|s|) + PrefixedAll(Sort(Records(s))))
  }

  ghost predicate Deliverable(s: seq<Assignment>) {
    |s| < TWO_TO_THE_64 && forall i :: 0 <= i < |s| ==> Encodable(s[i])
  }

  lemma PreimageDecodes(s: seq<Assignment>, t: seq<Assignment>)
    requires Deliverable(s) && Deliverable(t)
    ensures Preimage(s) == Preimage(t) <==> multiset(Records(s)) == multiset(Records(t))
  {
    SortForgetsOrder(Records(s), Records(t));
    SortFits(Records(s));
    SortFits(Records(t));
    assert |multiset(Records(s))| == |s| && |multiset(Records(t))| == |t|;
    var x, y := PrefixedAll(Sort(Records(s))), PrefixedAll(Sort(Records(t)));
    if Preimage(s) == Preimage(t) {
      NumberDecodes(DOMAIN, DOMAIN, U64(|s|) + x, U64(|t|) + y);
      NumberDecodes(U64(|s|), U64(|t|), x, y);
      LengthsDecode(|s|, |t|);
      assert x + [] == x && y + [] == y;
      PrefixedAllDecodes(Sort(Records(s)), Sort(Records(t)), [], []);
    }
  }

  /** A record occurs as often as what it says. */
  lemma {:induction false} CountsAgree(s: seq<Assignment>, a: Assignment)
    requires Encodable(a) && forall i :: 0 <= i < |s| ==> Encodable(s[i])
    ensures multiset(Records(s))[Record(a)] == multiset(Essences(s))[EssenceOf(a)]
  {
    hide Record, EssenceOf, Encodable;
    if s != [] {
      var n := |s| - 1;
      CountsAgree(s[..n], a);
      RecordDecodes(s[n], a);
      assert Records(s) == Records(s[..n]) + [Record(s[n])];
      assert Essences(s) == Essences(s[..n]) + [EssenceOf(s[n])];
    }
  }

  lemma RecordsComeFrom(s: seq<Assignment>, r: Bytes) returns (a: Assignment)
    requires Deliverable(s) && r in multiset(Records(s))
    ensures Encodable(a) && Record(a) == r
  {
    assert r in Records(s);
    var i :| 0 <= i < |s| && Records(s)[i] == r;
    a := s[i];
  }

  lemma EssencesComeFrom(s: seq<Assignment>, e: Essence) returns (a: Assignment)
    requires Deliverable(s) && e in multiset(Essences(s))
    ensures Encodable(a) && EssenceOf(a) == e
  {
    assert e in Essences(s);
    var i :| 0 <= i < |s| && Essences(s)[i] == e;
    a := s[i];
  }

  lemma RecordsFollowEssences(s: seq<Assignment>, t: seq<Assignment>, r: Bytes)
    requires Deliverable(s) && Deliverable(t) && multiset(Essences(s)) == multiset(Essences(t))
    ensures multiset(Records(s))[r] == multiset(Records(t))[r]
  {
    if r in multiset(Records(s)) || r in multiset(Records(t)) {
      var a;
      if r in multiset(Records(s)) {
        a := RecordsComeFrom(s, r);
      } else {
        a := RecordsComeFrom(t, r);
      }
      CountsAgree(s, a);
      CountsAgree(t, a);
    }
  }

  lemma EssencesFollowRecords(s: seq<Assignment>, t: seq<Assignment>, e: Essence)
    requires Deliverable(s) && Deliverable(t) && multiset(Records(s)) == multiset(Records(t))
    ensures multiset(Essences(s))[e] == multiset(Essences(t))[e]
  {
    if e in multiset(Essences(s)) || e in multiset(Essences(t)) {
      var a;
      if e in multiset(Essences(s)) {
        a := EssencesComeFrom(s, e);
      } else {
        a := EssencesComeFrom(t, e);
      }
      CountsAgree(s, a);
      CountsAgree(t, a);
    }
  }

  /** Two deliveries encode alike exactly when they are the same multiset of assignments. */
  lemma SamePreimage(s: seq<Assignment>, t: seq<Assignment>)
    requires Deliverable(s) && Deliverable(t)
    ensures Preimage(s) == Preimage(t) <==> multiset(Essences(s)) == multiset(Essences(t))
  {
    PreimageDecodes(s, t);
    if multiset(Essences(s)) == multiset(Essences(t)) {
      forall r ensures multiset(Records(s))[r] == multiset(Records(t))[r] {
        RecordsFollowEssences(s, t, r);
      }
    }
    if multiset(Records(s)) == multiset(Records(t)) {
      forall e ensures multiset(Essences(s))[e] == multiset(Essences(t))[e] {
        EssencesFollowRecords(s, t, e);
      }
    }
  }

  // ---- the computation ----

  /** Any sorting routine does: the result is the one sorted order. */
  method SortAll(a: seq<Bytes>) returns (s: seq<Bytes>)
    ensures s == Sort(a)
  {
    s := [];
    for i := 0 to |a|
      invariant Sorted(s) && multiset(s) == multiset(a[..i])
    {
      s := InsertSorted(s, a[i]);
      assert a[..i + 1] == a[..i] + [a[i]];
    }
    assert a[..|a|] == a;
    SortSorts(a);
    SortedIsUnique(s, Sort(a));
  }

  method InsertSorted(s: seq<Bytes>, x: Bytes) returns (r: seq<Bytes>)
    requires Sorted(s)
    ensures Sorted(r) && multiset(r) == multiset(s) + multiset{x}
  {
    var j := |s|;
    while j > 0 && !Le(s[j - 1], x)
      invariant 0 <= j <= |s|
      invariant forall k :: j <= k < |s| ==> !Le(s[k], x)
    {
      j := j - 1;
    }
    InsertedAt(s, x, j);
    assert s == s[..j] + s[j..];
    r := s[..j] + [x] + s[j..];
  }

  lemma InsertedAt(s: seq<Bytes>, x: Bytes, j: nat)
    requires Sorted(s) && j <= |s| && (j > 0 ==> Le(s[j - 1], x)) && forall k :: j <= k < |s| ==> !Le(s[k], x)
    ensures Sorted(s[..j] + [x] + s[j..])
  {
    forall k | 0 <= k < j ensures Le(s[k], x) {
      if k < j - 1 {
        LeTransitive(s[k], s[j - 1], x);
      }
    }
    forall k | j <= k < |s| ensures Le(x, s[k]) {
      LeTotal(x, s[k]);
    }
  }

  lemma AppendOne(dst: Bytes, items: seq<Bytes>, i: nat)
    requires i < |items|
    ensures dst + PrefixedAll(items[..i]) + Prefixed(items[i]) == dst + PrefixedAll(items[..i + 1])
  {
    hide PrefixedAll, Prefixed;
    PrefixedAllAppends(items[..i], items[i]);
    assert items[..i + 1] == items[..i] + [items[i]];
  }

  method AppendPrefixed(dst: Bytes, items: seq<Bytes>) returns (out: Bytes)
    ensures out == dst + PrefixedAll(items)
  {
    hide PrefixedAll, Prefixed;
    out := dst;
    assert items[..0] == [] && PrefixedAll([]) == [] by {
      PrefixedNone();
    }
    for i := 0 to |items|
      invariant out == dst + PrefixedAll(items[..i])
    {
      AppendOne(dst, items, i);
      out := out + Prefixed(items[i]);
    }
    assert items[..|items|] == items;
  }

  lemma PrefixedNone()
    ensures PrefixedAll([]) == []
  {
  }

  lemma ThreePrefixed(a: Bytes, b: Bytes, c: Bytes)
    ensures PrefixedAll([a, b, c]) == Prefixed(a) + Prefixed(b) + Prefixed(c)
  {
    PrefixedAllAppends([], a);
    PrefixedAllAppends([a], b);
    PrefixedAllAppends([a, b], c);
    assert [] + [a] == [a] && [a] + [b] == [a, b] && [a, b] + [c] == [a, b, c];
  }

  method EncodeRecord(a: Assignment) returns (record: Bytes)
    ensures record == Record(a)
  {
    var labels := SortAll(a.labels);
    SortSorts(a.labels);
    assert |multiset(labels)| == |multiset(a.labels)|;
    record := EncodeNames(a);
    record := record + U64(a.requestID) + U64(a.runID) + U64(|labels|);
    record := AppendPrefixed(record, labels);
  }

  method EncodeNames(a: Assignment) returns (record: Bytes)
    ensures record == PrefixedAll([a.workload, a.tenant, a.project])
  {
    record := Prefixed(a.workload);
    record := record + Prefixed(a.tenant);
    record := record + Prefixed(a.project);
    ThreePrefixed(a.workload, a.tenant, a.project);
  }

  method EncodeRecords(assignments: seq<Assignment>) returns (records: seq<Bytes>)
    ensures records == Records(assignments)
  {
    records := [];
    for i := 0 to |assignments|
      invariant records == Records(assignments[..i])
    {
      var record := EncodeRecord(assignments[i]);
      assert Records(assignments[..i + 1]) == Records(assignments[..i]) + [record];
      records := records + [record];
    }
    assert assignments[..|assignments|] == assignments;
  }

  method CanonicalPreimage(assignments: seq<Assignment>) returns (out: Bytes)
    ensures out == Preimage(assignments)
  {
    var records := EncodeRecords(assignments);
    var sorted := SortAll(records);
    SortSorts(records);
    assert |multiset(sorted)| == |multiset(records)|;
    out := AppendPrefixed(DOMAIN + U64(|sorted|), sorted);
  }
}
