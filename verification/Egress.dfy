/**
 The egress decider against the firewall rules it renders.

 The relay asks `Allowed` per connection; the kernel applies the OUTPUT chain underneath.
 `RelayAgreesWithKernel` says when the two give the same answer, and `BuildDeny` shows that
 the deny sets in use make it so.
 */
module Egress {
  import opened Base

  type Address = a: int | 0 <= a < 0x1_0000_0000

  type Bits = b: int | 0 <= b <= 32

  /** An IPv4 prefix; bits beyond the length are ignored, as in the address libraries. */
  datatype Prefix = Prefix(base: Address, bits: Bits)

  /** `a` without its last `n` bits. */
  function Shift(a: nat, n: nat): nat {
    if n == 0 then a else Shift(a / 2, n - 1)
  }

  predicate Contains(p: Prefix, a: Address) { Shift(a, 32 - p.bits) == Shift(p.base, 32 - p.bits) }

  predicate Overlaps(p: Prefix, q: Prefix) {
    if p.bits <= q.bits then Contains(p, q.base) else Contains(q, p.base)
  }

  predicate Any(ps: seq<Prefix>, a: Address) { exists p :: p in ps && Contains(p, a) }

  // ---- prefixes are nested or apart ----

  lemma {:induction false} ShiftTwice(a: nat, m: nat, n: nat)
    ensures Shift(a, m + n) == Shift(Shift(a, m), n)
  {
    if m > 0 {
      ShiftTwice(a / 2, m - 1, n);
    }
  }

  lemma ShiftFour(a: nat)
    ensures Shift(a, 1) == a / 2 && Shift(a, 4) == a / 16
  {
    assert Shift(a, 1) == Shift(a / 2, 0);
    assert Shift(a, 4) == Shift(a / 2, 3) == Shift(a / 2 / 2, 2) == Shift(a / 2 / 2 / 2, 1) == Shift(a / 2 / 2 / 2 / 2, 0);
  }

  lemma ShiftBytes(a: nat)
    ensures Shift(a, 8) == a / 0x100 && Shift(a, 16) == a / 0x1_0000 && Shift(a, 24) == a / 0x100_0000
    ensures Shift(a, 28) == a / 0x1000_0000
  {
    ShiftTwice(a, 4, 4);
    ShiftFour(a);
    ShiftFour(a / 16);
    ShiftTwice(a, 8, 8);
    ShiftTwice(a / 0x100, 4, 4);
    ShiftFour(a / 0x100);
    ShiftFour(a / 0x1000);
    ShiftTwice(a, 16, 8);
    ShiftTwice(a / 0x1_0000, 4, 4);
    ShiftFour(a / 0x1_0000);
    ShiftFour(a / 0x10_0000);
    ShiftTwice(a, 24, 4);
    ShiftFour(a / 0x100_0000);
  }

  /** Sharing the longer prefix is sharing the shorter one. */
  lemma SharedLonger(a: Address, b: Address, longer: Bits, shorter: Bits)
    requires shorter <= longer && Shift(a, 32 - longer) == Shift(b, 32 - longer)
    ensures Shift(a, 32 - shorter) == Shift(b, 32 - shorter)
  {
    ShiftTwice(a, 32 - longer, longer - shorter);
    ShiftTwice(b, 32 - longer, longer - shorter);
  }

  /** Two prefixes that meet are nested: the longer lies inside the shorter. */
  lemma MeetIsNested(p: Prefix, q: Prefix, a: Address)
    requires q.bits <= p.bits && Contains(p, a) && Contains(q, a)
    ensures forall x: Address :: Contains(p, x) ==> Contains(q, x)
  {
    forall x: Address | Contains(p, x) ensures Contains(q, x) {
      SharedLonger(x, a, p.bits, q.bits);
    }
  }

  lemma OverlapMeets(p: Prefix, q: Prefix)
    ensures Overlaps(p, q) <==> exists a: Address :: Contains(p, a) && Contains(q, a)
  {
    if Overlaps(p, q) {
      assert Contains(p, p.base) && Contains(q, q.base);
    }
    if a: Address :| Contains(p, a) && Contains(q, a) {
      if p.bits <= q.bits {
        SharedLonger(a, q.base, q.bits, p.bits);
      } else {
        SharedLonger(a, p.base, p.bits, q.bits);
      }
    }
  }

  // ---- what no connection reaches ----

  const UNREACHABLE: seq<Prefix> :=
    [Prefix(0, 32), Prefix(0x7f00_0000, 8), Prefix(0xe000_0000, 4), Prefix(0xffff_ffff, 32)]

  const LINK_LOCAL: Prefix := Prefix(0xa9fe_0000, 16)

  const BASELINE_DENY: seq<Prefix> :=
    [Prefix(0, 8), Prefix(0x0a00_0000, 8), Prefix(0x6440_0000, 10), Prefix(0x7f00_0000, 8), Prefix(0xa9fe_0000, 16),
     Prefix(0xac10_0000, 12), Prefix(0xc000_0000, 24), Prefix(0xc0a8_0000, 16), Prefix(0xc612_0000, 15),
     Prefix(0xe000_0000, 4), Prefix(0xf000_0000, 4), Prefix(0xffff_ffff, 32)]

  /** An address as it arrives: IPv4, IPv4 written in the IPv6 form, or IPv6. */
  datatype Destination = V4(v4: Address) | Mapped(mapped: Address) | V6

  function Unmap(d: Destination): Option<Address> {
    match d
    case V4(a) => Some(a)
    case Mapped(a) => Some(a)
    case V6 => None
  }

  predicate ReachableV4(a: Address) { forall r :: r in UNREACHABLE ==> !Contains(r, a) }

  predicate Reachable(d: Destination) { Unmap(d).Some? && ReachableV4(Unmap(d).value) }

  /** An allow entry that could never take effect. */
  predicate RefusedOutright(p: Prefix) { exists r :: r in UNREACHABLE && r.bits <= p.bits && Contains(r, p.base) }

  /** An allow entry that reopens more of link-local than one address. */
  predicate ReopensLinkLocal(p: Prefix) { Overlaps(p, LINK_LOCAL) && p.bits != 32 }

  /** An allow entry strictly broader than a range the baseline withholds. */
  predicate WidensBaselineDeny(p: Prefix) {
    exists d :: d in BASELINE_DENY && p.bits < d.bits && Contains(p, d.base)
  }

  // ---- what the baseline withholds, address by address ----

  function Octets(a: nat, b: nat, c: nat, d: nat): nat { ((a * 256 + b) * 256 + c) * 256 + d }

  /** What is never a public destination: private ranges, loopback, link-local, carrier, benchmark, multicast and reserved. */
  predicate Withheld(a: Address) {
    || a < Octets(1, 0, 0, 0)
    || Octets(10, 0, 0, 0) <= a < Octets(11, 0, 0, 0)
    || Octets(100, 64, 0, 0) <= a < Octets(100, 128, 0, 0)
    || Octets(127, 0, 0, 0) <= a < Octets(128, 0, 0, 0)
    || Octets(169, 254, 0, 0) <= a < Octets(169, 255, 0, 0)
    || Octets(172, 16, 0, 0) <= a < Octets(172, 32, 0, 0)
    || Octets(192, 0, 0, 0) <= a < Octets(192, 0, 1, 0)
    || Octets(192, 168, 0, 0) <= a < Octets(192, 169, 0, 0)
    || Octets(198, 18, 0, 0) <= a < Octets(198, 20, 0, 0)
    || Octets(224, 0, 0, 0) <= a
  }

  lemma ShiftOdd(a: nat)
    ensures Shift(a, 17) == a / 0x2_0000 && Shift(a, 20) == a / 0x10_0000 && Shift(a, 22) == a / 0x40_0000
  {
    ShiftBytes(a);
    ShiftTwice(a, 16, 1);
    ShiftTwice(a, 16, 4);
    ShiftFour(a / 0x1_0000);
    ShiftTwice(a, 20, 2);
    ShiftTwice(a / 0x10_0000, 1, 1);
    ShiftFour(a / 0x10_0000);
    ShiftFour(a / 0x20_0000);
  }

  /** A prefix is the addresses from its base up to the next prefix of its length. */
  lemma PrefixIsRange(p: Prefix, size: nat, a: Address)
    requires (p.bits, size) in {(4, 0x1000_0000), (8, 0x100_0000), (10, 0x40_0000), (12, 0x10_0000), (15, 0x2_0000), (16, 0x1_0000), (24, 0x100), (32, 1)}
    requires p.base % size == 0
    ensures Contains(p, a) <==> p.base <= a < p.base + size
  {
    hide Shift;
    assert Shift(a, 0) == a && Shift(p.base, 0) == p.base by { ShiftNone(a); ShiftNone(p.base); }
    ShiftBytes(a);
    ShiftBytes(p.base);
    ShiftOdd(a);
    ShiftOdd(p.base);
  }

  lemma ShiftNone(a: nat)
    ensures Shift(a, 0) == a
  {
  }

  lemma LinkLocalMeans(a: Address)
    ensures Contains(LINK_LOCAL, a) <==> Octets(169, 254, 0, 0) <= a < Octets(169, 255, 0, 0)
  {
    PrefixIsRange(LINK_LOCAL, 0x1_0000, a);
  }

  /** The baseline covers exactly the withheld addresses. */
  lemma BaselineMeans(a: Address)
    ensures Any(BASELINE_DENY, a) <==> Withheld(a)
  {
    hide Contains;
    PrefixIsRange(BASELINE_DENY[0], 0x100_0000, a);
    PrefixIsRange(BASELINE_DENY[1], 0x100_0000, a);
    PrefixIsRange(BASELINE_DENY[2], 0x40_0000, a);
    PrefixIsRange(BASELINE_DENY[3], 0x100_0000, a);
    PrefixIsRange(BASELINE_DENY[4], 0x1_0000, a);
    PrefixIsRange(BASELINE_DENY[5], 0x10_0000, a);
    PrefixIsRange(BASELINE_DENY[6], 0x100, a);
    PrefixIsRange(BASELINE_DENY[7], 0x1_0000, a);
    PrefixIsRange(BASELINE_DENY[8], 0x2_0000, a);
    PrefixIsRange(BASELINE_DENY[9], 0x1000_0000, a);
    PrefixIsRange(BASELINE_DENY[10], 0x1000_0000, a);
    PrefixIsRange(BASELINE_DENY[11], 1, a);
    AnyByPlace(BASELINE_DENY, a);
  }

  lemma AnyByPlace(ps: seq<Prefix>, a: Address)
    ensures Any(ps, a) <==> exists i :: 0 <= i < |ps| && Contains(ps[i], a)
  {
    if i :| 0 <= i < |ps| && Contains(ps[i], a) {
      assert ps[i] in ps;
    }
  }

  /** A neighbour of each unreachable range that a connection can reach. */
  function Neighbour(r: Prefix): Address {
    if r == UNREACHABLE[0] then 1
    else if r == UNREACHABLE[1] then 0x7e00_0000
    else if r == UNREACHABLE[2] then 0xf000_0000
    else 0xffff_fffe
  }

  lemma ReachableMeans(a: Address)
    ensures ReachableV4(a) <==>
            a != 0 && a / 0x100_0000 != 0x7f && a / 0x1000_0000 != 0xe && a != 0xffff_ffff
  {
    ShiftBytes(a);
    ShiftBytes(0x7f00_0000);
    ShiftBytes(0xe000_0000);
    assert UNREACHABLE[0] in UNREACHABLE && UNREACHABLE[1] in UNREACHABLE && UNREACHABLE[2] in UNREACHABLE && UNREACHABLE[3] in UNREACHABLE;
    assert Contains(UNREACHABLE[0], a) <==> a == 0;
    assert Contains(UNREACHABLE[1], a) <==> a / 0x100_0000 == 0x7f;
    assert Contains(UNREACHABLE[2], a) <==> a / 0x1000_0000 == 0xe;
    assert Contains(UNREACHABLE[3], a) <==> a == 0xffff_ffff;
  }

  lemma NeighbourIsReachable(r: Prefix)
    requires r in UNREACHABLE
    ensures ReachableV4(Neighbour(r))
  {
    ReachableMeans(Neighbour(r));
  }

  /** It shares all of the range's bits but the last. */
  lemma NeighbourIsNear(r: Prefix)
    requires r in UNREACHABLE
    ensures Contains(Prefix(r.base, r.bits - 1), Neighbour(r))
  {
    hide Shift;
    var n := Neighbour(r);
    ShiftNone(n);
    ShiftNone(r.base);
    HalfShift(n, 32 - r.bits);
    HalfShift(r.base, 32 - r.bits);
    ShiftBytes(n);
    ShiftBytes(r.base);
  }

  lemma HalfShift(a: nat, n: nat)
    ensures Shift(a, n + 1) == Shift(a, n) / 2
  {
    ShiftTwice(a, n, 1);
    ShiftFour(Shift(a, n));
  }

  /** The rule refuses exactly the entries none of whose addresses a connection reaches. */
  lemma RefusedExactly(p: Prefix)
    ensures RefusedOutright(p) <==> forall a: Address :: Contains(p, a) ==> !ReachableV4(a)
  {
    if r :| r in UNREACHABLE && r.bits <= p.bits && Contains(r, p.base) {
      MeetIsNested(p, r, p.base);
    } else {
      assert Contains(p, p.base);
      if r :| r in UNREACHABLE && Contains(r, p.base) {
        assert p.bits < r.bits;
        NeighbourIsReachable(r);
        NeighbourIsNear(r);
        SharedLonger(p.base, r.base, r.bits, p.bits);
        SharedLonger(Neighbour(r), r.base, r.bits - 1, p.bits);
        assert Contains(p, Neighbour(r));
      } else {
        assert ReachableV4(p.base);
      }
    }
  }

  // ---- the other two rules mean what they say ----

  lemma ShiftStep(a: nat, n: nat)
    requires n > 0
    ensures Shift(a, n) == Shift(a / 2, n - 1)
  {
  }

  lemma Flip(a: nat, m: nat) returns (b: nat)
    requires a < 2 * m
    ensures b < 2 * m && b / 2 == a / 2 && b != a
  {
    b := if a % 2 == 0 then a + 1 else a - 1;
  }

  /** Another address, alike above place `n` and different there. */
  lemma {:induction false} Twin(a: nat, n: nat, places: nat) returns (b: nat)
    requires n < places && a < Power(places)
    ensures b < Power(places) && Shift(b, n + 1) == Shift(a, n + 1) && Shift(b, n) != Shift(a, n)
  {
    hide Shift;
    if n == 0 {
      b := Flip(a, Power(places - 1));
      ShiftNone(a);
      ShiftNone(b);
    } else {
      var half := Twin(a / 2, n - 1, places - 1);
      b := 2 * half;
      assert b / 2 == half;
      ShiftStep(a, n);
      ShiftStep(b, n);
    }
    ShiftStep(a, n + 1);
    ShiftStep(b, n + 1);
  }

  function Power(n: nat): nat { if n == 0 then 1 else 2 * Power(n - 1) }

  lemma AddressPlaces()
    ensures Power(32) == 0x1_0000_0000
  {
    assert Power(8) == 0x100;
    assert Power(16) == 0x1_0000;
    assert Power(24) == 0x100_0000;
  }

  /** A prefix that contains a longer one has an address outside it. */
  lemma Outside(p: Prefix, d: Prefix) returns (a: Address)
    requires p.bits < d.bits && Contains(p, d.base)
    ensures Contains(p, a) && !Contains(d, a)
  {
    AddressPlaces();
    var b := Twin(d.base, 32 - d.bits, 32);
    SharedLonger(b, d.base, d.bits - 1, p.bits);
    a := b;
  }

  /** Strictly broader: all of the range, and more. */
  lemma WidensExactly(p: Prefix)
    ensures WidensBaselineDeny(p) <==>
            exists d :: d in BASELINE_DENY && (forall a: Address :: Contains(d, a) ==> Contains(p, a))
                        && (exists a: Address :: Contains(p, a) && !Contains(d, a))
  {
    if d :| d in BASELINE_DENY && p.bits < d.bits && Contains(p, d.base) {
      MeetIsNested(d, p, d.base);
      var a := Outside(p, d);
    }
    if d :| d in BASELINE_DENY && (forall a: Address :: Contains(d, a) ==> Contains(p, a))
            && (exists a: Address :: Contains(p, a) && !Contains(d, a)) {
      assert Contains(d, d.base);
      if d.bits <= p.bits {
        MeetIsNested(p, d, d.base);
      }
    }
  }

  /** It meets link-local and has two addresses. */
  lemma ReopensExactly(p: Prefix)
    ensures ReopensLinkLocal(p) <==>
            && (exists a: Address :: Contains(p, a) && Contains(LINK_LOCAL, a))
            && (exists a: Address, b: Address :: Contains(p, a) && Contains(p, b) && a != b)
  {
    OverlapMeets(p, LINK_LOCAL);
    if p.bits != 32 {
      var a := Outside(p, Prefix(p.base, 32));
      assert Contains(p, p.base) && Contains(p, a) && a != p.base;
    }
  }

  // ---- policies ----

  /** One entry as it was written. */
  datatype Entry = Malformed | OtherFamily | Net(prefix: Prefix)

  datatype Policy = Policy(internalSubnet: Entry, uplinkSubnet: Entry, allow: seq<Entry>, deny: seq<Entry>)

  predicate GoodAllow(e: Entry) {
    e.Net? && !WidensBaselineDeny(e.prefix) && !RefusedOutright(e.prefix) && !ReopensLinkLocal(e.prefix)
  }

  predicate Validates(p: Policy) {
    && !p.internalSubnet.Malformed? && !p.uplinkSubnet.Malformed? && p.deny != []
    && (forall e :: e in p.deny ==> e.Net?)
    && (forall e :: e in p.allow ==> GoodAllow(e))
  }

  /** A valid allow entry that meets a withheld range lies inside it. */
  lemma AllowsLieInside(p: Policy, e: Entry, d: Prefix)
    requires Validates(p) && e in p.allow && d in BASELINE_DENY && Overlaps(e.prefix, d)
    ensures forall a: Address :: Contains(e.prefix, a) ==> Contains(d, a)
  {
    assert GoodAllow(e);
    OverlapMeets(e.prefix, d);
    var a: Address :| Contains(e.prefix, a) && Contains(d, a);
    MeetIsNested(e.prefix, d, a);
  }

  /** Link-local is opened one address at a time. */
  lemma LinkLocalOneByOne(p: Policy, e: Entry, a: Address)
    requires Validates(p) && e in p.allow && Contains(e.prefix, a) && Overlaps(e.prefix, LINK_LOCAL)
    ensures a == e.prefix.base
  {
    assert GoodAllow(e);
  }

  /** Every valid allow entry reaches somewhere. */
  lemma AllowsTakeEffect(p: Policy, e: Entry)
    requires Validates(p) && e in p.allow
    ensures exists a: Address :: Contains(e.prefix, a) && ReachableV4(a)
  {
    assert GoodAllow(e);
    RefusedExactly(e.prefix);
  }

  // ---- deciding ----

  datatype Decider = Decider(allow: seq<Prefix>, deny: seq<Prefix>)

  function Prefixes(es: seq<Entry>): seq<Prefix> {
    if es == [] then []
    else Prefixes(es[..|es| - 1]) + (match es[|es| - 1] case Net(p) => [p] case _ => [])
  }

  lemma {:induction false} PrefixesHave(es: seq<Entry>, p: Prefix)
    ensures p in Prefixes(es) <==> Net(p) in es
  {
    if es != [] {
      PrefixesHave(es[..|es| - 1], p);
      assert es == es[..|es| - 1] + [es[|es| - 1]];
    }
  }

  /** An entry of the policy speaks for the address. */
  ghost predicate Speaks(es: seq<Entry>, a: Address) { exists e :: e in es && e.Net? && Contains(e.prefix, a) }

  /** A compiled policy decides by its entries: a reachable address is let through if allowed, or not denied nor link-local. */
  lemma PolicyDecides(p: Policy, a: Address)
    requires Validates(p)
    ensures Allowed(Decider(Prefixes(p.allow), Prefixes(p.deny)), V4(a)) <==>
            ReachableV4(a) && (Speaks(p.allow, a) || (!Speaks(p.deny, a) && !Contains(LINK_LOCAL, a)))
  {
    PrefixesSpeak(p.allow, a);
    PrefixesSpeak(p.deny, a);
  }

  lemma PrefixesSpeak(es: seq<Entry>, a: Address)
    ensures Any(Prefixes(es), a) <==> Speaks(es, a)
  {
    if q :| q in Prefixes(es) && Contains(q, a) {
      PrefixesHave(es, q);
      assert Net(q) in es && Net(q).Net?;
    }
    if e :| e in es && e.Net? && Contains(e.prefix, a) {
      PrefixesHave(es, e.prefix);
    }
  }

  /** Entries that are all IPv4 prefixes. */
  method Compiled(es: seq<Entry>) returns (ps: seq<Prefix>)
    requires forall e :: e in es ==> e.Net?
    ensures ps == Prefixes(es)
  {
    ps := [];
    for i := 0 to |es|
      invariant ps == Prefixes(es[..i])
    {
      assert es[i] in es;
      assert es[..i + 1][..i] == es[..i];
      ps := ps + [es[i].prefix];
    }
    assert es[..|es|] == es;
  }

  method Compile(p: Policy) returns (d: Option<Decider>)
    ensures d.Some? <==> Validates(p)
    ensures d.Some? ==> d.value == Decider(Prefixes(p.allow), Prefixes(p.deny))
  {
    hide Prefixes, WidensBaselineDeny, RefusedOutright, ReopensLinkLocal;
    if !Validates(p) {
      return None;
    }
    assert forall e :: e in p.allow ==> GoodAllow(e);
    var allow := Compiled(p.allow);
    var deny := Compiled(p.deny);
    return Some(Decider(allow, deny));
  }

  /** Whether the relay may connect. An explicit allow wins over everything but what cannot be reached. */
  predicate Allowed(d: Decider, to: Destination) {
    && Reachable(to)
    && (Any(d.allow, Unmap(to).value)
        || (!Contains(LINK_LOCAL, Unmap(to).value) && !Any(d.deny, Unmap(to).value)))
  }

  // ---- the rules underneath ----

  datatype Match = Loopback | Established | To(prefix: Prefix) | Anything

  datatype Verdict = ACCEPT | REJECT | DROP

  datatype Rule = Rule(match_: Match, verdict: Verdict)

  /** A packet on its way out; `established` is one of a connection that was let through. */
  datatype Packet = Packet(to: Address, loopback: bool, established: bool)

  /** One that opens a connection over a real interface. */
  function New(to: Address): Packet { Packet(to, false, false) }

  predicate Matches(m: Match, p: Packet) {
    match m
    case Loopback => p.loopback
    case Established => p.established
    case To(prefix) => Contains(prefix, p.to)
    case Anything => true
  }

  /** The first rule that matches decides; the chain's policy is to drop. */
  function FirstMatch(rules: seq<Rule>, p: Packet): Verdict {
    if rules == [] then DROP
    else if Matches(rules[0].match_, p) then rules[0].verdict
    else FirstMatch(rules[1..], p)
  }

  function Rules(ps: seq<Prefix>, v: Verdict): seq<Rule> { seq(|ps|, i requires 0 <= i < |ps| => Rule(To(ps[i]), v)) }

  function OutputChain(d: Decider): seq<Rule> {
    [Rule(Loopback, ACCEPT), Rule(Established, ACCEPT)] + Rules(d.allow, ACCEPT) + Rules(d.deny, REJECT) + [Rule(Anything, ACCEPT)]
  }

  method RenderOutput(d: Decider) returns (rules: seq<Rule>)
    ensures rules == OutputChain(d)
  {
    rules := [Rule(Loopback, ACCEPT), Rule(Established, ACCEPT)];
    for i := 0 to |d.allow|
      invariant rules == [Rule(Loopback, ACCEPT), Rule(Established, ACCEPT)] + Rules(d.allow[..i], ACCEPT)
    {
      assert Rules(d.allow[..i + 1], ACCEPT) == Rules(d.allow[..i], ACCEPT) + [Rule(To(d.allow[i]), ACCEPT)];
      rules := rules + [Rule(To(d.allow[i]), ACCEPT)];
    }
    assert d.allow[..|d.allow|] == d.allow;
    for i := 0 to |d.deny|
      invariant rules == [Rule(Loopback, ACCEPT), Rule(Established, ACCEPT)] + Rules(d.allow, ACCEPT) + Rules(d.deny[..i], REJECT)
    {
      assert Rules(d.deny[..i + 1], REJECT) == Rules(d.deny[..i], REJECT) + [Rule(To(d.deny[i]), REJECT)];
      rules := rules + [Rule(To(d.deny[i]), REJECT)];
    }
    assert d.deny[..|d.deny|] == d.deny;
    rules := rules + [Rule(Anything, ACCEPT)];
  }

  lemma {:induction false} PassesBy(ps: seq<Prefix>, v: Verdict, rest: seq<Rule>, p: Packet)
    ensures FirstMatch(Rules(ps, v) + rest, p) == if Any(ps, p.to) then v else FirstMatch(rest, p)
  {
    if ps == [] {
      assert Rules(ps, v) + rest == rest;
    } else {
      assert (Rules(ps, v) + rest)[1..] == Rules(ps[1..], v) + rest;
      PassesBy(ps[1..], v, rest, p);
      assert ps == [ps[0]] + ps[1..];
      assert Any(ps, p.to) <==> Contains(ps[0], p.to) || Any(ps[1..], p.to);
    }
  }

  /** Loopback and what was let through passes; of the rest, allows go before denies, and anything else passes. */
  lemma KernelDecides(d: Decider, p: Packet)
    ensures FirstMatch(OutputChain(d), p) ==
            if p.loopback || p.established || Any(d.allow, p.to) then ACCEPT else if Any(d.deny, p.to) then REJECT else ACCEPT
  {
    var last := [Rule(Anything, ACCEPT)];
    var tail := Rules(d.allow, ACCEPT) + (Rules(d.deny, REJECT) + last);
    assert OutputChain(d) == [Rule(Loopback, ACCEPT), Rule(Established, ACCEPT)] + tail;
    assert OutputChain(d)[1..][1..] == tail;
    PassesBy(d.allow, ACCEPT, Rules(d.deny, REJECT) + last, p);
    PassesBy(d.deny, REJECT, last, p);
  }

  /** Every link-local address is spoken for by the policy. */
  ghost predicate CoversLinkLocal(d: Decider) {
    forall a: Address :: Contains(LINK_LOCAL, a) ==> Any(d.allow, a) || Any(d.deny, a)
  }

  lemma LinkLocalIsReachable(a: Address)
    requires Contains(LINK_LOCAL, a)
    ensures ReachableV4(a)
  {
    ShiftBytes(a);
    ShiftBytes(LINK_LOCAL.base);
    ReachableMeans(a);
  }

  /**
   Relay and kernel agree on every address a connection can reach exactly when the policy
   speaks for all of link-local.
   */
  lemma RelayAgreesWithKernel(d: Decider)
    ensures CoversLinkLocal(d) <==>
            forall a: Address :: ReachableV4(a) ==> (Allowed(d, V4(a)) <==> FirstMatch(OutputChain(d), New(a)) == ACCEPT)
  {
    forall a: Address ensures FirstMatch(OutputChain(d), New(a)) == ACCEPT <==> Any(d.allow, a) || !Any(d.deny, a) {
      KernelDecides(d, New(a));
    }
    forall a: Address | Contains(LINK_LOCAL, a) ensures ReachableV4(a) {
      LinkLocalIsReachable(a);
    }
    if forall a: Address :: ReachableV4(a) ==> (Allowed(d, V4(a)) <==> FirstMatch(OutputChain(d), New(a)) == ACCEPT) {
      forall a: Address | Contains(LINK_LOCAL, a) ensures Any(d.allow, a) || Any(d.deny, a) {
        assert Allowed(d, V4(a)) <==> FirstMatch(OutputChain(d), New(a)) == ACCEPT;
      }
    }
  }

  /** Validation alone does not bring that about: the relay refuses link-local on its own account. */
  lemma ValidPoliciesMayDisagree() returns (p: Policy, to: Address)
    ensures Validates(p) && ReachableV4(to)
    ensures var d := Decider(Prefixes(p.allow), Prefixes(p.deny)); !Allowed(d, V4(to)) && FirstMatch(OutputChain(d), New(to)) == ACCEPT
  {
    p := Policy(OtherFamily, OtherFamily, [], [Net(BASELINE_DENY[1])]);
    to := LINK_LOCAL.base;
    LinkLocalIsReachable(to);
    var d := Decider(Prefixes(p.allow), Prefixes(p.deny));
    assert d.deny == [BASELINE_DENY[1]] && d.allow == [];
    KernelDecides(d, New(to));
    ShiftBytes(to);
    ShiftBytes(BASELINE_DENY[1].base);
  }

  /** An address in the IPv6 form is decided like the IPv4 address it carries, and IPv6 is refused. */
  lemma FormsDoNotMatter(d: Decider, a: Address)
    ensures Allowed(d, Mapped(a)) <==> Allowed(d, V4(a))
    ensures !Allowed(d, V6)
  {
  }

  // ---- the deny sets in use ----

  method Add(out: seq<Prefix>, e: Entry) returns (r: seq<Prefix>)
    requires Distinct(out)
    ensures Distinct(r) && out <= r && forall p :: p in r <==> p in out || e == Net(p)
  {
    if !e.Net? || e.prefix in out {
      return out;
    }
    return out + [e.prefix];
  }

  method AddAll(out: seq<Prefix>, es: seq<Entry>) returns (r: seq<Prefix>)
    requires Distinct(out)
    ensures Distinct(r) && out <= r && forall p :: p in r <==> p in out || Net(p) in es
  {
    r := out;
    for i := 0 to |es|
      invariant Distinct(r) && out <= r && forall p :: p in r <==> p in out || Net(p) in es[..i]
    {
      r := Add(r, es[i]);
      assert es[..i + 1] == es[..i] + [es[i]];
    }
    assert es[..|es|] == es;
  }

  /** The baseline first, then every other IPv4 subnet that must not be reached, each once. */
  method BuildDeny(uplink: Entry, host: seq<Entry>, docker: seq<Entry>) returns (deny: seq<Prefix>)
    ensures Distinct(deny) && BASELINE_DENY <= deny
    ensures forall p :: p in deny <==> p in BASELINE_DENY || Net(p) == uplink || Net(p) in host || Net(p) in docker
    ensures forall allow :: CoversLinkLocal(Decider(allow, deny))
    ensures forall allow, a: Address :: Withheld(a) && !Any(allow, a) ==>
              !Allowed(Decider(allow, deny), V4(a)) && FirstMatch(OutputChain(Decider(allow, deny)), New(a)) == REJECT
  {
    deny := BASELINE_DENY;
    deny := Add(deny, uplink);
    deny := AddAll(deny, host);
    deny := AddAll(deny, docker);
    assert deny[4] == LINK_LOCAL && LINK_LOCAL in deny;
    forall allow, a: Address | Withheld(a) && !Any(allow, a)
      ensures !Allowed(Decider(allow, deny), V4(a)) && FirstMatch(OutputChain(Decider(allow, deny)), New(a)) == REJECT
    {
      WithheldIsDenied(allow, deny, a);
    }
  }

  /** Whatever else is denied or allowed, a withheld address takes an allow entry of its own. */
  lemma WithheldIsDenied(allow: seq<Prefix>, deny: seq<Prefix>, a: Address)
    requires BASELINE_DENY <= deny && Withheld(a) && !Any(allow, a)
    ensures !Allowed(Decider(allow, deny), V4(a)) && FirstMatch(OutputChain(Decider(allow, deny)), New(a)) == REJECT
  {
    BaselineMeans(a);
    var p :| p in BASELINE_DENY && Contains(p, a);
    assert p in deny;
    KernelDecides(Decider(allow, deny), New(a));
  }

  /** An address of one of these subnets. */
  ghost predicate Within(a: Address, uplink: Entry, host: seq<Entry>, docker: seq<Entry>) {
    exists p :: Contains(p, a) && (Net(p) == uplink || Net(p) in host || Net(p) in docker)
  }

  /** With such a deny set: reachable, and either allowed by name or neither withheld nor in a subnet of the host's. */
  lemma AllowedExactly(allow: seq<Prefix>, deny: seq<Prefix>, uplink: Entry, host: seq<Entry>, docker: seq<Entry>, a: Address)
    requires forall p :: p in deny <==> p in BASELINE_DENY || Net(p) == uplink || Net(p) in host || Net(p) in docker
    ensures Allowed(Decider(allow, deny), V4(a)) <==>
            ReachableV4(a) && (Any(allow, a) || (!Withheld(a) && !Within(a, uplink, host, docker)))
  {
    BaselineMeans(a);
    LinkLocalMeans(a);
    if Any(deny, a) {
      var p :| p in deny && Contains(p, a);
      assert p in BASELINE_DENY || Within(a, uplink, host, docker);
    }
    if Any(BASELINE_DENY, a) {
      var p :| p in BASELINE_DENY && Contains(p, a);
      assert p in deny;
    }
    if Within(a, uplink, host, docker) {
      var p :| Contains(p, a) && (Net(p) == uplink || Net(p) in host || Net(p) in docker);
      assert p in deny;
    }
  }
}
