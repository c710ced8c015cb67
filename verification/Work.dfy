/**
 How much work a plan may be: candidates looked at, in rounds.
 */
module Work {
  import opened Base

  /** `n` candidates looked at `rounds` times. */
  function Looks(n: nat, rounds: nat): (r: nat) {
    if rounds == 0 then 0 else Looks(n, rounds - 1) + n
  }

  /** The least `n` with 2^n at least the argument. */
  function Log2Up(n: nat): nat {
    if n <= 1 then 0 else 1 + Log2Up((n + 1) / 2)
  }

  function Power2(n: nat): nat { if n == 0 then 1 else 2 * Power2(n - 1) }

  /** The logarithm rounded up: the least power of two that reaches `n`. */
  lemma {:induction false} Log2UpIsLeast(n: nat)
    ensures n <= Power2(Log2Up(n)) && (n > 1 ==> Power2(Log2Up(n) - 1) < n)
  {
    if n > 1 {
      Log2UpIsLeast((n + 1) / 2);
    }
  }

  /** From `before` to `after` at most `n` candidates were looked at `rounds` times. */
  ghost predicate Few(before: int, after: int, n: nat, rounds: nat) {
    after <= before + Looks(n, rounds)
  }

  lemma FewIsProduct(before: int, after: int, n: nat, rounds: nat)
    ensures Few(before, after, n, rounds) <==> after - before <= n * rounds
  {
    LooksIsProduct(n, rounds);
  }

  lemma {:induction false} LooksIsProduct(n: nat, rounds: nat)
    ensures Looks(n, rounds) == n * rounds
  {
    if rounds > 0 {
      LooksIsProduct(n, rounds - 1);
      assert n * rounds == n * (rounds - 1) + n;
    }
  }

  lemma {:induction false} LooksMonotone(n: nat, a: nat, b: nat)
    requires a <= b
    ensures Looks(n, a) <= Looks(n, b)
  {
    if a < b {
      LooksMonotone(n, a, b - 1);
    }
  }

  lemma {:induction false} LooksWider(n: nat, n': nat, rounds: nat)
    requires n <= n'
    ensures Looks(n, rounds) <= Looks(n', rounds)
  {
    if rounds > 0 {
      LooksWider(n, n', rounds - 1);
    }
  }

  lemma {:induction false} LooksTogether(n: nat, n': nat, rounds: nat)
    ensures Looks(n, rounds) + Looks(n', rounds) == Looks(n + n', rounds)
  {
    if rounds > 0 {
      LooksTogether(n, n', rounds - 1);
    }
  }

  lemma {:induction false} LooksInTurn(n: nat, a: nat, b: nat)
    ensures Looks(n, a) + Looks(n, b) == Looks(n, a + b)
  {
    if b > 0 {
      LooksInTurn(n, a, b - 1);
    }
  }

  /** Nothing looked at, or everybody once. */
  lemma FewAtMost(before: int, after: int, n: nat, rounds: nat)
    requires after <= before + (if rounds == 0 then 0 else n)
    ensures Few(before, after, n, rounds)
  {
    if rounds > 0 {
      LooksMonotone(n, 1, rounds);
    }
  }

  lemma FewWidens(before: int, after: int, n: nat, n': nat, rounds: nat, rounds': nat)
    requires Few(before, after, n, rounds) && n <= n' && rounds <= rounds'
    ensures Few(before, after, n', rounds')
  {
    LooksWider(n, n', rounds);
    LooksMonotone(n', rounds, rounds');
  }

  lemma FewTogether(before: int, between: int, after: int, n: nat, n': nat, rounds: nat)
    requires Few(before, between, n, rounds) && Few(between, after, n', rounds)
    ensures Few(before, after, n + n', rounds)
  {
    LooksTogether(n, n', rounds);
  }

  lemma FewInTurn(before: int, between: int, after: int, n: nat, rounds: nat, rounds': nat)
    requires Few(before, between, n, rounds) && Few(between, after, n, rounds')
    ensures Few(before, after, n, rounds + rounds')
  {
    LooksInTurn(n, rounds, rounds');
  }

  lemma FewShifts(before: int, after: int, n: nat, rounds: nat, shift: int)
    requires Few(before, after, n, rounds)
    ensures Few(before + shift, after + shift, n, rounds)
  {
  }

  // ---- binary search ----

  /** A search over `span` levels has `left` of them to go, having looked at `n` candidates per halving. */
  ghost predicate Searching(visits: nat, n: nat, left: nat, span: nat) {
    exists rounds: nat :: visits <= Looks(n, rounds) && rounds + Log2Up(left) <= Log2Up(span)
  }

  lemma SearchStarts(n: nat, span: nat)
    ensures Searching(0, n, span, span)
  {
    assert 0 <= Looks(n, 0);
  }

  lemma {:induction false} Log2UpMonotone(a: nat, b: nat)
    requires a <= b
    ensures Log2Up(a) <= Log2Up(b)
  {
    if a > 1 {
      Log2UpMonotone((a + 1) / 2, (b + 1) / 2);
    }
  }

  /** Either half of an interval of `s > 1` levels saves one round of the search. */
  lemma Halved(s: nat)
    requires s > 1
    ensures Log2Up(s / 2) + 1 <= Log2Up(s) && Log2Up(s - s / 2) + 1 <= Log2Up(s)
  {
    Log2UpMonotone(s / 2, (s + 1) / 2);
    assert s - s / 2 == (s + 1) / 2;
  }

  lemma SearchNarrows(visits: nat, count: nat, n: nat, left: nat, half: nat, span: nat)
    requires Searching(visits, n, left, span) && count <= n && left > 1
    requires half == left / 2 || half == left - left / 2
    ensures Searching(visits + count, n, half, span)
  {
    var rounds: nat :| visits <= Looks(n, rounds) && rounds + Log2Up(left) <= Log2Up(span);
    Halved(left);
    assert visits + count <= Looks(n, rounds + 1);
  }

  lemma SearchEnds(visits: nat, n: nat, left: nat, span: nat)
    requires Searching(visits, n, left, span)
    ensures Few(0, visits, n, Log2Up(span))
  {
    var rounds: nat :| visits <= Looks(n, rounds) && rounds + Log2Up(left) <= Log2Up(span);
    LooksMonotone(n, rounds, Log2Up(span));
  }
}
