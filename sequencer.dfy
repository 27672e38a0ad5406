/**
 * Track sequencing shared by both players: the sequential `next` step, the two
 * ways the players write `previous`, and the initial index pick of the
 * buffer-based player.
 *
 * All operands are non-negative here, so Dafny's Euclidean `%` agrees with
 * JavaScript's truncating `%`.
 */
module Sequencer {

  /** The index after `i` in a list of `n` tracks: `(i + 1) % n`. */
  function Next(i: nat, n: nat): (r: nat)
    requires n > 0
    ensures r < n
    ensures i + 1 < n ==> r == i + 1
    ensures i + 1 == n ==> r == 0
  {
    (i + 1) % n
  }

  /** The buffer-based player's previous index: `(i - 1 + n) % n`. */
  function PreviousWrap(i: nat, n: nat): (r: nat)
    requires n > 0
    ensures r < n
    ensures 0 < i <= n ==> r == i - 1
    ensures i == 0 ==> r == n - 1
  {
    (i - 1 + n) % n
  }

  /** The element-based player's previous index: `i === 0 ? n - 1 : i - 1`. */
  function PreviousBranch(i: nat, n: nat): (r: nat)
    requires n > 0
    ensures i < n ==> r < n
    ensures i == 0 ==> r == n - 1
    ensures i > 0 ==> r + 1 == i
  {
    if i == 0 then n - 1 else i - 1
  }

  /** On every in-range index the two `previous` formulas agree. */
  lemma PreviousFormulasAgree(i: nat, n: nat)
    requires i < n
    ensures PreviousBranch(i, n) == PreviousWrap(i, n)
  {
  }

  /** `previous` undoes `next`, in both formulations. */
  lemma PreviousAfterNext(i: nat, n: nat)
    requires i < n
    ensures PreviousWrap(Next(i, n), n) == i
    ensures PreviousBranch(Next(i, n), n) == i
  {
  }

  /** `next` undoes `previous`, in both formulations. */
  lemma NextAfterPrevious(i: nat, n: nat)
    requires i < n
    ensures Next(PreviousWrap(i, n), n) == i
    ensures Next(PreviousBranch(i, n), n) == i
  {
  }

  /** `k` successive `next` steps from `i`. */
  function Advance(i: nat, n: nat, k: nat): (r: nat)
    requires n > 0
    ensures k > 0 ==> r < n
  {
    if k == 0 then i else Next(Advance(i, n, k - 1), n)
  }

  /** A product of a positive multiplier and `n` is at least `n`. */
  lemma MulAtLeast(k: int, n: nat)
    requires k >= 1
    ensures k * n >= n
  {
    assert k * n == (k - 1) * n + n;
    MulNonNegativeInt(k - 1, n);
  }

  lemma MulNonNegativeInt(k: nat, n: nat)
    ensures k * n >= 0
  {
  }

  /** Quotient and remainder are unique: any such decomposition of `a` gives `a % n`. */
  lemma ModUnique(a: nat, n: nat, q: int, r: int)
    requires n > 0 && 0 <= r < n && a == q * n + r
    ensures a % n == r
  {
    var q', r' := a / n, a % n;
    assert a == q' * n + r';
    assert (q - q') * n == r' - r;
    if q > q' {
      MulAtLeast(q - q', n);
    } else if q < q' {
      MulAtLeast(q' - q, n);
    }
  }

  /** Adding one after reducing modulo `n` is the same as reducing after adding one. */
  lemma ModSuccessor(a: nat, n: nat)
    requires n > 0
    ensures (a % n + 1) % n == (a + 1) % n
  {
    var q, r := a / n, a % n;
    assert a == q * n + r;
    if r + 1 < n {
      ModUnique(a + 1, n, q, r + 1);
      ModUnique(r + 1, n, 0, r + 1);
    } else {
      assert a + 1 == (q + 1) * n;
      ModUnique(a + 1, n, q + 1, 0);
      ModUnique(r + 1, n, 1, 0);
    }
  }

  /** `k` nexts from an in-range index land on `(i + k) % n`. */
  lemma {:induction false} AdvanceIsModularSum(i: nat, n: nat, k: nat)
    requires i < n
    ensures Advance(i, n, k) == (i + k) % n
  {
    if k > 0 {
      AdvanceIsModularSum(i, n, k - 1);
      ModSuccessor(i + k - 1, n);
    }
  }

  /** `n` nexts from any in-range index go once round the list and return to it. */
  lemma FullCycle(i: nat, n: nat)
    requires i < n
    ensures Advance(i, n, n) == i
  {
    AdvanceIsModularSum(i, n, n);
    ModUnique(i + n, n, 1, i);
  }

  /** Starting at 0 with three tracks, three nexts visit 1, 2 and then 0. */
  lemma ThreeNextsFromZero()
    ensures Advance(0, 3, 1) == 1 && Advance(0, 3, 2) == 2 && Advance(0, 3, 3) == 0
  {
  }

  /**
   * The buffer-based player's initial pick `Math.floor(Math.random() * n)`:
   * `u` stands for the value `Math.random()` returned, in [0, 1).
   */
  function InitialIndex(n: nat, u: real): (r: nat)
    requires 0.0 <= u < 1.0
    ensures n == 0 ==> r == 0
    ensures n > 0 ==> r < n
  {
    var x := u * n as real;
    assert 0.0 <= x by { MulNonNegative(u, n as real); }
    assert n > 0 ==> x < n as real by { if n > 0 { MulBelow(u, n as real); } }
    x.Floor
  }

  lemma MulNonNegative(a: real, b: real)
    requires 0.0 <= a && 0.0 <= b
    ensures 0.0 <= a * b
  {
  }

  lemma MulBelow(u: real, b: real)
    requires 0.0 <= u < 1.0 && 0.0 < b
    ensures u * b < b
  {
    assert b - u * b == (1.0 - u) * b;
  }
}
