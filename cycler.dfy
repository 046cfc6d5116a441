/**
 * The index cycler behind every image carousel of the site: a position in a
 * fixed, non-empty list of images that steps forward and backward with
 * wrap-around at both ends.
 */
module Cycler {

  /** One step forward, `(i + 1) % len`; the last index wraps to 0. */
  function Next(i: nat, len: nat): (r: nat)
    requires i < len
    ensures r < len
    ensures i + 1 < len ==> r == i + 1
    ensures i + 1 == len ==> r == 0
  {
    (i + 1) % len
  }

  /** One step backward: 0 goes to the last index, any other index is decremented. */
  function Prev(i: nat, len: nat): (r: nat)
    requires i < len
    ensures r < len
    ensures 0 < i ==> r == i - 1
    ensures i == 0 ==> r == len - 1
  {
    if i == 0 then len - 1 else i - 1
  }

  /** The position reached after `k` forward steps from `i`. */
  function Advance(i: nat, k: nat, len: nat): (r: nat)
    requires i < len
    ensures r < len
  {
    if k == 0 then i else Next(Advance(i, k - 1, len), len)
  }

  /** The position reached after `k` backward steps from `i`. */
  function Retreat(i: nat, k: nat, len: nat): (r: nat)
    requires i < len
    ensures r < len
  {
    if k == 0 then i else Prev(Retreat(i, k - 1, len), len)
  }

  /** A step back undoes a step forward. */
  lemma NextThenPrev(i: nat, len: nat)
    requires i < len
    ensures Prev(Next(i, len), len) == i
  {
  }

  /** A step forward undoes a step back. */
  lemma PrevThenNext(i: nat, len: nat)
    requires i < len
    ensures Next(Prev(i, len), len) == i
  {
  }

  /** The decrement-or-wrap step agrees with the modular form `(i - 1 + len) % len`. */
  lemma PrevIsModular(i: nat, len: nat)
    requires i < len
    ensures Prev(i, len) == (i + len - 1) % len
  {
    if i == 0 {
      assert (len - 1) % len == len - 1;
    } else {
      assert i + len - 1 == (i - 1) + len;
    }
  }

  /** `k` forward steps land on `(i + k) % len`. */
  lemma {:induction false} AdvanceIsModular(i: nat, k: nat, len: nat)
    requires i < len
    ensures Advance(i, k, len) == (i + k) % len
  {
    if k > 0 {
      AdvanceIsModular(i, k - 1, len);
      StepModular(i + k - 1, len);
    }
  }

  /** Taking `% len` before or after the increment gives the same position. */
  lemma StepModular(n: nat, len: nat)
    requires 0 < len
    ensures ((n % len) + 1) % len == (n + 1) % len
  {
    var q, r := n / len, n % len;
    if r + 1 < len {
      ModUnique(n + 1, q, r + 1, len);
      ModUnique(r + 1, 0, r + 1, len);
    } else {
      ModUnique(n + 1, q + 1, 0, len);
      ModUnique(r + 1, 1, 0, len);
    }
  }

  /** The remainder is determined by any quotient-remainder decomposition. */
  lemma ModUnique(n: int, q: int, r: int, len: int)
    requires 0 < len && 0 <= r < len && n == q * len + r
    ensures n % len == r
  {
    var q', r' := n / len, n % len;
    assert (q - q') * len == r' - r;
    if q > q' {
      MulAtLeast(q - q', len);
    } else if q < q' {
      MulAtLeast(q' - q, len);
    }
  }

  lemma MulAtLeast(a: int, len: int)
    requires 1 <= a && 0 < len
    ensures a * len >= len
  {
  }

  /** `len` forward steps return to the start. */
  lemma FullCycle(i: nat, len: nat)
    requires i < len
    ensures Advance(i, len, len) == i
  {
    AdvanceIsModular(i, len, len);
    ModUnique(i + len, 1, i, len);
  }

  /** `k` backward steps undo `k` forward steps. */
  lemma {:induction false} RetreatUndoesAdvance(i: nat, k: nat, len: nat)
    requires i < len
    ensures Retreat(Advance(i, k, len), k, len) == i
  {
    if k > 0 {
      var j := Advance(i, k - 1, len);
      NextThenPrev(j, len);
      RetreatPeel(Next(j, len), k, len);
      RetreatUndoesAdvance(i, k - 1, len);
    }
  }

  /** Retreating `k` steps is one step back followed by `k - 1` more. */
  lemma {:induction false} RetreatPeel(i: nat, k: nat, len: nat)
    requires i < len && 0 < k
    ensures Retreat(i, k, len) == Retreat(Prev(i, len), k - 1, len)
  {
    if k > 1 {
      RetreatPeel(i, k - 1, len);
    }
  }

  /** A three-image carousel at 0 shows index 2 after two steps and wraps to 0 on the third. */
  lemma ThreeImageScenario()
    ensures Advance(0, 2, 3) == 2
    ensures Advance(0, 3, 3) == 0
  {
  }
}
