/**
 * Index arithmetic of a swapchain's frame ring: the current slot advances
 * by one modulo the number of slots.
 */
module FrameRing {
  /** The slot after `index` in a ring of `count` slots. */
  function Advance(index: nat, count: nat): (r: nat)
    requires index < count
    ensures r < count
    ensures index < count - 1 ==> r == index + 1
    ensures index == count - 1 ==> r == 0
  {
    (index + 1) % count
  }

  /** The current slot after `n` advances from `start`. */
  function Iterate(start: nat, count: nat, n: nat): (r: nat)
    requires start < count
    ensures r < count
  {
    if n == 0 then start else Advance(Iterate(start, count, n - 1), count)
  }

  /** Within one turn of the ring, `n` advances move `n` slots on, wrapping once past the end. */
  lemma {:induction false} IterateWithinTurn(start: nat, count: nat, n: nat)
    requires start < count && n < count
    ensures Iterate(start, count, n) == if start + n < count then start + n else start + n - count
  {
    if n > 0 {
      IterateWithinTurn(start, count, n - 1);
    }
  }

  /**
   * Any `count` consecutive advances from a slot of the ring reach every
   * slot: slot `s` is reached after `(s - start) mod count` advances.
   */
  lemma ConsecutiveAdvancesCoverRing(start: nat, count: nat, s: nat)
    requires start < count && s < count
    ensures exists n: nat :: n < count && Iterate(start, count, n) == s
  {
    var n: nat := if start <= s then s - start else s + count - start;
    IterateWithinTurn(start, count, n);
  }

  /** A whole turn of `count` advances returns to the starting slot. */
  lemma {:induction false} FullTurn(start: nat, count: nat)
    requires start < count
    ensures Iterate(start, count, count) == start
  {
    IterateWithinTurn(start, count, count - 1);
  }
}
