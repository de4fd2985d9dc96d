/**
 * The native binding slot the OpenGL backends bind a descriptor to: each
 * descriptor set owns eight consecutive slots, so binding `b` of set `s`
 * goes to slot `s * 8 + b`, computed in 32-bit unsigned arithmetic.
 */
module BindingSlots {
  import G = GlalTypes

  const SLOTS_PER_SET: nat := 8

  function Slot(setIndex: G.U32, binding: G.U32): G.U32 {
    ((setIndex * SLOTS_PER_SET) % G.U32_LIMIT + binding) % G.U32_LIMIT
  }

  /** Within one set, distinct bindings get distinct slots, even when the sum wraps. */
  lemma SlotInjective(setIndex: G.U32, a: G.U32, b: G.U32)
    requires Slot(setIndex, a) == Slot(setIndex, b)
    ensures a == b
  {
    var base := (setIndex * SLOTS_PER_SET) % G.U32_LIMIT;
    if base + a >= G.U32_LIMIT {
      assert Slot(setIndex, a) == base + a - G.U32_LIMIT;
    } else {
      assert Slot(setIndex, a) == base + a;
    }
    if base + b >= G.U32_LIMIT {
      assert Slot(setIndex, b) == base + b - G.U32_LIMIT;
    } else {
      assert Slot(setIndex, b) == base + b;
    }
  }

  /** Sets below 2^29 with bindings below 8 never share a slot. */
  lemma SlotsOfSetsAreDisjoint(s: G.U32, a: G.U32, t: G.U32, b: G.U32)
    requires s < 0x2000_0000 && t < 0x2000_0000 && a < SLOTS_PER_SET && b < SLOTS_PER_SET
    requires Slot(s, a) == Slot(t, b)
    ensures s == t && a == b
  {
    SmallSlot(s, a);
    SmallSlot(t, b);
  }

  /** Below the wrap-around, a slot is the plain sum. */
  lemma SmallSlot(s: G.U32, a: G.U32)
    requires s < 0x2000_0000 && a < SLOTS_PER_SET
    ensures Slot(s, a) == s * 8 + a
  {
    assert s * SLOTS_PER_SET < G.U32_LIMIT;
    assert s * SLOTS_PER_SET + a < G.U32_LIMIT;
  }

  /** Binding 8 of a set already lands on binding 0 of the next set. */
  lemma NinthBindingAliasesNextSet(s: G.U32)
    requires s + 1 < 0x2000_0000
    ensures Slot(s, 8) == Slot(s + 1, 0)
  {
    assert (s + 1) * SLOTS_PER_SET < G.U32_LIMIT;
    assert Slot(s, 8) == s * 8 + 8;
    SmallSlot(s + 1, 0);
  }
}
