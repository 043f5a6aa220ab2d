/** Cyclic slots: frame `n` of a stream lives in slot `n % slots`. */
module Rings {

  function Slot(frame: nat, slots: nat): (slot: nat)
    requires slots > 0
    ensures slot < slots
  {
    frame % slots
  }

  /** Fewer than `slots` frames apart, two frames never share a slot. */
  lemma SlotsDiffer(a: nat, b: nat, slots: nat)
    requires slots > 0 && a < b < a + slots
    ensures Slot(a, slots) != Slot(b, slots)
  {
    var turns := b / slots - a / slots;
    assert b - a == slots * turns + b % slots - a % slots;
    ScaledBy(slots, turns);
  }

  /** A whole turn later the ring is back at the same slot. */
  lemma SlotRepeats(frame: nat, slots: nat)
    requires slots > 0
    ensures Slot(frame + slots, slots) == Slot(frame, slots)
  {
    Euclid(frame + slots, frame / slots + 1, frame % slots, slots);
  }

  /** Counting `ahead` slots on from a frame's slot reaches the slot of the frame `ahead` later. */
  lemma SlotAhead(frame: nat, ahead: nat, slots: nat)
    requires slots > 0
    ensures Slot(Slot(frame, slots) + ahead, slots) == Slot(frame + ahead, slots)
  {
    var start := Slot(frame, slots) + ahead;
    assert frame + ahead == slots * (frame / slots) + start;
    assert frame + ahead == slots * (frame / slots + start / slots) + start % slots;
    Euclid(frame + ahead, frame / slots + start / slots, start % slots, slots);
  }

  lemma SlotOfSmall(frame: nat, slots: nat)
    requires frame < slots
    ensures Slot(frame, slots) == frame
  {
  }

  /** A multiple of `slots` is zero or at least `slots` away from it. */
  lemma ScaledBy(slots: nat, turns: int)
    ensures turns >= 1 ==> slots * turns >= slots
    ensures turns == 0 ==> slots * turns == 0
    ensures turns <= -1 ==> slots * turns + slots <= 0
  {
    if turns >= 1 {
      assert slots * turns == slots + slots * (turns - 1);
    } else if turns <= -1 {
      assert slots * turns + slots == slots * (turns + 1);
    }
  }

  /** Division with remainder has one answer. */
  lemma Euclid(n: nat, quotient: nat, remainder: nat, slots: nat)
    requires slots > 0 && remainder < slots && n == slots * quotient + remainder
    ensures n % slots == remainder && n / slots == quotient
  {
    var gap := n / slots - quotient;
    assert slots * gap == remainder - n % slots;
    ScaledBy(slots, gap);
  }
}
