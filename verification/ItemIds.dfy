/**
  The item IDs a client's inventory gets when it joins a team (src/block.c:792-824), and how they stay apart
  from those of other members and of items on the floor (src/lobby.c:291-294, 1795-1818).

  An ID is 32 bits: the member's slot in bits 21 and up, and a number below.
 */
module ItemIds {
  import opened Items

  const SLOT_UNIT := 0x20_0000
  const WORD := 0x1_0000_0000

  function SlotOf(id: nat): nat {
    id / SLOT_UNIT
  }

  // ---------------------------------------------------------------- the first ID

  /** `a | b` for two bits each. */
  function Or2(a: nat, b: nat): nat
    requires a < 4 && b < 4
  {
    (if a % 2 == 1 || b % 2 == 1 then 1 else 0) + (if a >= 2 || b >= 2 then 2 else 0)
  }

  /** `a | b` for a slot. */
  function OrSlot(a: nat, slot: nat): nat
    requires slot < 4
  {
    a - a % 4 + Or2(a % 4, slot)
  }

  /** `n | 0x10000` */
  function OrStart(n: nat): (r: nat)
    requires n < SLOT_UNIT
    ensures r < SLOT_UNIT && r >= 0x1_0000
  {
    if n / 0x1_0000 % 2 == 1 then n else n + 0x1_0000
  }

  /** `0x00010000 | (slot << 21) | highest`, part by part. */
  function FirstId(slot: nat, highest: nat): (id: nat)
    requires slot < 4 && highest < WORD
    ensures SlotOf(id) == OrSlot(SlotOf(highest), slot) && id % SLOT_UNIT == OrStart(highest % SLOT_UNIT)
    ensures 0x1_0000 <= id < WORD
  {
    OrSlot(SlotOf(highest), slot) * SLOT_UNIT + OrStart(highest % SLOT_UNIT)
  }

  /** `a | b`, bit by bit. */
  function Or(a: nat, b: nat): nat {
    if a == 0 then b else 2 * Or(a / 2, b / 2) + if a % 2 == 1 || b % 2 == 1 then 1 else 0
  }

  /** Bit `k` of a number. */
  predicate BitOf(n: nat, k: nat)
    decreases k
  {
    if k == 0 then n % 2 == 1 else BitOf(n / 2, k - 1)
  }

  /** A bit of `a | b` is set exactly if it is set in one of them. */
  lemma {:induction false} OrBits(a: nat, b: nat, k: nat)
    ensures BitOf(Or(a, b), k) <==> BitOf(a, k) || BitOf(b, k)
    decreases k
  {
    OrHalved(a, b);
    if k > 0 {
      var rest := k - 1;
      OrBits(a / 2, b / 2, rest);
    }
  }

  lemma OrHalved(a: nat, b: nat)
    ensures Or(a, b) / 2 == Or(a / 2, b / 2) && (Or(a, b) % 2 == 1 <==> a % 2 == 1 || b % 2 == 1)
  {
    OrHalves(a, b);
  }

  /** `a << k` */
  function Shift(a: nat, k: nat): nat
    decreases k
  {
    if k == 0 then a else 2 * Shift(a, k - 1)
  }

  lemma {:induction false} OrZero(a: nat)
    ensures Or(a, 0) == a
  {
    if a > 0 {
      OrZero(a / 2);
    }
  }

  lemma OrDouble(a: nat, i: nat, b: nat, j: nat)
    requires i < 2 && j < 2
    ensures Or(2 * a + i, 2 * b + j) == 2 * Or(a, b) + if i == 1 || j == 1 then 1 else 0
  {
  }

  lemma OrHalves(x: nat, y: nat)
    ensures Or(x, y) == 2 * Or(x / 2, y / 2) + if x % 2 == 1 || y % 2 == 1 then 1 else 0
  {
    OrDouble(x / 2, x % 2, y / 2, y % 2);
  }

  /** The upper and the lower bits may be combined by themselves. */
  lemma {:induction false} OrSplit(a: nat, x: nat, b: nat, y: nat, k: nat)
    requires x < Shift(1, k) && y < Shift(1, k)
    ensures Or(Shift(a, k) + x, Shift(b, k) + y) == Shift(Or(a, b), k) + Or(x, y)
  {
    if k == 0 {
      assert x == 0 && y == 0;
    } else {
      var less := k - 1;
      OrSplit(a, x / 2, b, y / 2, less);
      OrSplitStep(Shift(a, less), x, Shift(b, less), y, Shift(Or(a, b), less));
    }
  }

  lemma OrSplitStep(ah: nat, x: nat, bh: nat, y: nat, ch: nat)
    requires Or(ah + x / 2, bh + y / 2) == ch + Or(x / 2, y / 2)
    ensures Or(2 * ah + x, 2 * bh + y) == 2 * ch + Or(x, y)
  {
    var p, q, i, j := ah + x / 2, bh + y / 2, x % 2, y % 2;
    OrDouble(p, i, q, j);
    OrHalves(x, y);
    assert 2 * ah + x == 2 * p + i && 2 * bh + y == 2 * q + j;
  }

  lemma ShiftBy(a: nat, k: nat, unit: nat)
    requires (k == 16 && unit == 0x1_0000) || (k == 21 && unit == SLOT_UNIT)
    ensures Shift(a, k) == a * unit
  {
    assert Shift(a, 4) == 0x10 * a;
    assert Shift(a, 8) == 0x100 * a;
    assert Shift(a, 12) == 0x1000 * a;
    assert Shift(a, 16) == 0x1_0000 * a;
    assert Shift(a, 19) == 0x8_0000 * a;
    assert Shift(a, 21) == 0x20_0000 * a;
  }

  /** Slot and number apart, say, or what is above and below bit 16. */
  lemma OrApart(a: nat, x: nat, b: nat, y: nat, k: nat, unit: nat)
    requires (k == 16 && unit == 0x1_0000) || (k == 21 && unit == SLOT_UNIT)
    requires x < unit && y < unit
    ensures Or(a * unit + x, b * unit + y) == Or(a, b) * unit + Or(x, y)
  {
    var both := Or(a, b);
    ShiftBy(1, k, unit);
    OrSplit(a, x, b, y, k);
    ShiftBy(a, k, unit);
    ShiftBy(b, k, unit);
    ShiftBy(both, k, unit);
    SameOr(a * unit + x, Shift(a, k) + x, b * unit + y, Shift(b, k) + y);
  }

  lemma SameOr(a: nat, a1: nat, b: nat, b1: nat)
    requires a == a1 && b == b1
    ensures Or(a, b) == Or(a1, b1)
  {
  }

  lemma OrTwoBits(q: nat, a1: nat, a0: nat, s1: nat, s0: nat)
    requires a1 < 2 && a0 < 2 && s1 < 2 && s0 < 2
    ensures Or(2 * s1 + s0, 4 * q + 2 * a1 + a0) ==
            4 * q + 2 * (if s1 == 1 || a1 == 1 then 1 else 0) + if s0 == 1 || a0 == 1 then 1 else 0
  {
    var none, half := 0, 2 * q + a1;
    assert 4 * q + 2 * a1 + a0 == 2 * half + a0;
    OrDouble(s1, s0, half, a0);
    OrDouble(none, s1, q, a1);
  }

  lemma OrSlotByBits(q: nat, a1: nat, a0: nat, s1: nat, s0: nat)
    requires a1 < 2 && a0 < 2 && s1 < 2 && s0 < 2
    ensures OrSlot(4 * q + 2 * a1 + a0, 2 * s1 + s0) ==
            4 * q + 2 * (if s1 == 1 || a1 == 1 then 1 else 0) + if s0 == 1 || a0 == 1 then 1 else 0
  {
    assert (4 * q + 2 * a1 + a0) % 4 == 2 * a1 + a0;
  }

  lemma OrSlotIsOr(a: nat, slot: nat)
    requires slot < 4
    ensures Or(slot, a) == OrSlot(a, slot)
  {
    var q, r := a / 4, a % 4;
    var a1, a0 := if r < 2 then 0 else 1, if r == 0 || r == 2 then 0 else 1;
    var s1, s0 := if slot < 2 then 0 else 1, if slot == 0 || slot == 2 then 0 else 1;
    OrTwoBits(q, a1, a0, s1, s0);
    OrSlotByBits(q, a1, a0, s1, s0);
  }

  lemma OrOne(q: nat, one: nat)
    requires one == 1
    ensures Or(one, q) == if q % 2 == 1 then q else q + 1
  {
    var none, half := 0, q / 2;
    OrDouble(none, one, half, q % 2);
  }

  lemma OrStartIsOr(n: nat, start: nat)
    requires n < SLOT_UNIT && start == 0x1_0000
    ensures Or(start, n) == OrStart(n)
  {
    var q, r, none := n / 0x1_0000, n % 0x1_0000, 0;
    OrApart(1, none, q, r, 16, 0x1_0000);
    OrOne(q, 1);
    assert Or(none, r) == r;
  }

  lemma OrStartSlot(slot: nat, start: nat)
    requires start < SLOT_UNIT
    ensures Or(start, slot * SLOT_UNIT) == slot * SLOT_UNIT + start
  {
    var none := 0;
    OrApart(none, start, slot, none, 21, SLOT_UNIT);
    OrZero(start);
  }

  lemma OrShifted(slot: nat, start: nat, a: nat, low: nat)
    requires slot < 4 && low < SLOT_UNIT && start == 0x1_0000
    ensures Or(slot * SLOT_UNIT + start, a * SLOT_UNIT + low) == OrSlot(a, slot) * SLOT_UNIT + OrStart(low)
  {
    OrApart(slot, start, a, low, 21, SLOT_UNIT);
    OrSlotIsOr(a, slot);
    OrStartIsOr(low, start);
  }

  lemma FirstIdByParts(slot: nat, highest: nat, start: nat, a: nat, low: nat)
    requires slot < 4 && low < SLOT_UNIT && highest == a * SLOT_UNIT + low && start == 0x1_0000
    ensures Or(Or(start, slot * SLOT_UNIT), highest) == OrSlot(a, slot) * SLOT_UNIT + OrStart(low)
  {
    OrStartSlot(slot, start);
    OrShifted(slot, start, a, low);
  }

  /** The arithmetic above is the bitwise expression of the source. */
  lemma FirstIdIsOr(slot: nat, highest: nat, start: nat)
    requires slot < 4 && highest < WORD && start == 0x1_0000
    ensures FirstId(slot, highest) == Or(Or(start, slot * SLOT_UNIT), highest)
  {
    FirstIdByParts(slot, highest, start, SlotOf(highest), highest % SLOT_UNIT);
  }

  // ---------------------------------------------------------------- renumbering

  function IdAt(first: nat, k: nat): nat {
    (first + k) % WORD
  }

  function Numbered(s: seq<Item>, first: nat): seq<Item> {
    seq(|s|, k requires 0 <= k < |s| => s[k].(id := IdAt(first, k)))
  }

  /** What is remembered after numbering: the last ID given out, or one less than the first if there was none. */
  function Remembered(first: nat, count: nat): nat
    requires 0 < first
  {
    (first + count - 1) % WORD
  }

  /** Items get consecutive IDs, 32 bits wide, and stay what they are; the last of these is remembered, or, without any,
      one less than the first. */
  lemma NumberedIs(s: seq<Item>, first: nat)
    requires 0 < first
    ensures |Numbered(s, first)| == |s|
    ensures forall k :: 0 <= k < |s| ==> Numbered(s, first)[k] == s[k].(id := (first + k) % 0x1_0000_0000)
    ensures Remembered(first, |s|) == if s == [] then (first - 1) % 0x1_0000_0000 else Numbered(s, first)[|s| - 1].id
  {
  }

  /** Number the inventory through, and say which ID would be next. */
  method NumberFrom(inv: array<Item>, count: nat, first: nat) returns (id: nat)
    requires count <= MAX_INVENTORY <= inv.Length && first < WORD
    modifies inv
    ensures inv[..count] == Numbered(old(inv[..count]), first) && id == IdAt(first, count)
    ensures forall k :: count <= k < inv.Length ==> inv[k] == old(inv[k])
  {
    id := first;
    var i := 0;
    while i < count
      invariant 0 <= i <= count && id == IdAt(first, i)
      invariant forall k :: 0 <= k < i ==> inv[k] == old(inv[k]).(id := IdAt(first, k))
      invariant forall k :: i <= k < inv.Length ==> inv[k] == old(inv[k])
    {
      inv[i] := inv[i].(id := id);
      i := i + 1;
      Successor(id, first, i);
      id := (id + 1) % WORD;
    }
  }

  /** Number the inventory from the first ID on, and remember. */
  method Renumber(inv: array<Item>, count: nat, highest: array<nat>, slot: nat)
    requires count <= MAX_INVENTORY <= inv.Length && slot < highest.Length == 4 && highest[slot] < WORD
    modifies inv, highest
    ensures inv[..count] == Numbered(old(inv[..count]), FirstId(slot, old(highest[slot])))
    ensures highest[slot] == Remembered(FirstId(slot, old(highest[slot])), count)
    ensures forall k :: count <= k < inv.Length ==> inv[k] == old(inv[k])
    ensures forall k :: 0 <= k < 4 && k != slot ==> highest[k] == old(highest[k])
  {
    var first := FirstId(slot, highest[slot]);
    var id := NumberFrom(inv, count, first);
    Predecessor(id, first, count);
    id := if id == 0 then WORD - 1 else id - 1;
    highest[slot] := id;
  }

  lemma Successor(id: nat, first: nat, i: nat)
    requires i > 0 && id == IdAt(first, i - 1) && first < WORD && i <= MAX_INVENTORY
    ensures (id + 1) % WORD == IdAt(first, i)
  {
  }

  lemma Predecessor(id: nat, first: nat, n: nat)
    requires id == IdAt(first, n) && 0x1_0000 <= first < WORD && n <= MAX_INVENTORY
    ensures (if id == 0 then WORD - 1 else id - 1) == Remembered(first, n)
  {
  }

  lemma SlotPlus(slot: nat, x: nat)
    requires x < 2 * SLOT_UNIT
    ensures SlotOf(slot * SLOT_UNIT + x) == if x < SLOT_UNIT then slot else slot + 1
  {
  }

  /** No other slot's bits are left in what is remembered for a slot. */
  predicate Clean(slot: nat, highest: nat)
    requires slot < 4
  {
    OrSlot(SlotOf(highest), slot) == slot
  }

  lemma FirstIdOfSlot(slot: nat, highest: nat)
    requires slot < 4 && highest < WORD && Clean(slot, highest)
    ensures FirstId(slot, highest) == slot * SLOT_UNIT + OrStart(highest % SLOT_UNIT)
  {
  }

  /** The ID after `k` others. */
  lemma IdAfter(slot: nat, low: nat, first: nat, k: nat)
    requires slot < 4 && low < SLOT_UNIT && first == slot * SLOT_UNIT + low && k <= MAX_INVENTORY
    ensures IdAt(first, k) == slot * SLOT_UNIT + (low + k)
    ensures SlotOf(IdAt(first, k)) == slot <==> low + k < SLOT_UNIT
  {
    SlotPlus(slot, low + k);
  }

  lemma AllKept(slot: nat, low: nat, first: nat, count: nat)
    requires slot < 4 && low < SLOT_UNIT && first == slot * SLOT_UNIT + low && 0 < count <= MAX_INVENTORY
    ensures (forall k: nat :: k < count ==> SlotOf(IdAt(first, k)) == slot) <==> low + count <= SLOT_UNIT
  {
    forall k: nat | k < count ensures SlotOf(IdAt(first, k)) == slot <==> low + k < SLOT_UNIT {
      IdAfter(slot, low, first, k);
    }
    var last := count - 1;
    assert SlotOf(IdAt(first, last)) == slot <==> low + last < SLOT_UNIT;
  }

  /** Every ID carries the member's slot exactly when what was remembered for the slot has no bits of another
      slot and the numbers below do not overflow. */
  lemma SlotKept(slot: nat, highest: nat, count: nat)
    requires slot < 4 && highest < WORD && 0 < count <= MAX_INVENTORY
    ensures (forall k: nat :: k < count ==> SlotOf(IdAt(FirstId(slot, highest), k)) == slot) <==>
              Clean(slot, highest) && OrStart(highest % SLOT_UNIT) + count <= SLOT_UNIT
  {
    if Clean(slot, highest) {
      FirstIdOfSlot(slot, highest);
      AllKept(slot, OrStart(highest % SLOT_UNIT), FirstId(slot, highest), count);
    } else {
      FirstNotKept(slot, FirstId(slot, highest), count);
    }
  }

  lemma FirstNotKept(slot: nat, first: nat, count: nat)
    requires first < WORD && SlotOf(first) != slot && 0 < count
    ensures !(forall k: nat :: k < count ==> SlotOf(IdAt(first, k)) == slot)
  {
    assert IdAt(first, 0) == first;
  }

  lemma OwnSlotIsClean(slot: nat, id: nat)
    requires slot < 4 && SlotOf(id) == slot
    ensures Clean(slot, id)
  {
  }

  lemma BelowWord(slot: nat, low: nat)
    requires slot < 4 && low < SLOT_UNIT
    ensures (slot * SLOT_UNIT + low) % WORD == slot * SLOT_UNIT + low
  {
  }

  lemma InSlot(slot: nat, low: nat, id: nat)
    requires slot < 4 && low < SLOT_UNIT && id == slot * SLOT_UNIT + low
    ensures SlotOf(id) == slot && id % SLOT_UNIT == low && Clean(slot, id)
  {
    SlotPlus(slot, low);
    OwnSlotIsClean(slot, id);
  }

  lemma RememberedFrom(slot: nat, low: nat, first: nat, count: nat)
    requires slot < 4 && 0 < low && first == slot * SLOT_UNIT + low && low + count <= SLOT_UNIT
    ensures var next := Remembered(first, count);
            SlotOf(next) == slot && next % SLOT_UNIT == low + count - 1 && Clean(slot, next)
  {
    BelowWord(slot, low + count - 1);
    InSlot(slot, low + count - 1, Remembered(first, count));
  }

  /** What is remembered for a slot carries that slot, whatever it was before and even if there was nothing to
      number, as long as it was clean and there are numbers left. */
  lemma HighestStaysClean(slot: nat, highest: nat, count: nat)
    requires slot < 4 && highest < WORD
    requires Clean(slot, highest) && OrStart(highest % SLOT_UNIT) + count <= SLOT_UNIT
    ensures var next := Remembered(FirstId(slot, highest), count);
            && SlotOf(next) == slot && Clean(slot, next)
            && next % SLOT_UNIT == OrStart(highest % SLOT_UNIT) + count - 1
  {
    FirstIdOfSlot(slot, highest);
    RememberedFrom(slot, OrStart(highest % SLOT_UNIT), FirstId(slot, highest), count);
  }

  /** A slot nobody has been in has nothing remembered, and is clean. */
  lemma FreshSlotIsClean(slot: nat, count: nat)
    requires slot < 4 && count <= MAX_INVENTORY
    ensures Clean(slot, 0) && OrStart(0) + count <= SLOT_UNIT
  {
  }

  /** The first ID of a slot nobody has been in is also the first of the one after, if it was the only one. */
  lemma FirstIdAgain(slot: nat, highest: nat, id: nat)
    requires slot < 4 && id == slot * SLOT_UNIT + 0x1_0000 && (highest == 0 || highest == id)
    ensures FirstId(slot, highest) == id && OrStart(highest % SLOT_UNIT) == 0x1_0000
  {
    var low := if highest == 0 then 0 else 0x1_0000;
    if highest == id {
      InSlot(slot, low, highest);
    }
    FirstIdOfSlot(slot, highest);
  }
}
