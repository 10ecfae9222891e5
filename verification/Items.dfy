/**
  Inventory and bank (src/items.c:659-836): adding, removing, depositing and withdrawing items, in place.
 */
module Items {
  /** An item: `code` is its first word, `amount` the byte that counts a stack, `rest` everything else. */
  datatype Item = Item(id: nat, code: nat, amount: nat, rest: nat)

  const MAX_INVENTORY := 30
  const MAX_BANK := 200
  const ALL := 0xFFFFFFFF

  /** Tools of the first nine kinds, technique disks excepted, are stacked. */
  predicate Stackable(code: nat) {
    code % 0x100 == 0x03 && code / 0x100 % 0x100 < 0x09 && code / 0x100 % 0x100 != 0x02
  }

  /** The stack counter is a byte. */
  ghost predicate Bytes(s: seq<Item>) {
    forall i :: 0 <= i < |s| ==> s[i].amount < 256
  }

  ghost predicate Distinct(s: seq<Item>) {
    forall i, j :: 0 <= i < j < |s| ==> s[i].id != s[j].id
  }

  // ---------------------------------------------------------------- how much there is of everything

  function Weight(it: Item): nat {
    if Stackable(it.code) then it.amount else 1
  }

  /** How much of `code` there is in `s`. */
  ghost function Total(s: seq<Item>, code: nat): nat {
    if s == [] then 0 else (if s[0].code == code then Weight(s[0]) else 0) + Total(s[1..], code)
  }

  lemma {:induction false} TotalConcat(s: seq<Item>, t: seq<Item>, code: nat)
    ensures Total(s + t, code) == Total(s, code) + Total(t, code)
  {
    if s == [] {
      assert s + t == t;
    } else {
      assert (s + t)[1..] == s[1..] + t;
      TotalConcat(s[1..], t, code);
    }
  }

  lemma TotalOne(it: Item, code: nat)
    ensures Total([it], code) == if it.code == code then Weight(it) else 0
  {
  }

  lemma TotalSplit(s: seq<Item>, i: nat, code: nat)
    requires i < |s|
    ensures Total(s, code) == Total(s[..i], code) + Total([s[i]], code) + Total(s[i + 1..], code)
  {
    assert s == s[..i] + ([s[i]] + s[i + 1..]);
    TotalConcat(s[..i], [s[i]] + s[i + 1..], code);
    TotalConcat([s[i]], s[i + 1..], code);
  }

  lemma TotalUpdate(s: seq<Item>, i: nat, it: Item, code: nat)
    requires i < |s|
    ensures Total(s[i := it], code) + Total([s[i]], code) == Total(s, code) + Total([it], code)
  {
    var t := s[i := it];
    TotalSplit(s, i, code);
    TotalSplit(t, i, code);
    assert t[..i] == s[..i] && t[i + 1..] == s[i + 1..];
  }

  function Without(s: seq<Item>, i: nat): seq<Item>
    requires i < |s|
  {
    s[..i] + s[i + 1..]
  }

  lemma TotalWithout(s: seq<Item>, i: nat, code: nat)
    requires i < |s|
    ensures Total(Without(s, i), code) + Total([s[i]], code) == Total(s, code)
  {
    TotalSplit(s, i, code);
    TotalConcat(s[..i], s[i + 1..], code);
  }

  // ---------------------------------------------------------------- finding things

  /** The first item with the given ID, or |s|. */
  function FindId(s: seq<Item>, id: nat): (i: nat)
    ensures i <= |s| && (i < |s| ==> s[i].id == id) && forall k :: 0 <= k < i ==> s[k].id != id
  {
    if s == [] then 0 else if s[0].id == id then 0
    else
      var i := FindId(s[1..], id);
      assert forall k :: 1 <= k <= i ==> s[k] == s[1..][k - 1];
      i + 1
  }

  /** The first item with the given code, or |s|. */
  function FindCode(s: seq<Item>, code: nat): (i: nat)
    ensures i <= |s| && (i < |s| ==> s[i].code == code) && forall k :: 0 <= k < i ==> s[k].code != code
  {
    if s == [] then 0 else if s[0].code == code then 0
    else
      var i := FindCode(s[1..], code);
      assert forall k :: 1 <= k <= i ==> s[k] == s[1..][k - 1];
      i + 1
  }

  // ---------------------------------------------------------------- inventory

  datatype Outcome = Outcome(items: seq<Item>, rc: int)

  /** Add an item: not if there is no room or its ID is known; to a stack if there is one; else at the end. */
  function Added(s: seq<Item>, it: Item, room: nat): Outcome {
    if |s| == room || FindId(s, it.id) < |s| then Outcome(s, -1) else Stored(s, it)
  }

  /** A stack counter wraps around at 256. */
  function Stored(s: seq<Item>, it: Item): Outcome {
    var j := FindCode(s, it.code);
    if Stackable(it.code) && j < |s| then Outcome(s[j := s[j].(amount := (s[j].amount + it.amount) % 256)], 0)
    else Outcome(s + [it], 1)
  }

  /** Remove an item, or part of a stack. */
  function Removed(s: seq<Item>, id: nat, amt: nat): Outcome {
    var i := FindId(s, id);
    if i == |s| then Outcome(s, -1)
    else if Stackable(s[i].code) && amt != ALL && amt < s[i].amount then
      Outcome(s[i := s[i].(amount := s[i].amount - amt)], 0)
    else Outcome(Without(s, i), 1)
  }

  /** The first item that has `id`. */
  ghost predicate IsFirstWithId(s: seq<Item>, id: nat, i: nat) {
    i < |s| && s[i].id == id && forall k :: 0 <= k < i ==> s[k].id != id
  }

  ghost predicate IsFirstOfCode(s: seq<Item>, code: nat, j: nat) {
    j < |s| && s[j].code == code && forall k :: 0 <= k < j ==> s[k].code != code
  }

  /** Of the kinds of tools, by the second byte of the code, mates and the like are stacked, but not technique disks,
      nor any kind from 9 on; weapons, armour and mags are not either. */
  lemma StackedKinds(sort: nat, kind: nat, rest: nat)
    requires sort < 0x100 && kind < 0x100
    ensures Stackable(sort + 0x100 * kind + 0x1_0000 * rest) <==> sort == 3 && kind in {0, 1, 3, 4, 5, 6, 7, 8}
  {
    var code := sort + 0x100 * kind + 0x1_0000 * rest;
    assert code % 0x100 == sort && code / 0x100 == kind + 0x100 * rest && (kind + 0x100 * rest) % 0x100 == kind;
  }

  ghost predicate HasStack(s: seq<Item>, code: nat) {
    Stackable(code) && exists j :: 0 <= j < |s| && s[j].code == code
  }

  /** Stored items go onto the first stack of their code, if they are stacked and there is one, or else to the end. */
  lemma {:induction false} StoredIs(s: seq<Item>, it: Item)
    ensures HasStack(s, it.code) ==> Stored(s, it).rc == 0 && GoesOntoStack(s, it, Stored(s, it).items)
    ensures !HasStack(s, it.code) ==> Stored(s, it) == Outcome(s + [it], 1)
  {
    if HasStack(s, it.code) {
      StoredOnto(s, it);
    } else {
      StoredBehind(s, it);
    }
  }

  lemma {:induction false} StoredOnto(s: seq<Item>, it: Item)
    requires HasStack(s, it.code)
    ensures Stored(s, it).rc == 0 && GoesOntoStack(s, it, Stored(s, it).items)
  {
    StackFound(s, it.code);
    var j := FindCode(s, it.code);
    var amount := (s[j].amount + it.amount) % 256;
    GoesOntoFirst(s, it, j, amount);
    assert Stored(s, it) == Outcome(s[j := s[j].(amount := amount)], 0);
  }

  lemma {:induction false} StoredBehind(s: seq<Item>, it: Item)
    requires !HasStack(s, it.code)
    ensures Stored(s, it) == Outcome(s + [it], 1)
  {
    StackFound(s, it.code);
  }

  lemma {:induction false} StackFound(s: seq<Item>, code: nat)
    ensures var j := FindCode(s, code);
            (j < |s| <==> exists k :: 0 <= k < |s| && s[k].code == code) && (j < |s| ==> IsFirstOfCode(s, code, j))
  {
    var j := FindCode(s, code);
    assert j < |s| ==> s[j].code == code;
  }

  lemma GoesOntoFirst(s: seq<Item>, it: Item, j: nat, amount: nat)
    requires IsFirstOfCode(s, it.code, j) && amount == (s[j].amount + it.amount) % 256
    ensures GoesOntoStack(s, it, s[j := s[j].(amount := amount)])
  {
  }

  ghost predicate GoesOntoStack(s: seq<Item>, it: Item, after: seq<Item>) {
    exists j: nat :: IsFirstOfCode(s, it.code, j) &&
                     after == s[j := s[j].(amount := (s[j].amount + it.amount) % 256)]
  }

  /** Refused in a full inventory, or if the ID is known; else onto the first stack of its code, if it is stacked and
      there is one, or else at the end. */
  lemma {:induction false} AddedIs(s: seq<Item>, it: Item, room: nat)
    ensures var r := Added(s, it, room);
            var refused := |s| == room || exists i :: 0 <= i < |s| && s[i].id == it.id;
            var stacked := Stackable(it.code) && exists j :: 0 <= j < |s| && s[j].code == it.code;
            && (r.rc == -1 <==> refused) && (r.rc == 0 <==> !refused && stacked)
            && (r.rc == 1 <==> !refused && !stacked)
            && (r.rc == -1 ==> r.items == s) && (r.rc == 1 ==> r.items == s + [it])
            && (r.rc == 0 ==> GoesOntoStack(s, it, r.items))
  {
    StoredIs(s, it);
    assert FindId(s, it.id) < |s| ==> s[FindId(s, it.id)].id == it.id;
  }

  /** Of the first item with the ID: less than there is of a stack is taken off it, anything else is taken out whole. */
  lemma RemovedIs(s: seq<Item>, id: nat, amt: nat, i: nat)
    requires IsFirstWithId(s, id, i)
    ensures var r, part := Removed(s, id, amt), Stackable(s[i].code) && amt != 0xFFFF_FFFF && amt < s[i].amount;
            if part then r == Outcome(s[i := s[i].(amount := s[i].amount - amt)], 0)
            else r == Outcome(s[..i] + s[i + 1..], 1)
  {
    FoundId(s, id, i);
  }

  lemma NothingRemoved(s: seq<Item>, id: nat, amt: nat)
    requires forall i :: 0 <= i < |s| ==> s[i].id != id
    ensures Removed(s, id, amt) == Outcome(s, -1)
  {
  }

  /** Storing onto stack `j` changes the total of its code by what the counter then shows. */
  lemma StackedTotal(s: seq<Item>, j: nat, amount: nat, code: nat)
    requires j < |s| && Stackable(s[j].code)
    ensures Total(s[j := s[j].(amount := amount)], code) ==
            Total(s, code) + if code == s[j].code then amount - s[j].amount else 0
  {
    TotalUpdate(s, j, s[j].(amount := amount), code);
    TotalOne(s[j], code);
    TotalOne(s[j].(amount := amount), code);
  }

  lemma AppendedTotal(s: seq<Item>, it: Item, code: nat)
    ensures Total(s + [it], code) == Total(s, code) + if code == it.code then Weight(it) else 0
  {
    TotalConcat(s, [it], code);
    TotalOne(it, code);
  }

  /** The item goes onto a stack that is already there. */
  predicate Merges(s: seq<Item>, it: Item) {
    Stackable(it.code) && FindCode(s, it.code) < |s|
  }

  /** Onto a stack that can take it. */
  predicate NoOverflow(s: seq<Item>, it: Item) {
    Merges(s, it) ==> s[FindCode(s, it.code)].amount + it.amount <= 255
  }

  /** What storing an item adds to the totals is the item, unless it goes onto a stack that then holds more than
      a byte can count. */
  lemma StoredConserves(s: seq<Item>, it: Item)
    requires Bytes(s) && it.amount < 256
    ensures var r := Stored(s, it).items;
            && Bytes(r)
            && (forall code :: code != it.code ==> Total(r, code) == Total(s, code))
            && (Total(r, it.code) == Total(s, it.code) + Weight(it) <==> NoOverflow(s, it))
  {
    var r, j := Stored(s, it).items, FindCode(s, it.code);
    if Merges(s, it) {
      var amount := (s[j].amount + it.amount) % 256;
      forall code ensures Total(r, code) == Total(s, code) + if code == it.code then amount - s[j].amount else 0 {
        StackedTotal(s, j, amount, code);
      }
    } else {
      forall code ensures Total(r, code) == Total(s, code) + if code == it.code then Weight(it) else 0 {
        AppendedTotal(s, it, code);
      }
    }
  }

  /** What an outcome is worth beyond its own totals: what was taken out. */
  function TakenOut(s: seq<Item>, id: nat, amt: nat): nat {
    var i := FindId(s, id);
    if i == |s| then 0
    else if Stackable(s[i].code) && amt != ALL && amt < s[i].amount then amt else Weight(s[i])
  }

  /** Removing takes the amount asked for from a larger stack, and otherwise the whole item; of everything else
      there is as much as before. */
  lemma RemovedConserves(s: seq<Item>, id: nat, amt: nat)
    requires Bytes(s)
    ensures var r, i := Removed(s, id, amt).items, FindId(s, id);
            && Bytes(r)
            && (forall code :: i == |s| || code != s[i].code ==> Total(r, code) == Total(s, code))
            && (i < |s| ==> Total(r, s[i].code) + TakenOut(s, id, amt) == Total(s, s[i].code))
  {
    var r, i := Removed(s, id, amt).items, FindId(s, id);
    if i < |s| {
      forall code ensures Total(r, code) + (if code == s[i].code then TakenOut(s, id, amt) else 0) == Total(s, code) {
        TotalOne(s[i], code);
        if Removed(s, id, amt).rc == 0 {
          TotalUpdate(s, i, r[i], code);
          TotalOne(r[i], code);
        } else {
          TotalWithout(s, i, code);
        }
      }
    }
  }

  /** IDs stay distinct. */
  lemma AddingKeepsDistinct(s: seq<Item>, it: Item, room: nat)
    requires Distinct(s)
    ensures Distinct(Added(s, it, room).items)
  {
    var r := Added(s, it, room).items;
    assert |r| == |s| ==> forall i :: 0 <= i < |s| ==> r[i].id == s[i].id;
  }

  lemma RemovingKeepsDistinct(s: seq<Item>, id: nat, amt: nat)
    requires Distinct(s)
    ensures Distinct(Removed(s, id, amt).items)
  {
    var i, r := FindId(s, id), Removed(s, id, amt).items;
    if |r| == |s| {
      assert forall k :: 0 <= k < |s| ==> r[k].id == s[k].id;
    } else {
      assert forall k :: 0 <= k < |r| ==> r[k] == s[if k < i then k else k + 1];
    }
  }

  method FindItem(inv: array<Item>, count: nat, id: nat) returns (i: nat)
    requires count <= inv.Length
    ensures i == FindId(inv[..count], id)
  {
    i := 0;
    while i < count && inv[i].id != id
      invariant 0 <= i <= count && forall k :: 0 <= k < i ==> inv[k].id != id
    {
      i := i + 1;
    }
    FoundId(inv[..count], id, i);
  }

  lemma FoundId(s: seq<Item>, id: nat, i: nat)
    requires i <= |s| && (i < |s| ==> s[i].id == id) && forall k :: 0 <= k < i ==> s[k].id != id
    ensures i == FindId(s, id)
  {
    var f := FindId(s, id);
    assert !(f < i) && !(i < f);
  }

  method FindStack(inv: array<Item>, count: nat, code: nat) returns (i: nat)
    requires count <= inv.Length
    ensures i == FindCode(inv[..count], code)
  {
    i := 0;
    while i < count && inv[i].code != code
      invariant 0 <= i <= count && forall k :: 0 <= k < i ==> inv[k].code != code
    {
      i := i + 1;
    }
    FoundCode(inv[..count], code, i);
  }

  lemma FoundCode(s: seq<Item>, code: nat, i: nat)
    requires i <= |s| && (i < |s| ==> s[i].code == code) && forall k :: 0 <= k < i ==> s[k].code != code
    ensures i == FindCode(s, code)
  {
    var f := FindCode(s, code);
    assert !(f < i) && !(i < f);
  }

  /** Close the gap at `i`. */
  method MoveDown(inv: array<Item>, count: nat, i: nat)
    requires i < count <= inv.Length
    modifies inv
    ensures inv[..count - 1] == Without(old(inv[..count]), i)
  {
    forall k | i <= k < count - 1 {
      inv[k] := inv[k + 1];
    }
    assert forall k :: 0 <= k < count - 1 ==> inv[k] == old(inv[if k < i then k else k + 1]);
  }

  /** How many items there are afterwards is for the caller to note: one less if the result is 1. */
  method RemoveFromInventory(inv: array<Item>, count: nat, id: nat, amt: nat) returns (rc: int)
    requires count <= inv.Length
    modifies inv
    ensures rc == Removed(old(inv[..count]), id, amt).rc
    ensures inv[..if rc == 1 then count - 1 else count] == Removed(old(inv[..count]), id, amt).items
  {
    var i := FindItem(inv, count, id);
    if i == count {
      return -1;
    }
    if Stackable(inv[i].code) && amt != ALL {
      if amt < inv[i].amount {
        inv[i] := inv[i].(amount := inv[i].amount - amt);
        return 0;
      }
    }
    MoveDown(inv, count, i);
    return 1;
  }

  /** One more if the result is 1. */
  method AddToInventory(inv: array<Item>, count: nat, it: Item) returns (rc: int)
    requires count <= MAX_INVENTORY <= inv.Length
    modifies inv
    ensures rc == Added(old(inv[..count]), it, MAX_INVENTORY).rc
    ensures inv[..if rc == 1 then count + 1 else count] == Added(old(inv[..count]), it, MAX_INVENTORY).items
  {
    if count == MAX_INVENTORY {
      return -1;
    }
    var i := FindItem(inv, count, it.id);
    if i < count {
      return -1;
    }
    if Stackable(it.code) {
      var j := FindStack(inv, count, it.code);
      if j < count {
        inv[j] := inv[j].(amount := (inv[j].amount + it.amount) % 256);
        return 0;
      }
    }
    inv[count] := it;
    return 1;
  }

  // ---------------------------------------------------------------- bank

  /** Deposit: not when the bank is full, even if there is a stack the item could go onto. */
  function Deposited(s: seq<Item>, it: Item): Outcome {
    if |s| == MAX_BANK then Outcome(s, -1) else Stored(s, it)
  }

  /** Withdraw: part of a stack, a whole one, or an item; more than there is is refused. */
  function Withdrawn(s: seq<Item>, id: nat, amt: nat): Outcome {
    var i := FindId(s, id);
    if i == |s| then Outcome(s, -1)
    else if Stackable(s[i].code) && amt < s[i].amount then Outcome(s[i := s[i].(amount := s[i].amount - amt)], 0)
    else if Stackable(s[i].code) && amt > s[i].amount then Outcome(s, -1)
    else Outcome(Without(s, i), 1)
  }

  /** The item handed out. */
  function HandedOut(s: seq<Item>, id: nat, amt: nat): Item
    requires FindId(s, id) < |s|
  {
    var it := s[FindId(s, id)];
    if Withdrawn(s, id, amt).rc == 0 then it.(amount := amt) else it
  }

  /** A full bank takes nothing; otherwise items go onto the first stack of their code or to the end. */
  lemma {:induction false} DepositedIs(s: seq<Item>, it: Item)
    ensures var r, stacked := Deposited(s, it), Stackable(it.code) && exists j :: 0 <= j < |s| && s[j].code == it.code;
            && (|s| == 200 ==> r == Outcome(s, -1))
            && (|s| != 200 && !stacked ==> r == Outcome(s + [it], 1))
            && (|s| != 200 && stacked ==> r.rc == 0 && GoesOntoStack(s, it, r.items))
  {
    StoredIs(s, it);
  }

  /** Of a stack as much as was asked for is handed out, and more than there is is not; other items are handed out
      whole. */
  lemma WithdrawnIs(s: seq<Item>, id: nat, amt: nat, i: nat)
    requires IsFirstWithId(s, id, i)
    ensures FindId(s, id) < |s|
    ensures var r, out, it := Withdrawn(s, id, amt), HandedOut(s, id, amt), s[i];
            if Stackable(it.code) && amt < it.amount then
              r == Outcome(s[i := it.(amount := it.amount - amt)], 0) && out == it.(amount := amt)
            else if Stackable(it.code) && it.amount < amt then r == Outcome(s, -1)
            else r == Outcome(s[..i] + s[i + 1..], 1) && out == it
  {
    FoundId(s, id, i);
  }

  lemma NothingWithdrawn(s: seq<Item>, id: nat, amt: nat)
    requires forall i :: 0 <= i < |s| ==> s[i].id != id
    ensures Withdrawn(s, id, amt) == Outcome(s, -1)
  {
  }

  /** What is withdrawn is missing from the bank, and nothing else. */
  lemma WithdrawnConserves(s: seq<Item>, id: nat, amt: nat)
    requires Bytes(s) && Withdrawn(s, id, amt).rc >= 0
    ensures var r, it := Withdrawn(s, id, amt).items, HandedOut(s, id, amt);
            && Bytes(r) && it.amount < 256 && it.id == id
            && forall code :: Total(r, code) + (if code == it.code then Weight(it) else 0) == Total(s, code)
  {
    var r, i, it := Withdrawn(s, id, amt).items, FindId(s, id), HandedOut(s, id, amt);
    forall code ensures Total(r, code) + (if code == it.code then Weight(it) else 0) == Total(s, code) {
      TotalOne(s[i], code);
      if Withdrawn(s, id, amt).rc == 0 {
        TotalUpdate(s, i, r[i], code);
        TotalOne(r[i], code);
      } else {
        TotalWithout(s, i, code);
      }
    }
  }

  /** Putting back what was withdrawn restores the totals exactly when there is room, which a bank that is full
      does not have for a part of a stack, and the first stack of the kind does not overflow. */
  lemma DepositRestores(s: seq<Item>, id: nat, amt: nat)
    requires Bytes(s) && |s| <= MAX_BANK && Withdrawn(s, id, amt).rc >= 0
    ensures var w, it := Withdrawn(s, id, amt), HandedOut(s, id, amt);
            SameTotals(Deposited(w.items, it).items, s) <==>
              if |s| == MAX_BANK && w.rc == 0 then amt == 0 else NoOverflow(w.items, it)
  {
    var w, it := Withdrawn(s, id, amt), HandedOut(s, id, amt);
    WithdrawnConserves(s, id, amt);
    WithdrawnSize(s, id, amt);
    if |s| == MAX_BANK && w.rc == 0 {
      assert Total(w.items, it.code) + Weight(it) == Total(s, it.code);
      assert Deposited(w.items, it).items == w.items;
    } else {
      StoredConserves(w.items, it);
      assert Deposited(w.items, it) == Stored(w.items, it);
      Restored(s, w.items, it);
    }
  }

  ghost predicate SameTotals(s: seq<Item>, t: seq<Item>) {
    forall code :: Total(s, code) == Total(t, code)
  }

  lemma WithdrawnSize(s: seq<Item>, id: nat, amt: nat)
    requires Withdrawn(s, id, amt).rc >= 0
    ensures var w := Withdrawn(s, id, amt);
            && |w.items| == (if w.rc == 0 then |s| else |s| - 1)
            && (w.rc == 0 ==> Weight(HandedOut(s, id, amt)) == amt)
  {
  }

  lemma Restored(s: seq<Item>, w: seq<Item>, it: Item)
    requires Bytes(w) && it.amount < 256
    requires forall code :: Total(w, code) + (if code == it.code then Weight(it) else 0) == Total(s, code)
    ensures SameTotals(Stored(w, it).items, s) <==> NoOverflow(w, it)
  {
    StoredConserves(w, it);
    var r := Stored(w, it).items;
    assert Total(w, it.code) + Weight(it) == Total(s, it.code);
    if NoOverflow(w, it) {
      forall code ensures Total(r, code) == Total(s, code) {
        assert code != it.code ==> Total(r, code) == Total(w, code);
      }
    } else {
      assert Total(r, it.code) != Total(s, it.code);
    }
  }

  class Bank {
    const items: array<Item>
    var count: nat

    ghost predicate Valid()
      reads this
    {
      count <= MAX_BANK == items.Length
    }

    ghost function Contents(): seq<Item>
      reads this, items
      requires Valid()
    {
      items[..count]
    }

    constructor ()
      ensures Valid() && Contents() == []
    {
      items := new Item[MAX_BANK](_ => Item(ALL, 0, 0, 0));
      count := 0;
    }

    method Deposit(it: Item) returns (rc: int)
      requires Valid()
      modifies this`count, items
      ensures Valid()
      ensures Outcome(Contents(), rc) == Deposited(old(Contents()), it)
    {
      if count == MAX_BANK {
        return -1;
      }
      if Stackable(it.code) {
        var j := FindStack(items, count, it.code);
        if j < count {
          items[j] := items[j].(amount := (items[j].amount + it.amount) % 256);
          return 0;
        }
      }
      items[count] := it;
      count := count + 1;
      return 1;
    }

    method Take(id: nat, amt: nat) returns (rc: int, it: Item)
      requires Valid()
      modifies this`count, items
      ensures Valid()
      ensures Outcome(Contents(), rc) == Withdrawn(old(Contents()), id, amt)
      ensures rc >= 0 ==> it == HandedOut(old(Contents()), id, amt)
    {
      it := Item(ALL, 0, 0, 0);
      var i := FindItem(items, count, id);
      if i == count {
        return -1, it;
      }
      it := items[i];
      if Stackable(it.code) {
        if amt < it.amount {
          items[i] := it.(amount := it.amount - amt);
          return 0, it.(amount := amt);
        } else if amt > it.amount {
          return -1, it;
        }
      }
      MoveDown(items, count, i);
      count := count - 1;
      return 1, it;
    }
  }
}
