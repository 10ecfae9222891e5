/**
  The item handlers of a Blue Burst team, in place (src/subcmd.c:1694-2017, 2465-2497, src/lobby.c:1795-1865).
 */
module BlueBurst {
  import opened ItemIds
  import opened Items
  import opened TeamItems

  class ItemTeam {
    const highest: array<nat>
    var itemId: nat
    var itemQueue: seq<Item>

    ghost predicate Valid()
      reads this, highest
    {
      && highest.Length == SEATS && itemId < WORD
      && forall s :: 0 <= s < SEATS ==> highest[s] < WORD
    }

    /** What a member with that inventory can reach. */
    ghost function View(slot: nat, inv: array<Item>, count: nat): Reach
      requires slot < highest.Length && count <= inv.Length
      reads this, highest, inv
    {
      Reach(Seat(highest[slot], true, inv[..count]), itemId, itemQueue)
    }

    /** The other slots keep what is remembered for them. */
    twostate predicate OthersSame(slot: nat)
      reads this, highest
    {
      forall s :: 0 <= s < highest.Length && s != slot ==> highest[s] == old(highest[s])
    }

    constructor ()
      ensures Valid() && fresh(highest)
      ensures itemId == NewTeam().counter && itemQueue == NewTeam().floor
      ensures forall s :: 0 <= s < SEATS ==> highest[s] == NewTeam().seats[s].highest
    {
      highest := new nat[SEATS](_ => 0);
      itemId := FLOOR_START;
      itemQueue := [];
    }

    /** An item the server drops. */
    method AddItem(data: Item) returns (it: Item)
      requires Valid()
      modifies this`itemId, this`itemQueue
      ensures Valid() && it == data.(id := old(itemId))
      ensures itemQueue == [it] + old(itemQueue) && itemId == NextId(old(itemId))
    {
      it := data.(id := itemId);
      itemId := (itemId + 1) % WORD;
      itemQueue := [it] + itemQueue;
    }

    /** Take the first item with the ID off the floor. */
    method RemoveItem(id: nat) returns (found: bool, it: Item)
      requires Valid()
      modifies this`itemQueue
      ensures Valid() && found == (FindId(old(itemQueue), id) < |old(itemQueue)|)
      ensures !found ==> itemQueue == old(itemQueue)
      ensures found ==> it == old(itemQueue)[FindId(old(itemQueue), id)]
                        && itemQueue == Without(old(itemQueue), FindId(old(itemQueue), id))
    {
      var i := 0;
      while i < |itemQueue|
        invariant 0 <= i <= |itemQueue| && itemQueue == old(itemQueue)
        invariant forall k :: 0 <= k < i ==> itemQueue[k].id != id
      {
        if itemQueue[i].id == id {
          FoundId(itemQueue, id, i);
          found, it := true, itemQueue[i];
          itemQueue := itemQueue[..i] + itemQueue[i + 1..];
          return;
        }
        i := i + 1;
      }
      FoundId(itemQueue, id, i);
      found, it := false, Item(ALL, 0, 0, 0);
    }

    /** A whole item, as it is. */
    method DropItem(slot: nat, inv: array<Item>, count: nat, id: nat) returns (rc: int, left: nat)
      requires Valid() && slot < SEATS && count <= MAX_INVENTORY <= inv.Length
      modifies this`itemQueue, inv
      ensures Valid() && left <= count && OthersSame(slot)
      ensures View(slot, inv, left) == Act(slot, old(View(slot, inv, count)), DropsItem(id))
      ensures rc == if FindId(old(inv[..count]), id) < count then 0 else -1
    {
      var found := FindItem(inv, count, id);
      if found == count {
        return -1, count;
      }
      itemQueue := [inv[found]] + itemQueue;
      var removed := RemoveFromInventory(inv, count, id, ALL);
      return 0, count - 1;
    }

    /** Part of a stack, or money, which becomes an item with the member's next ID. The ID is used up even if what is
        dropped is not what was announced. */
    method DropStack(slot: nat, inv: array<Item>, count: nat, id: nat, amount: nat, what: Item, matches: bool)
      returns (rc: int, left: nat)
      requires Valid() && slot < SEATS && count <= MAX_INVENTORY <= inv.Length
      modifies this`itemQueue, highest, inv
      ensures Valid() && left <= count && OthersSame(slot)
      ensures View(slot, inv, left) == Act(slot, old(View(slot, inv, count)), DropsStack(id, amount, what, matches))
      ensures rc == if Splits(old(inv[..count]), id) && matches then 0 else -1
    {
      left := count;
      if id != ALL {
        var found := FindItem(inv, count, id);
        if found == count {
          return -1, left;
        }
      }
      highest[slot] := (highest[slot] + 1) % WORD;
      if !matches {
        return -1, left;
      }
      itemQueue := [Parcel(what, id, amount, highest[slot])] + itemQueue;
      if id != ALL {
        var removed := RemoveFromInventory(inv, count, id, amount);
        left := if removed == 1 then count - 1 else count;
      }
      rc := 0;
    }

    /** Off the floor and into the inventory, or onto a stack, or to the purse. Without room it is lost. */
    method PickUp(slot: nat, inv: array<Item>, count: nat, id: nat) returns (rc: int, left: nat)
      requires Valid() && slot < SEATS && count <= MAX_INVENTORY <= inv.Length
      modifies this`itemQueue, inv
      ensures Valid() && left <= MAX_INVENTORY && OthersSame(slot)
      ensures View(slot, inv, left) == Act(slot, old(View(slot, inv, count)), PicksUp(id))
      ensures var i := FindId(old(itemQueue), id);
              rc == if i < |old(itemQueue)| && old(itemQueue)[i].code != MESETA
                       && Added(old(inv[..count]), old(itemQueue)[i], MAX_INVENTORY).rc == -1 then -1 else 0
    {
      left := count;
      var found, it := RemoveItem(id);
      if !found {
        return 0, left;
      }
      if it.code != MESETA {
        var added := AddToInventory(inv, count, it);
        if added == -1 {
          return -1, left;
        }
        left := count + added;
      }
      rc := 0;
    }

    /** What the bank hands out gets an ID of the team's counter. */
    method TakeOut(slot: nat, inv: array<Item>, count: nat, it: Item) returns (rc: int, left: nat)
      requires Valid() && slot < SEATS && count <= MAX_INVENTORY <= inv.Length
      modifies this`itemId, inv
      ensures Valid() && left <= MAX_INVENTORY && OthersSame(slot)
      ensures View(slot, inv, left) == Act(slot, old(View(slot, inv, count)), Withdraws(it))
      ensures rc == if Added(old(inv[..count]), it.(id := old(itemId)), MAX_INVENTORY).rc == -1 then -1 else 0
    {
      var item := it.(id := itemId);
      itemId := (itemId + 1) % WORD;
      var added := AddToInventory(inv, count, item);
      if added < 0 {
        return -1, count;
      }
      return 0, count + added;
    }

    /** The inventory of somebody who has joined. */
    method Welcome(slot: nat, inv: array<Item>, count: nat)
      requires Valid() && slot < SEATS && count <= MAX_INVENTORY <= inv.Length
      modifies highest, inv
      ensures Valid() && OthersSame(slot)
      ensures View(slot, inv, count) == Act(slot, old(View(slot, inv, count)), Renumbers)
    {
      Renumber(inv, count, highest, slot);
    }
  }
}
