/**
  The item IDs of a Blue Burst team: what its members carry and what lies on the floor (src/subcmd.c:1694-2017,
  2339-2500, src/lobby.c:1795-1865, src/block.c:792-824).

  IDs come from two places. A member's slot has numbers of its own, used when an inventory is numbered through on
  joining and when part of a stack, or money, is dropped; the team has a counter, used for what the server drops and
  for what is taken from the bank. Everything else moves an item with the ID it has.
 */
module TeamItems {
  import opened ItemIds
  import opened Items

  const SEATS := 4
  const FLOOR_START := 0x81_0000
  const MESETA := 0x04

  /** What the team remembers for a slot, whether somebody is in it, and what they carry. */
  datatype Seat = Seat(highest: nat, taken: bool, bag: seq<Item>)

  datatype Team = Team(seats: seq<Seat>, counter: nat, floor: seq<Item>)

  ghost predicate Wf(t: Team) {
    && |t.seats| == SEATS && t.counter < WORD
    && forall s :: 0 <= s < SEATS ==> GoodSeat(t.seats[s])
  }

  ghost predicate GoodSeat(s: Seat) {
    s.highest < WORD && |s.bag| <= MAX_INVENTORY && (!s.taken ==> s.bag == [])
  }

  /** A team just made. */
  function NewTeam(): Team {
    Team(seq(SEATS, _ => Seat(0, false, [])), FLOOR_START, [])
  }

  /** What a member does. `what` is what a second list of the member's items holds in the place of the one dropped, and
      `matches` whether the member announced this drop last; `Withdraws` is a withdrawal the bank has granted, and
      `Finds` an item the server drops. */
  datatype Action =
    | Joins(bag: seq<Item>)
    | Renumbers
    | Leaves
    | DropsItem(id: nat)
    | DropsStack(id: nat, amount: nat, what: Item, matches: bool)
    | PicksUp(id: nat)
    | Deposits(id: nat, amount: nat)
    | Withdraws(it: Item)
    | Finds(it: Item)

  predicate Possible(seat: Seat, a: Action) {
    match a
    case Joins(bag) => !seat.taken && |bag| <= MAX_INVENTORY
    case Finds(_) => true
    case _ => seat.taken
  }

  /** The part of a team a member's action touches. */
  datatype Reach = Reach(seat: Seat, counter: nat, floor: seq<Item>)

  predicate GoodReach(r: Reach) {
    r.seat.highest < WORD && |r.seat.bag| <= MAX_INVENTORY && r.counter < WORD && (!r.seat.taken ==> r.seat.bag == [])
  }

  /** Sit down, or stay seated, with an inventory numbered through. */
  function Settled(slot: nat, highest: nat, bag: seq<Item>): Seat
    requires slot < SEATS && highest < WORD
  {
    var first := FirstId(slot, highest);
    Seat(Remembered(first, |bag|), true, Numbered(bag, first))
  }

  function DropItem(r: Reach, id: nat): Reach {
    var i := FindId(r.seat.bag, id);
    if i == |r.seat.bag| then r
    else r.(seat := r.seat.(bag := Removed(r.seat.bag, id, ALL).items), floor := [r.seat.bag[i]] + r.floor)
  }

  /** Whether a part of a stack, or money, gets as far as being given an ID. */
  predicate Splits(bag: seq<Item>, id: nat) {
    id == ALL || FindId(bag, id) < |bag|
  }

  function NextId(highest: nat): nat {
    (highest + 1) % WORD
  }

  /** What is left of the inventory. */
  function LeftOver(bag: seq<Item>, id: nat, amount: nat): seq<Item> {
    if id == ALL then bag else Removed(bag, id, amount).items
  }

  /** What then lies on the floor: money, or as much as was asked for, in a byte, of what the client's second list of
      items has in that place. */
  function Parcel(what: Item, id: nat, amount: nat, next: nat): Item {
    if id == ALL then Item(next, MESETA, 0, amount) else what.(id := next, amount := amount % 256)
  }

  function DropStack(r: Reach, id: nat, amount: nat, what: Item, matches: bool): Reach {
    var next := NextId(r.seat.highest);
    if !Splits(r.seat.bag, id) then r
    else if !matches then r.(seat := r.seat.(highest := next))
    else r.(seat := r.seat.(highest := next, bag := LeftOver(r.seat.bag, id, amount)),
            floor := [Parcel(what, id, amount, next)] + r.floor)
  }

  /** Money goes to the purse, anything else into the inventory, or is lost. */
  function Received(bag: seq<Item>, it: Item): seq<Item> {
    if it.code == MESETA then bag else Added(bag, it, MAX_INVENTORY).items
  }

  function PickUp(r: Reach, id: nat): Reach {
    var i := FindId(r.floor, id);
    if i == |r.floor| then r
    else r.(seat := r.seat.(bag := Received(r.seat.bag, r.floor[i])), floor := Without(r.floor, i))
  }

  function Deposit(r: Reach, id: nat, amount: nat): Reach {
    var i := FindId(r.seat.bag, id);
    if i == |r.seat.bag| || (!Stackable(r.seat.bag[i].code) && amount > 1) then r
    else r.(seat := r.seat.(bag := Removed(r.seat.bag, id, amount).items))
  }

  function Withdraw(r: Reach, it: Item): Reach {
    r.(seat := r.seat.(bag := Added(r.seat.bag, it.(id := r.counter), MAX_INVENTORY).items),
       counter := NextId(r.counter))
  }

  function Find(r: Reach, it: Item): Reach {
    r.(floor := [it.(id := r.counter)] + r.floor, counter := NextId(r.counter))
  }

  function Act(slot: nat, r: Reach, a: Action): Reach
    requires slot < SEATS && r.seat.highest < WORD
  {
    match a
    case Joins(bag) => r.(seat := Settled(slot, r.seat.highest, bag))
    case Renumbers => r.(seat := Settled(slot, r.seat.highest, r.seat.bag))
    case Leaves => r.(seat := Seat(r.seat.highest, false, []))
    case DropsItem(id) => DropItem(r, id)
    case DropsStack(id, amount, what, matches) => DropStack(r, id, amount, what, matches)
    case PicksUp(id) => PickUp(r, id)
    case Deposits(id, amount) => Deposit(r, id, amount)
    case Withdraws(it) => Withdraw(r, it)
    case Finds(it) => Find(r, it)
  }

  /** In a new team nobody sits, nothing lies on the floor, and the first ID the server gives is 0x810000. */
  lemma NewTeamIs()
    ensures var t := NewTeam();
            t.counter == 0x81_0000 && t.floor == [] && |t.seats| == 4 &&
            forall s :: 0 <= s < 4 ==> t.seats[s] == Seat(0, false, [])
  {
  }

  // ---------------------------------------------------------------- actions, told item by item

  /** Sitting down, or being numbered again, gives the items consecutive IDs from that of the slot on. */
  lemma SettlingDoes(slot: nat, r: Reach, bag: seq<Item>)
    requires slot < SEATS && r.seat.highest < WORD
    ensures var first := FirstId(slot, r.seat.highest);
            var s := Act(slot, r, Joins(bag)).seat;
            && s.taken && |s.bag| == |bag|
            && (forall k :: 0 <= k < |bag| ==> s.bag[k] == bag[k].(id := (first + k) % 0x1_0000_0000))
            && s.highest == (first + |bag| - 1) % 0x1_0000_0000
            && Act(slot, r, Joins(bag)) == r.(seat := s)
    ensures Act(slot, r, Renumbers) == Act(slot, r, Joins(r.seat.bag))
    ensures Act(slot, r, Leaves) == r.(seat := Seat(r.seat.highest, false, []))
  {
  }

  /** A whole item goes from the inventory to the front of the floor. */
  lemma DropItemDoes(slot: nat, r: Reach, id: nat, i: nat)
    requires slot < SEATS && r.seat.highest < WORD && IsFirstWithId(r.seat.bag, id, i)
    ensures var bag := r.seat.bag;
            Act(slot, r, DropsItem(id)) ==
            r.(seat := r.seat.(bag := bag[..i] + bag[i + 1..]), floor := [bag[i]] + r.floor)
  {
    RemovedIs(r.seat.bag, id, ALL, i);
    FoundId(r.seat.bag, id, i);
  }

  /** Part of a stack is taken off it, and put on the floor with the next ID of the slot and the amount asked for; if it
      is not what was announced, only the ID is used up. */
  lemma DropStackDoes(slot: nat, r: Reach, id: nat, amount: nat, what: Item, matches: bool, i: nat)
    requires slot < SEATS && r.seat.highest < WORD && IsFirstWithId(r.seat.bag, id, i) && id != 0xFFFF_FFFF
    ensures var after := Act(slot, r, DropsStack(id, amount, what, matches));
            var next := (r.seat.highest + 1) % 0x1_0000_0000;
            && after == r.(seat := after.seat, floor := after.floor)
            && after.seat.highest == next && after.seat.taken == r.seat.taken
            && (!matches ==> after.seat.bag == r.seat.bag && after.floor == r.floor)
            && (matches ==> after.seat.bag == Removed(r.seat.bag, id, amount).items &&
                            after.floor == [what.(id := next, amount := amount % 256)] + r.floor)
  {
    FoundId(r.seat.bag, id, i);
  }

  /** Money becomes an item of its own; the inventory does not change. */
  lemma DropMoneyDoes(slot: nat, r: Reach, amount: nat, what: Item, matches: bool)
    requires slot < SEATS && r.seat.highest < WORD
    ensures var after := Act(slot, r, DropsStack(0xFFFF_FFFF, amount, what, matches));
            var next := (r.seat.highest + 1) % 0x1_0000_0000;
            after == r.(seat := r.seat.(highest := next),
                        floor := if matches then [Item(next, 4, 0, amount)] + r.floor else r.floor)
  {
  }

  /** The first item with the ID goes from the floor to the inventory, as an item is added there, unless it is money. */
  lemma PickUpDoes(slot: nat, r: Reach, id: nat, i: nat)
    requires slot < SEATS && r.seat.highest < WORD && IsFirstWithId(r.floor, id, i)
    ensures var it, after := r.floor[i], Act(slot, r, PicksUp(id));
            && after == r.(seat := r.seat.(bag := after.seat.bag), floor := r.floor[..i] + r.floor[i + 1..])
            && after.seat.bag == (if it.code == 4 then r.seat.bag else Added(r.seat.bag, it, 30).items)
  {
    FoundId(r.floor, id, i);
  }

  /** What is deposited leaves the inventory, but of what is not stacked no more than one can be; what is withdrawn is
      added to it, and what the server drops to the floor, with the team's next ID. */
  lemma BankingDoes(slot: nat, r: Reach, id: nat, amount: nat, i: nat, it: Item)
    requires slot < SEATS && r.seat.highest < WORD && IsFirstWithId(r.seat.bag, id, i)
    ensures Act(slot, r, Deposits(id, amount)) ==
              if !Stackable(r.seat.bag[i].code) && amount > 1 then r
              else r.(seat := r.seat.(bag := Removed(r.seat.bag, id, amount).items))
    ensures Act(slot, r, Withdraws(it)) ==
              r.(seat := r.seat.(bag := Added(r.seat.bag, it.(id := r.counter), 30).items),
                 counter := (r.counter + 1) % 0x1_0000_0000)
    ensures Act(slot, r, Finds(it)) ==
              r.(floor := [it.(id := r.counter)] + r.floor, counter := (r.counter + 1) % 0x1_0000_0000)
  {
    FoundId(r.seat.bag, id, i);
  }

  /** Nothing happens with an item that is not there. */
  lemma NothingThere(slot: nat, r: Reach, id: nat, amount: nat, what: Item, matches: bool)
    requires slot < SEATS && r.seat.highest < WORD
    ensures (forall i :: 0 <= i < |r.seat.bag| ==> r.seat.bag[i].id != id) ==>
              && Act(slot, r, DropsItem(id)) == r && Act(slot, r, Deposits(id, amount)) == r
              && (id != 0xFFFF_FFFF ==> Act(slot, r, DropsStack(id, amount, what, matches)) == r)
    ensures (forall i :: 0 <= i < |r.floor| ==> r.floor[i].id != id) ==> Act(slot, r, PicksUp(id)) == r
  {
  }

  function ReachOf(t: Team, slot: nat): Reach
    requires slot < |t.seats|
  {
    Reach(t.seats[slot], t.counter, t.floor)
  }

  function WithReach(t: Team, slot: nat, r: Reach): Team
    requires slot < |t.seats|
  {
    Team(t.seats[slot := r.seat], r.counter, r.floor)
  }

  function Step(t: Team, slot: nat, a: Action): Team
    requires slot < |t.seats| == SEATS && t.seats[slot].highest < WORD
  {
    WithReach(t, slot, Act(slot, ReachOf(t, slot), a))
  }

  lemma ActKeepsGood(slot: nat, r: Reach, a: Action)
    requires slot < SEATS && GoodReach(r) && Possible(r.seat, a)
    ensures GoodReach(Act(slot, r, a))
  {
  }

  lemma StepKeepsWf(t: Team, slot: nat, a: Action)
    requires Wf(t) && slot < SEATS && Possible(t.seats[slot], a)
    ensures Wf(Step(t, slot, a))
  {
    assert GoodSeat(t.seats[slot]);
    ActKeepsGood(slot, ReachOf(t, slot), a);
  }

  // ---------------------------------------------------------------- the IDs that are around

  function Ids(s: seq<Item>): seq<nat> {
    seq(|s|, i requires 0 <= i < |s| => s[i].id)
  }

  function IdBag(s: seq<Item>): multiset<nat> {
    multiset(Ids(s))
  }

  lemma IdsOfConcat(s: seq<Item>, t: seq<Item>)
    ensures IdBag(s + t) == IdBag(s) + IdBag(t)
  {
    assert Ids(s + t) == Ids(s) + Ids(t);
  }

  lemma IdsOfOne(it: Item)
    ensures IdBag([it]) == multiset{it.id}
  {
    assert Ids([it]) == [it.id];
  }

  lemma IdsOfSplit(s: seq<Item>, i: nat)
    requires i < |s|
    ensures IdBag(s) == IdBag(Without(s, i)) + multiset{s[i].id}
  {
    IdsOfConcat(s[..i], s[i + 1..]);
    IdsOfConcat(s[..i], [s[i]]);
    IdsOfConcat(s[..i] + [s[i]], s[i + 1..]);
    IdsOfOne(s[i]);
    assert s == s[..i] + [s[i]] + s[i + 1..];
  }

  /** Storing onto a stack keeps the IDs; otherwise the item's own is added. */
  lemma IdsOfAdded(s: seq<Item>, it: Item, room: nat)
    ensures var r := Added(s, it, room);
            IdBag(r.items) == IdBag(s) + if r.rc == 1 then multiset{it.id} else multiset{}
  {
    if Added(s, it, room).rc == 1 {
      IdsOfConcat(s, [it]);
      IdsOfOne(it);
    } else {
      assert Ids(Added(s, it, room).items) == Ids(s);
    }
  }

  lemma IdsOfRemoved(s: seq<Item>, id: nat, amount: nat)
    ensures var r := Removed(s, id, amount);
            IdBag(s) == IdBag(r.items) + if r.rc == 1 then multiset{id} else multiset{}
  {
    if Removed(s, id, amount).rc == 1 {
      IdsOfSplit(s, FindId(s, id));
    } else {
      assert Ids(Removed(s, id, amount).items) == Ids(s);
    }
  }

  lemma IdsOfNumbered(s: seq<Item>, first: nat)
    ensures Ids(Numbered(s, first)) == Range(first, |s|)
  {
  }

  function Range(first: nat, count: nat): seq<nat> {
    seq(count, k requires 0 <= k < count => IdAt(first, k))
  }

  function Here(r: Reach): multiset<nat> {
    IdBag(r.seat.bag) + IdBag(r.floor)
  }

  // ---------------------------------------------------------------- IDs that are given out

  /** The IDs that an action gives to items which then are in the team. */
  function Given(slot: nat, r: Reach, a: Action): seq<nat>
    requires slot < SEATS && r.seat.highest < WORD
  {
    match a
    case Joins(bag) => Range(FirstId(slot, r.seat.highest), |bag|)
    case Renumbers => Range(FirstId(slot, r.seat.highest), |r.seat.bag|)
    case DropsStack(id, _, _, matches) => if Splits(r.seat.bag, id) && matches then [NextId(r.seat.highest)] else []
    case Withdraws(it) =>
      if Added(r.seat.bag, it.(id := r.counter), MAX_INVENTORY).rc == 1 then [r.counter] else []
    case Finds(_) => [r.counter]
    case _ => []
  }

  /** The IDs that stay where they are, of those within reach. */
  function Kept(r: Reach, a: Action): multiset<nat> {
    match a
    case Renumbers => IdBag(r.floor)
    case DropsStack(id, amount, _, _) => IdBag(LeftOver(r.seat.bag, id, amount)) + IdBag(r.floor)
    case _ => Here(r)
  }

  lemma GivenBySettling(slot: nat, highest: nat, bag: seq<Item>)
    requires slot < SEATS && highest < WORD
    ensures IdBag(Settled(slot, highest, bag).bag) == multiset(Range(FirstId(slot, highest), |bag|))
  {
    IdsOfNumbered(bag, FirstId(slot, highest));
  }

  lemma GivenByDropStack(r: Reach, id: nat, amount: nat, what: Item)
    requires Splits(r.seat.bag, id)
    ensures var after, left := DropStack(r, id, amount, what, true), IdBag(LeftOver(r.seat.bag, id, amount));
            && Here(after) == left + IdBag(r.floor) + multiset([NextId(r.seat.highest)])
            && left <= IdBag(r.seat.bag)
  {
    var it := Parcel(what, id, amount, NextId(r.seat.highest));
    IdsOfConcat([it], r.floor);
    IdsOfOne(it);
    IdsOfRemoved(r.seat.bag, id, amount);
  }

  lemma GivenByFind(r: Reach, it: Item)
    ensures Here(Find(r, it)) == Here(r) + multiset([r.counter])
  {
    IdsOfConcat([it.(id := r.counter)], r.floor);
    IdsOfOne(it.(id := r.counter));
  }

  lemma GivenByWithdraw(r: Reach, it: Item)
    requires Added(r.seat.bag, it.(id := r.counter), MAX_INVENTORY).rc == 1
    ensures Here(Withdraw(r, it)) == Here(r) + multiset([r.counter])
  {
    IdsOfAdded(r.seat.bag, it.(id := r.counter), MAX_INVENTORY);
  }

  /** What an action gives out is added to what stays, and nothing else appears. */
  lemma ActGives(slot: nat, r: Reach, a: Action)
    requires slot < SEATS && GoodReach(r) && Possible(r.seat, a)
    requires |Given(slot, r, a)| > 0
    ensures Here(Act(slot, r, a)) == Kept(r, a) + multiset(Given(slot, r, a)) && Kept(r, a) <= Here(r)
  {
    match a
    case Joins(bag) =>
      GivenBySettling(slot, r.seat.highest, bag);
    case Renumbers =>
      GivenBySettling(slot, r.seat.highest, r.seat.bag);
    case DropsStack(id, amount, what, matches) =>
      GivenByDropStack(r, id, amount, what);
    case Withdraws(it) =>
      GivenByWithdraw(r, it);
    case Finds(it) =>
      GivenByFind(r, it);
    case _ =>
  }

  lemma MovedByDropItem(r: Reach, id: nat)
    ensures Here(DropItem(r, id)) == Here(r)
  {
    var i := FindId(r.seat.bag, id);
    if i < |r.seat.bag| {
      IdsOfRemoved(r.seat.bag, id, ALL);
      IdsOfConcat([r.seat.bag[i]], r.floor);
      IdsOfOne(r.seat.bag[i]);
    }
  }

  lemma MovedByPickUp(r: Reach, id: nat)
    ensures Here(PickUp(r, id)) <= Here(r)
  {
    var i := FindId(r.floor, id);
    if i < |r.floor| {
      IdsOfSplit(r.floor, i);
      IdsOfAdded(r.seat.bag, r.floor[i], MAX_INVENTORY);
    }
  }

  /** Where no ID is given out, none appears. */
  lemma ActMoves(slot: nat, r: Reach, a: Action)
    requires slot < SEATS && GoodReach(r) && Possible(r.seat, a)
    requires |Given(slot, r, a)| == 0
    ensures Here(Act(slot, r, a)) <= Here(r)
  {
    match a
    case Joins(bag) =>
      assert bag == [];
    case Renumbers =>
      assert r.seat.bag == [];
    case DropsItem(id) =>
      MovedByDropItem(r, id);
    case PicksUp(id) =>
      MovedByPickUp(r, id);
    case Deposits(id, amount) =>
      IdsOfRemoved(r.seat.bag, id, amount);
    case Withdraws(it) =>
      IdsOfAdded(r.seat.bag, it.(id := r.counter), MAX_INVENTORY);
    case Leaves =>
      assert Ids([]) == [];
    case _ =>
  }

  // ---------------------------------------------------------------- every ID once

  ghost predicate Apart(s: seq<Item>, t: seq<Item>) {
    forall i, j :: 0 <= i < |s| && 0 <= j < |t| ==> s[i].id != t[j].id
  }

  /** No two items of a team have the same ID: not in one inventory, not in two, and not on the floor. */
  ghost predicate Unique(t: Team)
    requires |t.seats| == SEATS
  {
    && Distinct(t.floor)
    && (forall s :: 0 <= s < SEATS ==> Distinct(t.seats[s].bag) && Apart(t.seats[s].bag, t.floor))
    && (forall s, u :: 0 <= s < u < SEATS ==> Apart(t.seats[s].bag, t.seats[u].bag))
  }

  /** What is out of a member's reach: what the others carry. */
  function Others(t: Team, slot: nat): multiset<nat>
    requires slot < |t.seats| == SEATS
  {
    var b := seq(SEATS, s requires 0 <= s < SEATS => if s == slot then multiset{} else IdBag(t.seats[s].bag));
    b[0] + b[1] + b[2] + b[3]
  }

  function All(t: Team): multiset<nat>
    requires |t.seats| == SEATS
  {
    IdBag(t.seats[0].bag) + IdBag(t.seats[1].bag) + IdBag(t.seats[2].bag) + IdBag(t.seats[3].bag) + IdBag(t.floor)
  }

  lemma AllIsReachAndOthers(t: Team, slot: nat)
    requires slot < |t.seats| == SEATS
    ensures All(t) == Others(t, slot) + Here(ReachOf(t, slot))
  {
  }

  lemma OthersStay(t: Team, slot: nat, r: Reach)
    requires slot < |t.seats| == SEATS
    ensures Others(WithReach(t, slot, r), slot) == Others(t, slot)
  {
  }

  ghost predicate Once(m: multiset<nat>) {
    forall id :: m[id] <= 1
  }

  /** One of the IDs an action gives out is on something that stays in the team. */
  ghost predicate Clash(t: Team, slot: nat, a: Action)
    requires slot < |t.seats| == SEATS && t.seats[slot].highest < WORD
  {
    var r := ReachOf(t, slot);
    exists id :: id in Given(slot, r, a) && id in Others(t, slot) + Kept(r, a)
  }

  lemma TwiceInSplit(s: seq<Item>, i: nat, j: nat)
    requires i < j < |s| && s[i].id == s[j].id
    ensures IdBag(s)[s[j].id] >= 2
  {
    IdsOfSplit(s, j);
    assert Without(s, j)[i] == s[i];
    assert Ids(Without(s, j))[i] == s[i].id;
  }

  lemma {:induction false} OnceIfDistinct(s: seq<Item>)
    requires Distinct(s)
    ensures Once(IdBag(s))
  {
    if s != [] {
      var rest := s[1..];
      OnceIfDistinct(rest);
      IdsOfSplit(s, 0);
      assert Without(s, 0) == rest;
      InBag(rest, s[0].id);
      OnceWithOne(IdBag(rest), s[0].id);
    } else {
      assert Ids(s) == [];
    }
  }

  lemma OnceWithOne(m: multiset<nat>, id: nat)
    requires Once(m) && id !in m
    ensures Once(m + multiset{id})
  {
  }

  lemma InBag(s: seq<Item>, id: nat)
    ensures id in IdBag(s) <==> exists i :: 0 <= i < |s| && s[i].id == id
  {
    assert id in IdBag(s) <==> id in Ids(s);
    if id in Ids(s) {
      var i :| 0 <= i < |s| && Ids(s)[i] == id;
      assert s[i].id == id;
    }
    if i :| 0 <= i < |s| && s[i].id == id {
      assert Ids(s)[i] == id;
    }
  }

  lemma OnceIsDistinct(s: seq<Item>)
    ensures Once(IdBag(s)) <==> Distinct(s)
  {
    if Distinct(s) {
      OnceIfDistinct(s);
    } else {
      var i, j :| 0 <= i < j < |s| && s[i].id == s[j].id;
      TwiceInSplit(s, i, j);
    }
  }

  lemma ApartIsDisjoint(s: seq<Item>, t: seq<Item>)
    ensures Apart(s, t) <==> IdBag(s) !! IdBag(t)
  {
    if Apart(s, t) {
      forall id | id in IdBag(s) && id in IdBag(t) ensures false {
        InBag(s, id);
        InBag(t, id);
      }
    } else {
      var i, j :| 0 <= i < |s| && 0 <= j < |t| && s[i].id == t[j].id;
      InBag(s, s[i].id);
      InBag(t, s[i].id);
      assert s[i].id in IdBag(s) && s[i].id in IdBag(t);
    }
  }

  lemma OnceOfSum(a: multiset<nat>, b: multiset<nat>)
    ensures Once(a + b) <==> Once(a) && Once(b) && a !! b
  {
    if Once(a + b) {
      forall id ensures a[id] <= 1 && b[id] <= 1 && !(id in a && id in b) {
        assert (a + b)[id] == a[id] + b[id];
      }
    }
    if Once(a) && Once(b) && a !! b {
      forall id ensures (a + b)[id] <= 1 {
        assert (a + b)[id] == a[id] + b[id];
      }
    }
  }

  lemma SumDisjoint(a: multiset<nat>, b: multiset<nat>, c: multiset<nat>)
    ensures a + b !! c <==> a !! c && b !! c
  {
    forall id | id in c ensures id in a + b <==> id in a || id in b {
    }
  }

  lemma OnceOfFive(a: multiset<nat>, b: multiset<nat>, c: multiset<nat>, d: multiset<nat>, f: multiset<nat>)
    ensures Once(a + b + c + d + f) <==>
              && Once(a) && Once(b) && Once(c) && Once(d) && Once(f)
              && a !! b && a !! c && b !! c && a !! d && b !! d && c !! d && a !! f && b !! f && c !! f && d !! f
  {
    OnceOfSum(a, b);
    OnceOfSum(a + b, c);
    OnceOfSum(a + b + c, d);
    OnceOfSum(a + b + c + d, f);
    SumDisjoint(a, b, c);
    SumDisjoint(a + b, c, d);
    SumDisjoint(a, b, d);
    SumDisjoint(a + b + c, d, f);
    SumDisjoint(a + b, c, f);
    SumDisjoint(a, b, f);
  }

  lemma SeatsApart(t: Team, s: nat, u: nat)
    requires |t.seats| == SEATS && s < u < SEATS
    ensures Apart(t.seats[s].bag, t.seats[u].bag) <==> IdBag(t.seats[s].bag) !! IdBag(t.seats[u].bag)
  {
    ApartIsDisjoint(t.seats[s].bag, t.seats[u].bag);
  }

  /** A seat's own part of `Unique`. */
  ghost predicate SeatUnique(t: Team, s: nat)
    requires s < |t.seats| == SEATS
  {
    Distinct(t.seats[s].bag) && Apart(t.seats[s].bag, t.floor)
  }

  lemma SeatIsOnce(t: Team, s: nat)
    requires s < |t.seats| == SEATS
    ensures SeatUnique(t, s) <==> Once(IdBag(t.seats[s].bag)) && IdBag(t.seats[s].bag) !! IdBag(t.floor)
  {
    OnceIsDistinct(t.seats[s].bag);
    ApartIsDisjoint(t.seats[s].bag, t.floor);
  }

  lemma UniqueBySeats(t: Team)
    requires |t.seats| == SEATS
    ensures Unique(t) <==>
              && Distinct(t.floor)
              && SeatUnique(t, 0) && SeatUnique(t, 1) && SeatUnique(t, 2) && SeatUnique(t, 3)
              && Apart(t.seats[0].bag, t.seats[1].bag) && Apart(t.seats[0].bag, t.seats[2].bag)
              && Apart(t.seats[1].bag, t.seats[2].bag) && Apart(t.seats[0].bag, t.seats[3].bag)
              && Apart(t.seats[1].bag, t.seats[3].bag) && Apart(t.seats[2].bag, t.seats[3].bag)
  {
  }

  lemma UniqueIsOnce(t: Team)
    requires |t.seats| == SEATS
    ensures Unique(t) <==> Once(All(t))
  {
    UniqueBySeats(t);
    OnceIsDistinct(t.floor);
    SeatIsOnce(t, 0);
    SeatIsOnce(t, 1);
    SeatIsOnce(t, 2);
    SeatIsOnce(t, 3);
    SeatsApart(t, 0, 1);
    SeatsApart(t, 0, 2);
    SeatsApart(t, 1, 2);
    SeatsApart(t, 0, 3);
    SeatsApart(t, 1, 3);
    SeatsApart(t, 2, 3);
    OnceOfFive(IdBag(t.seats[0].bag), IdBag(t.seats[1].bag), IdBag(t.seats[2].bag), IdBag(t.seats[3].bag),
               IdBag(t.floor));
  }

  // ---------------------------------------------------------------- steps

  lemma RangeIsOnce(first: nat, count: nat)
    requires first < WORD && count <= MAX_INVENTORY
    ensures forall i, j :: 0 <= i < j < count ==> Range(first, count)[i] != Range(first, count)[j]
  {
    forall i, j | 0 <= i < j < count ensures IdAt(first, i) != IdAt(first, j) {
      NumbersDiffer(first, i, j);
    }
  }

  lemma NumbersDiffer(first: nat, i: nat, j: nat)
    requires first < WORD && i < j <= MAX_INVENTORY
    ensures IdAt(first, i) != IdAt(first, j)
  {
  }

  lemma {:induction false} SeqIsOnce(s: seq<nat>)
    requires forall i, j :: 0 <= i < j < |s| ==> s[i] != s[j]
    ensures Once(multiset(s))
  {
    if s != [] {
      var rest := s[1..];
      assert s == [s[0]] + rest;
      SeqIsOnce(rest);
      assert s[0] !in rest;
    }
  }

  lemma GivenIsOnce(slot: nat, r: Reach, a: Action)
    requires slot < SEATS && GoodReach(r) && Possible(r.seat, a)
    ensures Once(multiset(Given(slot, r, a)))
  {
    match a
    case Joins(bag) =>
      RangeIsOnce(FirstId(slot, r.seat.highest), |bag|);
      SeqIsOnce(Given(slot, r, a));
    case Renumbers =>
      RangeIsOnce(FirstId(slot, r.seat.highest), |r.seat.bag|);
      SeqIsOnce(Given(slot, r, a));
    case _ =>
      SeqIsOnce(Given(slot, r, a));
  }

  lemma OnceOfPart(a: multiset<nat>, b: multiset<nat>)
    requires Once(b) && a <= b
    ensures Once(a)
  {
    forall id ensures a[id] <= 1 {
      assert b[id] <= 1;
    }
  }

  lemma OnceWithMore(kept: multiset<nat>, given: seq<nat>)
    requires Once(kept) && Once(multiset(given))
    ensures Once(kept + multiset(given)) <==> !exists id :: id in given && id in kept
  {
    OnceOfSum(kept, multiset(given));
    forall id ensures id in given <==> id in multiset(given) {
    }
  }

  lemma ReachStaysOnce(others: multiset<nat>, slot: nat, r: Reach, a: Action)
    requires slot < SEATS && GoodReach(r) && Possible(r.seat, a) && Once(others + Here(r))
    ensures Once(others + Here(Act(slot, r, a))) <==>
              !exists id :: id in Given(slot, r, a) && id in others + Kept(r, a)
  {
    var after, given := Act(slot, r, a), Given(slot, r, a);
    if |given| > 0 {
      ActGives(slot, r, a);
      GivenIsOnce(slot, r, a);
      OnceOfPart(others + Kept(r, a), others + Here(r));
      OnceWithMore(others + Kept(r, a), given);
      assert others + Here(after) == others + Kept(r, a) + multiset(given);
    } else {
      ActMoves(slot, r, a);
      OnceOfPart(others + Here(after), others + Here(r));
    }
  }

  lemma AllAfter(t: Team, slot: nat, r: Reach)
    requires slot < |t.seats| == SEATS
    ensures All(WithReach(t, slot, r)) == Others(t, slot) + Here(r)
  {
    var next := WithReach(t, slot, r);
    AllIsReachAndOthers(next, slot);
    OthersStay(t, slot, r);
    assert ReachOf(next, slot) == r;
  }

  /** From a team whose items have IDs of their own, an action leads to such a team exactly when none of the IDs it
      gives out is on something that stays. */
  lemma StepKeepsUnique(t: Team, slot: nat, a: Action)
    requires Wf(t) && slot < SEATS && Possible(t.seats[slot], a) && Unique(t)
    ensures Unique(Step(t, slot, a)) <==> !Clash(t, slot, a)
  {
    var r := ReachOf(t, slot);
    assert GoodSeat(t.seats[slot]);
    UniqueIsOnce(t);
    AllIsReachAndOthers(t, slot);
    ReachStaysOnce(Others(t, slot), slot, r, a);
    AllAfter(t, slot, Act(slot, r, a));
    UniqueIsOnce(Step(t, slot, a));
  }
}
