/**
  Runs of a Blue Burst team's item actions: exactly when all items of the team have IDs of their own.
 */
module ItemRuns {
  import opened ItemIds
  import opened Items
  import opened TeamItems

  datatype Move = Move(slot: nat, action: Action)

  ghost predicate Legal(t: Team, m: Move) {
    Wf(t) && m.slot < SEATS && GoodSeat(t.seats[m.slot]) && Possible(t.seats[m.slot], m.action)
  }

  function Next(t: Team, m: Move): Team
    requires m.slot < |t.seats| == SEATS && t.seats[m.slot].highest < WORD
  {
    Step(t, m.slot, m.action)
  }

  /** `ts` are the states of a new team while `ms` are made, one after the other. */
  ghost predicate IsRun(ts: seq<Team>, ms: seq<Move>) {
    && |ts| == |ms| + 1
    && ts[0] == NewTeam()
    && forall i :: 0 <= i < |ms| ==> Legal(ts[i], ms[i]) && ts[i + 1] == Next(ts[i], ms[i])
  }

  lemma NewTeamIsUnique()
    ensures Wf(NewTeam()) && Unique(NewTeam())
  {
  }

  lemma {:induction false} RunIsWf(ts: seq<Team>, ms: seq<Move>, i: nat)
    requires IsRun(ts, ms) && i < |ts|
    ensures Wf(ts[i])
  {
    if i == 0 {
      NewTeamIsUnique();
    } else {
      var before := i - 1;
      StepKeepsWf(ts[before], ms[before].slot, ms[before].action);
    }
  }

  ghost predicate ClashAt(t: Team, m: Move)
    requires Legal(t, m)
  {
    Clash(t, m.slot, m.action)
  }

  ghost predicate AllUnique(ts: seq<Team>) {
    forall i :: 0 <= i < |ts| ==> |ts[i].seats| == SEATS && Unique(ts[i])
  }

  lemma {:induction false} UniqueUpTo(ts: seq<Team>, ms: seq<Move>, i: nat)
    requires IsRun(ts, ms) && i < |ts|
    requires forall k :: 0 <= k < i ==> !ClashAt(ts[k], ms[k])
    ensures |ts[i].seats| == SEATS && Unique(ts[i])
  {
    if i == 0 {
      NewTeamIsUnique();
    } else {
      var before := i - 1;
      UniqueUpTo(ts, ms, before);
      RunIsWf(ts, ms, i);
      StepKeepsUnique(ts[before], ms[before].slot, ms[before].action);
    }
  }

  /** In every run, items have IDs of their own all along, those on the floor included, exactly when no action gives
      out an ID that is on something which stays in the team. */
  lemma IdsAreUniqueUnlessGivenTwice(ts: seq<Team>, ms: seq<Move>)
    requires IsRun(ts, ms)
    ensures AllUnique(ts) <==> forall i :: 0 <= i < |ms| ==> !ClashAt(ts[i], ms[i])
  {
    if AllUnique(ts) {
      forall i | 0 <= i < |ms| ensures !ClashAt(ts[i], ms[i]) {
        var next := i + 1;
        assert Unique(ts[i]) && Unique(ts[next]);
        StepKeepsUnique(ts[i], ms[i].slot, ms[i].action);
      }
    }
    if forall i :: 0 <= i < |ms| ==> !ClashAt(ts[i], ms[i]) {
      forall i | 0 <= i < |ts| ensures |ts[i].seats| == SEATS && Unique(ts[i]) {
        UniqueUpTo(ts, ms, i);
      }
    }
  }

  // ---------------------------------------------------------------- what can clash

  /** The numbers an action needs are not used up. */
  predicate Room(r: Reach, a: Action) {
    var h := r.seat.highest % SLOT_UNIT;
    match a
    case Joins(bag) => OrStart(h) + |bag| <= SLOT_UNIT
    case Renumbers => OrStart(h) + |r.seat.bag| <= SLOT_UNIT
    case DropsStack(id, _, _, _) => Splits(r.seat.bag, id) ==> h + 1 < SLOT_UNIT
    case Withdraws(_) => r.counter + 1 < WORD
    case Finds(_) => r.counter + 1 < WORD
    case _ => true
  }

  /** Numbering an inventory without anything in it. */
  predicate EmptyHanded(r: Reach, a: Action) {
    (a.Joins? && a.bag == []) || (a.Renumbers? && r.seat.bag == [])
  }

  /** What is remembered for a slot carries the slot, from the first time somebody takes it. */
  predicate ReadySeat(s: nat, seat: Seat) {
    seat.taken || seat.highest > 0 ==> SlotOf(seat.highest) == s
  }

  ghost predicate Ready(t: Team)
    requires |t.seats| == SEATS
  {
    t.counter >= FLOOR_START && forall s :: 0 <= s < SEATS ==> ReadySeat(s, t.seats[s])
  }

  /** The ID was given out by the slot it carries, or else by the team's counter. */
  predicate Issued(t: Team, id: nat)
    requires |t.seats| == SEATS
  {
    if SlotOf(id) < SEATS then id <= t.seats[SlotOf(id)].highest else id < t.counter
  }

  ghost predicate Accounted(t: Team)
    requires |t.seats| == SEATS
  {
    forall id :: id in All(t) ==> Issued(t, id)
  }

  lemma ReadyIsClean(slot: nat, seat: Seat)
    requires slot < SEATS && ReadySeat(slot, seat)
    ensures Clean(slot, seat.highest)
  {
    if SlotOf(seat.highest) == slot {
      OwnSlotIsClean(slot, seat.highest);
    }
  }

  lemma OrStartGrows(n: nat)
    requires n < SLOT_UNIT
    ensures n <= OrStart(n)
  {
  }

  lemma Recompose(id: nat)
    ensures id == SlotOf(id) * SLOT_UNIT + id % SLOT_UNIT
  {
  }

  /** Where numbering begins. */
  lemma FirstOfReady(slot: nat, seat: Seat)
    requires slot < SEATS && seat.highest < WORD && ReadySeat(slot, seat)
    ensures var first := FirstId(slot, seat.highest);
            && first == slot * SLOT_UNIT + OrStart(seat.highest % SLOT_UNIT)
            && seat.highest <= first && 0 < first
  {
    ReadyIsClean(slot, seat);
    FirstIdOfSlot(slot, seat.highest);
    OrStartGrows(seat.highest % SLOT_UNIT);
    Recompose(seat.highest);
  }

  lemma NumberedIssued(slot: nat, low: nat, first: nat, count: nat, k: nat)
    requires slot < SEATS && low < SLOT_UNIT && 0 < first == slot * SLOT_UNIT + low && low + count <= SLOT_UNIT
    requires k < count <= MAX_INVENTORY
    ensures var id := IdAt(first, k);
            SlotOf(id) == slot && id == first + k && id <= Remembered(first, count) == first + count - 1
  {
    IdAfter(slot, low, first, k);
    BelowWord(slot, low + count - 1);
  }

  /** Numbering gives out IDs of the slot, from the first to what is then remembered. */
  lemma SettledIssued(slot: nat, seat: Seat, count: nat)
    requires slot < SEATS && seat.highest < WORD && ReadySeat(slot, seat) && 0 < count <= MAX_INVENTORY
    requires OrStart(seat.highest % SLOT_UNIT) + count <= SLOT_UNIT
    ensures var first := FirstId(slot, seat.highest);
            && seat.highest <= first <= Remembered(first, count)
            && SlotOf(Remembered(first, count)) == slot
            && forall id :: id in Range(first, count) ==> SlotOf(id) == slot && first <= id <= Remembered(first, count)
  {
    var first, low := FirstId(slot, seat.highest), OrStart(seat.highest % SLOT_UNIT);
    FirstOfReady(slot, seat);
    forall k: nat | k < count
      ensures SlotOf(IdAt(first, k)) == slot && first <= IdAt(first, k) <= Remembered(first, count)
    {
      NumberedIssued(slot, low, first, count, k);
    }
    RememberedFrom(slot, low, first, count);
  }

  /** The next number of somebody who is in the team. */
  lemma SplitIssued(slot: nat, seat: Seat)
    requires slot < SEATS && seat.highest < WORD && SlotOf(seat.highest) == slot
    requires seat.highest % SLOT_UNIT + 1 < SLOT_UNIT
    ensures NextId(seat.highest) == seat.highest + 1 && SlotOf(NextId(seat.highest)) == slot
  {
    var low := seat.highest % SLOT_UNIT + 1;
    Recompose(seat.highest);
    BelowWord(slot, low);
    SlotPlus(slot, low);
  }

  lemma FloorSlot(counter: nat)
    requires FLOOR_START <= counter
    ensures SlotOf(counter) >= SEATS
  {
  }

  /** What is given out carries its slot, or none, and lies beyond what was given out before. */
  ghost predicate Beyond(slot: nat, r: Reach, after: Reach, id: nat) {
    if SlotOf(id) < SEATS then SlotOf(id) == slot && r.seat.highest <= id <= after.seat.highest
    else r.counter <= id < after.counter
  }

  lemma GivenIsBeyond(slot: nat, r: Reach, a: Action)
    requires slot < SEATS && GoodReach(r) && Possible(r.seat, a)
    requires ReadySeat(slot, r.seat) && r.counter >= FLOOR_START && Room(r, a) && !EmptyHanded(r, a)
    ensures forall id :: id in Given(slot, r, a) ==> Beyond(slot, r, Act(slot, r, a), id)
  {
    match a
    case Joins(bag) =>
      SettledIssued(slot, r.seat, |bag|);
    case Renumbers =>
      SettledIssued(slot, r.seat, |r.seat.bag|);
    case DropsStack(id, _, _, _) =>
      if Splits(r.seat.bag, id) {
        SplitIssued(slot, r.seat);
      }
    case Withdraws(_) =>
      FloorSlot(r.counter);
    case Finds(_) =>
      FloorSlot(r.counter);
    case _ =>
  }

  /** What is remembered and counted only grows, and what is remembered carries the slot. */
  lemma ActGrows(slot: nat, r: Reach, a: Action)
    requires slot < SEATS && GoodReach(r) && Possible(r.seat, a)
    requires ReadySeat(slot, r.seat) && r.counter >= FLOOR_START && Room(r, a) && !EmptyHanded(r, a)
    ensures var after := Act(slot, r, a);
            && ReadySeat(slot, after.seat) && r.counter <= after.counter && r.seat.highest <= after.seat.highest
  {
    match a
    case Joins(bag) =>
      SettledIssued(slot, r.seat, |bag|);
    case Renumbers =>
      SettledIssued(slot, r.seat, |r.seat.bag|);
    case DropsStack(id, _, _, _) =>
      if Splits(r.seat.bag, id) {
        SplitIssued(slot, r.seat);
      }
    case _ =>
  }

  ghost predicate Sound(t: Team) {
    Wf(t) && Ready(t) && Accounted(t)
  }

  /** Where the IDs in a team come from: they were there, or are given out. */
  lemma WhereFrom(t: Team, m: Move, id: nat)
    requires Legal(t, m) && id in All(Next(t, m))
    ensures id in All(t) || id in Given(m.slot, ReachOf(t, m.slot), m.action)
  {
    var r := ReachOf(t, m.slot);
    AllIsReachAndOthers(t, m.slot);
    AllAfter(t, m.slot, Act(m.slot, r, m.action));
    if |Given(m.slot, r, m.action)| > 0 {
      ActGives(m.slot, r, m.action);
    } else {
      ActMoves(m.slot, r, m.action);
    }
  }

  lemma IssuedStays(t: Team, slot: nat, r: Reach, id: nat)
    requires slot < |t.seats| == SEATS && Issued(t, id)
    requires t.counter <= r.counter && t.seats[slot].highest <= r.seat.highest
    ensures Issued(WithReach(t, slot, r), id)
  {
  }

  ghost predicate Tame(t: Team, m: Move)
    requires m.slot < |t.seats|
  {
    Room(ReachOf(t, m.slot), m.action) && !EmptyHanded(ReachOf(t, m.slot), m.action)
  }

  lemma IssuedAfter(t: Team, m: Move, id: nat)
    requires Sound(t) && Legal(t, m) && Tame(t, m) && id in All(Next(t, m))
    ensures Issued(Next(t, m), id)
  {
    var r := ReachOf(t, m.slot);
    assert ReadySeat(m.slot, t.seats[m.slot]);
    WhereFrom(t, m, id);
    ActGrows(m.slot, r, m.action);
    if id in All(t) {
      IssuedStays(t, m.slot, Act(m.slot, r, m.action), id);
    } else {
      GivenIsBeyond(m.slot, r, m.action);
      assert Beyond(m.slot, r, Act(m.slot, r, m.action), id);
    }
  }

  lemma StepKeepsSound(t: Team, m: Move)
    requires Sound(t) && Legal(t, m) && Tame(t, m)
    ensures Sound(Next(t, m))
  {
    assert ReadySeat(m.slot, t.seats[m.slot]);
    StepKeepsWf(t, m.slot, m.action);
    ActGrows(m.slot, ReachOf(t, m.slot), m.action);
    forall id | id in All(Next(t, m)) ensures Issued(Next(t, m), id) {
      IssuedAfter(t, m, id);
    }
  }

  /** Numbering begins with the ID remembered, and something that stays in the team has it. */
  ghost predicate Repeats(t: Team, m: Move)
    requires Legal(t, m)
  {
    var r := ReachOf(t, m.slot);
    && (m.action.Joins? || m.action.Renumbers?)
    && FirstId(m.slot, r.seat.highest) == r.seat.highest
    && r.seat.highest in Others(t, m.slot) + Kept(r, m.action)
  }

  lemma KeptIsAround(t: Team, m: Move, id: nat)
    requires Sound(t) && Legal(t, m)
    requires id in Given(m.slot, ReachOf(t, m.slot), m.action)
    requires id in Others(t, m.slot) + Kept(ReachOf(t, m.slot), m.action)
    ensures Issued(t, id)
  {
    AllIsReachAndOthers(t, m.slot);
    ActGives(m.slot, ReachOf(t, m.slot), m.action);
    assert id in All(t);
  }

  /** An ID given out that was given out before is the one remembered, in a numbering that begins with it. */
  lemma OnlyTheLast(slot: nat, r: Reach, a: Action, id: nat)
    requires slot < SEATS && GoodReach(r) && Possible(r.seat, a)
    requires ReadySeat(slot, r.seat) && r.counter >= FLOOR_START && Room(r, a) && !EmptyHanded(r, a)
    requires id in Given(slot, r, a)
    requires if SlotOf(id) < SEATS then SlotOf(id) == slot && id <= r.seat.highest else id < r.counter
    ensures (a.Joins? || a.Renumbers?) && FirstId(slot, r.seat.highest) == r.seat.highest == id
  {
    GivenIsBeyond(slot, r, a);
    match a
    case Joins(bag) =>
      SettledIssued(slot, r.seat, |bag|);
    case Renumbers =>
      SettledIssued(slot, r.seat, |r.seat.bag|);
    case DropsStack(_, _, _, _) =>
      SplitIssued(slot, r.seat);
    case _ =>
  }

  lemma ClashIsRepeat(t: Team, m: Move)
    requires Sound(t) && Legal(t, m) && Tame(t, m)
    ensures ClashAt(t, m) <==> Repeats(t, m)
  {
    var r := ReachOf(t, m.slot);
    assert ReadySeat(m.slot, t.seats[m.slot]);
    if ClashAt(t, m) {
      var id :| id in Given(m.slot, r, m.action) && id in Others(t, m.slot) + Kept(r, m.action);
      KeptIsAround(t, m, id);
      GivenIsBeyond(m.slot, r, m.action);
      assert Beyond(m.slot, r, Act(m.slot, r, m.action), id);
      OnlyTheLast(m.slot, r, m.action, id);
    }
    if Repeats(t, m) {
      FirstIsGiven(m.slot, r, m.action);
    }
  }

  lemma FirstIsGiven(slot: nat, r: Reach, a: Action)
    requires slot < SEATS && r.seat.highest < WORD && (a.Joins? || a.Renumbers?) && !EmptyHanded(r, a)
    ensures FirstId(slot, r.seat.highest) in Given(slot, r, a)
  {
    assert Given(slot, r, a)[0] == IdAt(FirstId(slot, r.seat.highest), 0) == FirstId(slot, r.seat.highest);
  }

  lemma NewTeamIsSound()
    ensures Sound(NewTeam())
  {
    var t := NewTeam();
    assert Ids([]) == [];
    assert All(t) == multiset{};
  }

  lemma {:induction false} RunIsSound(ts: seq<Team>, ms: seq<Move>, i: nat)
    requires IsRun(ts, ms) && i < |ts|
    requires forall k :: 0 <= k < |ms| ==> Tame(ts[k], ms[k])
    ensures Sound(ts[i])
  {
    if i == 0 {
      NewTeamIsSound();
    } else {
      var before := i - 1;
      RunIsSound(ts, ms, before);
      StepKeepsSound(ts[before], ms[before]);
    }
  }

  /** In a run where nobody is numbered empty-handed and the numbers do not run out, items have IDs of their own all
      along exactly when no numbering begins with an ID that is still on something else in the team. Dropping,
      picking up, banking and what the server drops never lead to an ID being there twice. */
  lemma IdsAreUniqueUnlessLastRepeats(ts: seq<Team>, ms: seq<Move>)
    requires IsRun(ts, ms) && forall i :: 0 <= i < |ms| ==> Tame(ts[i], ms[i])
    ensures AllUnique(ts) <==> forall i :: 0 <= i < |ms| ==> !Repeats(ts[i], ms[i])
  {
    IdsAreUniqueUnlessGivenTwice(ts, ms);
    forall i | 0 <= i < |ms| ensures ClashAt(ts[i], ms[i]) <==> Repeats(ts[i], ms[i]) {
      RunIsSound(ts, ms, i);
      ClashIsRepeat(ts[i], ms[i]);
    }
  }

  // ---------------------------------------------------------------- the input that repeats an ID

  /** A team with at most one member, who is at `seat`. */
  function Alone(slot: nat, seat: Seat, floor: seq<Item>): Team
    requires slot < SEATS
  {
    Team(NewTeam().seats[slot := seat], FLOOR_START, floor)
  }

  lemma AloneAfter(slot: nat, seat: Seat, floor: seq<Item>, a: Action, r: Reach)
    requires slot < SEATS && GoodSeat(seat) && Possible(seat, a)
    requires Act(slot, Reach(seat, FLOOR_START, floor), a) == r && r.counter == FLOOR_START
    ensures var t, m := Alone(slot, seat, floor), Move(slot, a);
            Legal(t, m) && Next(t, m) == Alone(slot, r.seat, r.floor)
  {
    assert Alone(slot, seat, floor).seats[slot] == seat;
  }

  /** The ID of the first item ever numbered for a slot. */
  function FreshId(slot: nat): nat {
    slot * SLOT_UNIT + 0x1_0000
  }

  lemma SettledAlone(slot: nat, highest: nat, bag: seq<Item>)
    requires slot < SEATS && (highest == 0 || highest == FreshId(slot)) && |bag| <= 1
    ensures var id := FreshId(slot);
            Settled(slot, highest, bag) == Seat(id + |bag| - 1, true, if bag == [] then [] else [bag[0].(id := id)])
  {
    var id := FreshId(slot);
    FirstIdAgain(slot, highest, id);
    RememberedSmall(slot, id, |bag|);
    assert Numbered(bag, id) == if bag == [] then [] else [bag[0].(id := id)];
  }

  lemma RememberedSmall(slot: nat, id: nat, count: nat)
    requires slot < SEATS && id == FreshId(slot) && count <= 1
    ensures Remembered(id, count) == id + count - 1 && IdAt(id, 0) == id
  {
    BelowWord(slot, 0x1_0000);
    BelowWord(slot, 0x1_0000 + count - 1);
  }

  lemma JoinsAlone(slot: nat, highest: nat, bag: seq<Item>, floor: seq<Item>)
    requires slot < SEATS && (highest == 0 || highest == FreshId(slot)) && |bag| <= 1
    ensures var t, m := Alone(slot, Seat(highest, false, []), floor), Move(slot, Joins(bag));
            Legal(t, m) && Next(t, m) == Alone(slot, Settled(slot, highest, bag), floor)
  {
    var next := Settled(slot, highest, bag);
    AloneAfter(slot, Seat(highest, false, []), floor, Joins(bag), Reach(next, FLOOR_START, floor));
  }

  lemma DropsAlone(slot: nat, it: Item)
    requires slot < SEATS && it.id < WORD
    ensures var t, m := Alone(slot, Seat(it.id, true, [it]), []), Move(slot, DropsItem(it.id));
            Legal(t, m) && Next(t, m) == Alone(slot, Seat(it.id, true, []), [it])
  {
    assert Without([it], 0) == [];
    AloneAfter(slot, Seat(it.id, true, [it]), [], DropsItem(it.id), Reach(Seat(it.id, true, []), FLOOR_START, [it]));
  }

  lemma LeavesAlone(slot: nat, id: nat, floor: seq<Item>)
    requires slot < SEATS && id < WORD
    ensures var t, m := Alone(slot, Seat(id, true, []), floor), Move(slot, Leaves);
            Legal(t, m) && Next(t, m) == Alone(slot, Seat(id, false, []), floor)
  {
    AloneAfter(slot, Seat(id, true, []), floor, Leaves, Reach(Seat(id, false, []), FLOOR_START, floor));
  }

  /** Join a new team with one item, drop it, leave. */
  function Visit(slot: nat, a: Item): seq<Move> {
    [Move(slot, Joins([a])), Move(slot, DropsItem(FreshId(slot))), Move(slot, Leaves)]
  }

  /** The item as it then lies there. */
  function LeftBehind(slot: nat, a: Item): Item {
    a.(id := FreshId(slot))
  }

  function Visited(slot: nat, a: Item): seq<Team>
    requires slot < SEATS
  {
    var id, it := FreshId(slot), LeftBehind(slot, a);
    [NewTeam(), Alone(slot, Seat(id, true, [it]), []), Alone(slot, Seat(id, true, []), [it]),
     Alone(slot, Seat(id, false, []), [it])]
  }

  lemma VisitIsRun(slot: nat, a: Item)
    requires slot < SEATS
    ensures IsRun(Visited(slot, a), Visit(slot, a))
  {
    var id, it := FreshId(slot), LeftBehind(slot, a);
    assert NewTeam() == Alone(slot, Seat(0, false, []), []);
    JoinsAlone(slot, 0, [a], []);
    SettledAlone(slot, 0, [a]);
    DropsAlone(slot, it);
    LeavesAlone(slot, id, [it]);
  }

  lemma LiesThere(it: Item)
    ensures it.id in IdBag([it])
  {
    assert Ids([it])[0] == it.id;
  }

  lemma AloneRepeats(slot: nat, it: Item, b: Item)
    requires slot < SEATS && it.id == FreshId(slot)
    requires Legal(Alone(slot, Seat(it.id, false, []), [it]), Move(slot, Joins([b])))
    ensures var t, m := Alone(slot, Seat(it.id, false, []), [it]), Move(slot, Joins([b]));
            Tame(t, m) && Repeats(t, m)
  {
    FirstIdAgain(slot, it.id, it.id);
    LiesThere(it);
  }

  /** Whoever takes the slot after such a visit gets, for their first item, the ID of the one on the floor. */
  lemma NewcomerRepeatsId(slot: nat, a: Item, b: Item)
    requires slot < SEATS
    ensures var ts, m, id := Visited(slot, a), Move(slot, Joins([b])), FreshId(slot);
            && IsRun(ts, Visit(slot, a)) && Legal(ts[3], m) && Tame(ts[3], m) && Repeats(ts[3], m)
            && Next(ts[3], m) == Alone(slot, Seat(id, true, [b.(id := id)]), [a.(id := id)])
  {
    var it := LeftBehind(slot, a);
    VisitIsRun(slot, a);
    JoinsAlone(slot, it.id, [b], [it]);
    SettledAlone(slot, it.id, [b]);
    AloneRepeats(slot, it, b);
  }

  lemma SplitsAlone(slot: nat, it: Item, amount: nat, what: Item)
    requires slot < SEATS && it.id == FreshId(slot)
    ensures var t := Alone(slot, Seat(it.id - 1, true, []), [it]);
            var m := Move(slot, DropsStack(ALL, amount, what, true));
            && Legal(t, m)
            && Next(t, m) == Alone(slot, Seat(it.id, true, []), [Item(it.id, MESETA, 0, amount), it])
  {
    var id := it.id;
    BelowWord(slot, 0x1_0000);
    AloneAfter(slot, Seat(id - 1, true, []), [it], DropsStack(ALL, amount, what, true),
               Reach(Seat(id, true, []), FLOOR_START, [Item(id, MESETA, 0, amount)] + [it]));
  }

  /** Coming in empty-handed after such a visit takes the remembered ID back by one, so that the next thing split off
      gets the ID of the item on the floor. */
  lemma EmptyHandedRepeatsId(slot: nat, a: Item, amount: nat, what: Item)
    requires slot < SEATS
    ensures var ts, m, id := Visited(slot, a), Move(slot, Joins([])), FreshId(slot);
            var n := Move(slot, DropsStack(ALL, amount, what, true));
            && IsRun(ts, Visit(slot, a)) && Legal(ts[3], m) && Legal(Next(ts[3], m), n)
            && Next(Next(ts[3], m), n).floor == [Item(id, MESETA, 0, amount), a.(id := id)]
  {
    var it := LeftBehind(slot, a);
    VisitIsRun(slot, a);
    JoinsAlone(slot, it.id, [], [it]);
    SettledAlone(slot, it.id, []);
    SplitsAlone(slot, it, amount, what);
  }

  // ---------------------------------------------------------------- joins alone

  /** Everybody's items carry their slot. */
  ghost predicate InSlots(t: Team)
    requires |t.seats| == SEATS
  {
    forall s :: 0 <= s < SEATS ==> AllInSlot(s, t.seats[s].bag)
  }

  predicate ComesOrGoes(a: Action) {
    a.Joins? || a.Renumbers? || a.Leaves?
  }

  ghost predicate AllInSlot(slot: nat, s: seq<Item>) {
    forall i :: 0 <= i < |s| ==> SlotOf(s[i].id) == slot
  }

  lemma NumberedInSlot(slot: nat, s: seq<Item>, first: nat)
    ensures AllInSlot(slot, Numbered(s, first)) <==> forall k: nat :: k < |s| ==> SlotOf(IdAt(first, k)) == slot
  {
    var n := Numbered(s, first);
    assert forall k: nat :: k < |s| ==> n[k].id == IdAt(first, k);
    if AllInSlot(slot, n) {
      forall k: nat | k < |s| ensures SlotOf(IdAt(first, k)) == slot {
        assert SlotOf(n[k].id) == slot;
      }
    }
  }

  /** An inventory carries the slot after numbering exactly when the numbers suffice. */
  lemma SettledInSlot(slot: nat, seat: Seat, bag: seq<Item>)
    requires slot < SEATS && seat.highest < WORD && ReadySeat(slot, seat) && |bag| <= MAX_INVENTORY
    ensures AllInSlot(slot, Settled(slot, seat.highest, bag).bag) <==>
              OrStart(seat.highest % SLOT_UNIT) + |bag| <= SLOT_UNIT
  {
    ReadyIsClean(slot, seat);
    NumberedInSlot(slot, bag, FirstId(slot, seat.highest));
    if bag != [] {
      SlotKept(slot, seat.highest, |bag|);
    }
  }

  lemma SettledIsReady(slot: nat, seat: Seat, bag: seq<Item>)
    requires slot < SEATS && seat.highest < WORD && ReadySeat(slot, seat)
    requires OrStart(seat.highest % SLOT_UNIT) + |bag| <= SLOT_UNIT
    ensures ReadySeat(slot, Settled(slot, seat.highest, bag))
  {
    ReadyIsClean(slot, seat);
    HighestStaysClean(slot, seat.highest, |bag|);
  }

  /** Nothing was ever put down, and everybody carries what they came with. */
  ghost predicate Tidy(t: Team) {
    Wf(t) && Ready(t) && InSlots(t) && t.floor == []
  }

  lemma SettledInSlots(t: Team, slot: nat, bag: seq<Item>)
    requires Tidy(t) && slot < SEATS && |bag| <= MAX_INVENTORY
    ensures var next := WithReach(t, slot, Reach(Settled(slot, t.seats[slot].highest, bag), t.counter, []));
            InSlots(next) <==> OrStart(t.seats[slot].highest % SLOT_UNIT) + |bag| <= SLOT_UNIT
  {
    var next := WithReach(t, slot, Reach(Settled(slot, t.seats[slot].highest, bag), t.counter, []));
    assert ReadySeat(slot, t.seats[slot]) && GoodSeat(t.seats[slot]);
    SettledInSlot(slot, t.seats[slot], bag);
    assert InSlots(next) <==> AllInSlot(slot, next.seats[slot].bag);
  }

  lemma SettledStaysTidy(t: Team, slot: nat, bag: seq<Item>)
    requires Tidy(t) && slot < SEATS && |bag| <= MAX_INVENTORY
    requires OrStart(t.seats[slot].highest % SLOT_UNIT) + |bag| <= SLOT_UNIT
    ensures Tidy(WithReach(t, slot, Reach(Settled(slot, t.seats[slot].highest, bag), t.counter, [])))
  {
    assert ReadySeat(slot, t.seats[slot]) && GoodSeat(t.seats[slot]);
    SettledInSlots(t, slot, bag);
    SettledIsReady(slot, t.seats[slot], bag);
  }

  /** The numbers suffice exactly when items carry their slots afterwards. */
  lemma TidyStep(t: Team, m: Move)
    requires Tidy(t) && Legal(t, m) && ComesOrGoes(m.action)
    ensures InSlots(Next(t, m)) <==> Room(ReachOf(t, m.slot), m.action)
    ensures Room(ReachOf(t, m.slot), m.action) ==> Tidy(Next(t, m))
  {
    match m.action
    case Joins(bag) =>
      TidySettling(t, m, bag);
    case Renumbers =>
      TidySettling(t, m, t.seats[m.slot].bag);
    case Leaves =>
      assert ReadySeat(m.slot, t.seats[m.slot]);
    case _ =>
  }

  lemma TidySettling(t: Team, m: Move, bag: seq<Item>)
    requires Tidy(t) && Legal(t, m) && |bag| <= MAX_INVENTORY
    requires Next(t, m) == WithReach(t, m.slot, Reach(Settled(m.slot, t.seats[m.slot].highest, bag), t.counter, []))
    ensures var enough := OrStart(t.seats[m.slot].highest % SLOT_UNIT) + |bag| <= SLOT_UNIT;
            (InSlots(Next(t, m)) <==> enough) && (enough ==> Tidy(Next(t, m)))
  {
    SettledInSlots(t, m.slot, bag);
    if OrStart(t.seats[m.slot].highest % SLOT_UNIT) + |bag| <= SLOT_UNIT {
      SettledStaysTidy(t, m.slot, bag);
    }
  }

  lemma NumberedIsDistinct(s: seq<Item>, first: nat)
    requires first < WORD && |s| <= MAX_INVENTORY
    ensures Distinct(Numbered(s, first))
  {
    RangeIsOnce(first, |s|);
    IdsOfNumbered(s, first);
    forall i, j | 0 <= i < j < |s| ensures Numbered(s, first)[i].id != Numbered(s, first)[j].id {
      assert Range(first, |s|)[i] != Range(first, |s|)[j];
    }
  }

  ghost predicate DistinctBags(t: Team) {
    forall s :: 0 <= s < |t.seats| ==> Distinct(t.seats[s].bag)
  }

  /** Members that carry their slots are apart from each other. */
  lemma InSlotsAreApart(t: Team, s: nat, u: nat)
    requires |t.seats| == SEATS && InSlots(t) && s < u < SEATS
    ensures Apart(t.seats[s].bag, t.seats[u].bag)
  {
    assert AllInSlot(s, t.seats[s].bag) && AllInSlot(u, t.seats[u].bag);
  }

  lemma TidyIsUnique(t: Team)
    requires Tidy(t) && DistinctBags(t)
    ensures Unique(t)
  {
    forall s, u | 0 <= s < u < SEATS ensures Apart(t.seats[s].bag, t.seats[u].bag) {
      InSlotsAreApart(t, s, u);
    }
  }

  lemma TidyStepKeepsDistinct(t: Team, m: Move)
    requires DistinctBags(t) && Legal(t, m) && ComesOrGoes(m.action)
    ensures DistinctBags(Next(t, m))
  {
    match m.action
    case Joins(bag) =>
      NumberedIsDistinct(bag, FirstId(m.slot, t.seats[m.slot].highest));
    case Renumbers =>
      NumberedIsDistinct(t.seats[m.slot].bag, FirstId(m.slot, t.seats[m.slot].highest));
    case _ =>
  }

  predicate RoomAt(t: Team, m: Move) {
    m.slot < |t.seats| && Room(ReachOf(t, m.slot), m.action)
  }

  ghost predicate AllOwn(ts: seq<Team>) {
    forall k :: 0 <= k < |ts| ==> |ts[k].seats| == SEATS && InSlots(ts[k]) && Unique(ts[k])
  }

  lemma {:induction false} TidyUpTo(ts: seq<Team>, ms: seq<Move>, i: nat)
    requires IsRun(ts, ms) && i < |ts| && forall k :: 0 <= k < |ms| ==> ComesOrGoes(ms[k].action)
    requires forall k :: 0 <= k < i ==> RoomAt(ts[k], ms[k])
    ensures Tidy(ts[i]) && DistinctBags(ts[i])
  {
    if i == 0 {
      NewTeamIsSound();
    } else {
      var before := i - 1;
      TidyUpTo(ts, ms, before);
      TidyStep(ts[before], ms[before]);
      TidyStepKeepsDistinct(ts[before], ms[before]);
    }
  }

  lemma {:induction false} RoomUpTo(ts: seq<Team>, ms: seq<Move>, i: nat)
    requires IsRun(ts, ms) && i <= |ms| && forall k :: 0 <= k < |ms| ==> ComesOrGoes(ms[k].action)
    requires AllOwn(ts)
    ensures forall k :: 0 <= k < i ==> RoomAt(ts[k], ms[k])
  {
    if i > 0 {
      var before := i - 1;
      RoomUpTo(ts, ms, before);
      TidyUpTo(ts, ms, before);
      RoomBefore(ts[before], ms[before], ts[i]);
    }
  }

  lemma RoomBefore(t: Team, m: Move, next: Team)
    requires Tidy(t) && Legal(t, m) && ComesOrGoes(m.action) && next == Next(t, m)
    requires |next.seats| == SEATS && InSlots(next)
    ensures RoomAt(t, m)
  {
    TidyStep(t, m);
  }

  /** When members only come and go, with whatever they carry, then everybody's items carry their slot, and no two
      have the same ID, all along, exactly when at every numbering the numbers of the slot suffice. */
  lemma JoinedItemsCarrySlots(ts: seq<Team>, ms: seq<Move>)
    requires IsRun(ts, ms) && forall k :: 0 <= k < |ms| ==> ComesOrGoes(ms[k].action)
    ensures AllOwn(ts) <==> forall k :: 0 <= k < |ms| ==> RoomAt(ts[k], ms[k])
  {
    if AllOwn(ts) {
      RoomUpTo(ts, ms, |ms|);
    }
    if forall k :: 0 <= k < |ms| ==> RoomAt(ts[k], ms[k]) {
      forall k | 0 <= k < |ts| ensures |ts[k].seats| == SEATS && InSlots(ts[k]) && Unique(ts[k]) {
        TidyUpTo(ts, ms, k);
        TidyIsUnique(ts[k]);
      }
    }
  }
}
