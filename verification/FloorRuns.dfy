/**
  Exactly when the items on the floor of a Blue Burst team are told apart from those its members carry.
 */
module FloorRuns {
  import opened ItemIds
  import opened ItemRuns
  import opened Items
  import opened TeamItems

  /** Nothing on the floor has an ID that somebody carries. */
  ghost predicate FloorApart(t: Team) {
    forall s :: 0 <= s < |t.seats| ==> Apart(t.seats[s].bag, t.floor)
  }

  /** The IDs an action puts on the floor. A member's drop is one of the member's own. */
  function Lands(r: Reach, a: Action): seq<nat> {
    match a
    case DropsItem(id) => if FindId(r.seat.bag, id) < |r.seat.bag| then [id] else []
    case DropsStack(id, _, _, matches) => if Splits(r.seat.bag, id) && matches then [NextId(r.seat.highest)] else []
    case Finds(_) => [r.counter]
    case _ => []
  }

  /** The item found on the floor goes into the inventory, and not onto a stack or to the purse. */
  predicate GoesIn(r: Reach, id: nat) {
    var i := FindId(r.floor, id);
    i < |r.floor| && r.floor[i].code != MESETA && Added(r.seat.bag, r.floor[i], MAX_INVENTORY).rc == 1
  }

  /** The IDs an action puts into the member's inventory. */
  function Enters(slot: nat, r: Reach, a: Action): seq<nat>
    requires slot < SEATS && r.seat.highest < WORD
  {
    match a
    case Joins(bag) => Range(FirstId(slot, r.seat.highest), |bag|)
    case Renumbers => Range(FirstId(slot, r.seat.highest), |r.seat.bag|)
    case PicksUp(id) => if GoesIn(r, id) then [id] else []
    case Withdraws(it) =>
      if Added(r.seat.bag, it.(id := r.counter), MAX_INVENTORY).rc == 1 then [r.counter] else []
    case _ => []
  }

  /** The IDs the member goes on carrying when the action puts something on the floor. */
  function StaysCarried(r: Reach, a: Action): multiset<nat> {
    match a
    case DropsItem(id) => IdBag(r.seat.bag) - multiset{id}
    case DropsStack(id, amount, _, _) => IdBag(LeftOver(r.seat.bag, id, amount))
    case _ => IdBag(r.seat.bag)
  }

  /** The IDs that go on lying on the floor when the action puts something into the inventory. */
  function StaysLying(r: Reach, a: Action): multiset<nat> {
    match a
    case PicksUp(id) => IdBag(r.floor) - multiset{id}
    case _ => IdBag(r.floor)
  }

  ghost predicate Hits(ids: seq<nat>, around: multiset<nat>) {
    exists id :: id in ids && id in around
  }

  /** An ID is put on the floor that somebody goes on carrying, or taken up that goes on lying there. */
  ghost predicate Meets(others: multiset<nat>, slot: nat, r: Reach, a: Action)
    requires slot < SEATS && r.seat.highest < WORD
  {
    Hits(Lands(r, a), others + StaysCarried(r, a)) || Hits(Enters(slot, r, a), StaysLying(r, a))
  }

  /** What can be seen before the action: it makes an ID on the floor meet one that is carried. */
  ghost predicate Crosses(t: Team, m: Move)
    requires Legal(t, m)
  {
    Meets(Others(t, m.slot), m.slot, ReachOf(t, m.slot), m.action)
  }

  lemma CarriedAfterLanding(slot: nat, r: Reach, a: Action)
    requires slot < SEATS && r.seat.highest < WORD && |Lands(r, a)| > 0
    ensures IdBag(Act(slot, r, a).seat.bag) == StaysCarried(r, a)
  {
    match a
    case DropsItem(id) =>
      IdsOfRemoved(r.seat.bag, id, ALL);
    case _ =>
  }

  lemma LyingAfterEntering(slot: nat, r: Reach, a: Action)
    requires slot < SEATS && r.seat.highest < WORD && |Enters(slot, r, a)| > 0
    ensures IdBag(Act(slot, r, a).floor) == StaysLying(r, a)
  {
    match a
    case PicksUp(id) =>
      IdsOfSplit(r.floor, FindId(r.floor, id));
    case _ =>
  }

  function Carried(t: Team): multiset<nat>
    requires |t.seats| == SEATS
  {
    IdBag(t.seats[0].bag) + IdBag(t.seats[1].bag) + IdBag(t.seats[2].bag) + IdBag(t.seats[3].bag)
  }

  lemma FloorApartIsDisjoint(t: Team)
    requires |t.seats| == SEATS
    ensures FloorApart(t) <==> Carried(t) !! IdBag(t.floor)
  {
    var f := IdBag(t.floor);
    var b0, b1, b2 := IdBag(t.seats[0].bag), IdBag(t.seats[1].bag), IdBag(t.seats[2].bag);
    forall s | 0 <= s < SEATS ensures Apart(t.seats[s].bag, t.floor) <==> IdBag(t.seats[s].bag) !! f {
      ApartIsDisjoint(t.seats[s].bag, t.floor);
    }
    SumDisjoint(b0 + b1 + b2, IdBag(t.seats[3].bag), f);
    SumDisjoint(b0 + b1, b2, f);
    SumDisjoint(b0, b1, f);
    assert FloorApart(t) <==>
        && Apart(t.seats[0].bag, t.floor) && Apart(t.seats[1].bag, t.floor)
        && Apart(t.seats[2].bag, t.floor) && Apart(t.seats[3].bag, t.floor);
  }

  lemma CarriedIsOwnAndOthers(t: Team, slot: nat)
    requires slot < |t.seats| == SEATS
    ensures Carried(t) == Others(t, slot) + IdBag(t.seats[slot].bag)
  {
  }

  /** What is on the floor afterwards was there, or landed. */
  lemma FloorFrom(slot: nat, r: Reach, a: Action, id: nat)
    requires slot < SEATS && GoodReach(r) && Possible(r.seat, a)
    ensures id in IdBag(Act(slot, r, a).floor) ==> id in IdBag(r.floor) || id in Lands(r, a)
    ensures id in Lands(r, a) ==> id in IdBag(Act(slot, r, a).floor)
  {
    match a
    case DropsItem(i) =>
      FloorFromLanding(r.floor, r.seat.bag, i, id);
    case DropsStack(i, amount, what, _) =>
      FloorFromOne(r.floor, Parcel(what, i, amount, NextId(r.seat.highest)), id);
    case PicksUp(i) =>
      if FindId(r.floor, i) < |r.floor| {
        IdsOfSplit(r.floor, FindId(r.floor, i));
      }
    case Finds(it) =>
      FloorFromOne(r.floor, it.(id := r.counter), id);
    case _ =>
  }

  lemma FloorFromOne(floor: seq<Item>, it: Item, id: nat)
    ensures id in IdBag([it] + floor) <==> id in IdBag(floor) || id == it.id
  {
    IdsOfConcat([it], floor);
    IdsOfOne(it);
  }

  lemma FloorFromLanding(floor: seq<Item>, bag: seq<Item>, i: nat, id: nat)
    ensures var k := FindId(bag, i);
            k < |bag| ==> (id in IdBag([bag[k]] + floor) <==> id in IdBag(floor) || id == i)
  {
    var k := FindId(bag, i);
    if k < |bag| {
      FloorFromOne(floor, bag[k], id);
    }
  }

  lemma BagFromPickUp(r: Reach, id: nat)
    ensures IdBag(PickUp(r, id).seat.bag) == IdBag(r.seat.bag) + if GoesIn(r, id) then multiset{id} else multiset{}
  {
    var i := FindId(r.floor, id);
    if i < |r.floor| {
      IdsOfAdded(r.seat.bag, r.floor[i], MAX_INVENTORY);
    }
  }

  lemma BagFromWithdrawal(r: Reach, it: Item)
    ensures var rc := Added(r.seat.bag, it.(id := r.counter), MAX_INVENTORY).rc;
            IdBag(Withdraw(r, it).seat.bag) ==
            IdBag(r.seat.bag) + if rc == 1 then multiset{r.counter} else multiset{}
  {
    IdsOfAdded(r.seat.bag, it.(id := r.counter), MAX_INVENTORY);
  }

  lemma BagFromSettling(slot: nat, highest: nat, bag: seq<Item>, id: nat)
    requires slot < SEATS && highest < WORD
    ensures id in IdBag(Settled(slot, highest, bag).bag) <==> id in Range(FirstId(slot, highest), |bag|)
  {
    GivenBySettling(slot, highest, bag);
  }

  /** What is in the inventory afterwards was there, or entered. */
  lemma BagFrom(slot: nat, r: Reach, a: Action, id: nat)
    requires slot < SEATS && GoodReach(r) && Possible(r.seat, a)
    ensures id in IdBag(Act(slot, r, a).seat.bag) ==> id in IdBag(r.seat.bag) || id in Enters(slot, r, a)
    ensures id in Enters(slot, r, a) ==> id in IdBag(Act(slot, r, a).seat.bag)
  {
    match a
    case Joins(bag) =>
      BagFromSettling(slot, r.seat.highest, bag, id);
    case Renumbers =>
      BagFromSettling(slot, r.seat.highest, r.seat.bag, id);
    case Leaves =>
      assert Ids([]) == [];
    case DropsItem(i) =>
      IdsOfRemoved(r.seat.bag, i, ALL);
    case DropsStack(i, amount, _, _) =>
      IdsOfRemoved(r.seat.bag, i, amount);
    case PicksUp(i) =>
      BagFromPickUp(r, i);
    case Deposits(i, amount) =>
      IdsOfRemoved(r.seat.bag, i, amount);
    case Withdraws(it) =>
      BagFromWithdrawal(r, it);
    case Finds(_) =>
  }

  lemma FloorApartWith(t: Team, slot: nat, r: Reach)
    requires slot < |t.seats| == SEATS
    ensures FloorApart(WithReach(t, slot, r)) <==> Others(t, slot) + IdBag(r.seat.bag) !! IdBag(r.floor)
  {
    FloorApartIsDisjoint(WithReach(t, slot, r));
    CarriedIsOwnAndOthers(WithReach(t, slot, r), slot);
    OthersStay(t, slot, r);
  }

  lemma FloorApartHere(t: Team, slot: nat)
    requires slot < |t.seats| == SEATS
    ensures FloorApart(t) <==> Others(t, slot) + IdBag(t.seats[slot].bag) !! IdBag(t.floor)
  {
    FloorApartIsDisjoint(t);
    CarriedIsOwnAndOthers(t, slot);
  }

  /** If floor and inventories are apart, they are apart afterwards exactly when the action does not cross. */
  lemma StepKeepsFloorApart(t: Team, m: Move)
    requires Legal(t, m) && FloorApart(t)
    ensures Wf(Next(t, m)) && (FloorApart(Next(t, m)) <==> !Crosses(t, m))
  {
    var r := ReachOf(t, m.slot);
    StepKeepsWf(t, m.slot, m.action);
    FloorApartHere(t, m.slot);
    FloorApartWith(t, m.slot, Act(m.slot, r, m.action));
    CrossingExactly(Others(t, m.slot), m.slot, r, m.action);
  }

  lemma CrossingExactly(others: multiset<nat>, slot: nat, r: Reach, a: Action)
    requires slot < SEATS && GoodReach(r) && Possible(r.seat, a)
    requires others + IdBag(r.seat.bag) !! IdBag(r.floor)
    ensures var after := Act(slot, r, a);
            others + IdBag(after.seat.bag) !! IdBag(after.floor) <==> !Meets(others, slot, r, a)
  {
    var after := Act(slot, r, a);
    forall id
      ensures id in IdBag(after.floor) ==> id in IdBag(r.floor) || id in Lands(r, a)
      ensures id in Lands(r, a) ==> id in IdBag(after.floor)
    {
      FloorFrom(slot, r, a, id);
    }
    forall id
      ensures id in IdBag(after.seat.bag) ==> id in IdBag(r.seat.bag) || id in Enters(slot, r, a)
      ensures id in Enters(slot, r, a) ==> id in IdBag(after.seat.bag)
    {
      BagFrom(slot, r, a, id);
    }
    DisjointAfter(others, IdBag(r.seat.bag), IdBag(r.floor), IdBag(after.seat.bag), IdBag(after.floor),
                  Lands(r, a), Enters(slot, r, a));
    MeetsBefore(others, slot, r, a, after);
  }

  /** Meeting as seen before the action is meeting as seen after it. */
  lemma MeetsBefore(others: multiset<nat>, slot: nat, r: Reach, a: Action, after: Reach)
    requires slot < SEATS && r.seat.highest < WORD && after == Act(slot, r, a)
    ensures Hits(Lands(r, a), others + StaysCarried(r, a)) <==> Hits(Lands(r, a), others + IdBag(after.seat.bag))
    ensures Hits(Enters(slot, r, a), StaysLying(r, a)) <==> Hits(Enters(slot, r, a), IdBag(after.floor))
  {
    if |Lands(r, a)| > 0 {
      CarriedAfterLanding(slot, r, a);
    } else {
      NoneHit(others + StaysCarried(r, a));
      NoneHit(others + IdBag(after.seat.bag));
    }
    if |Enters(slot, r, a)| > 0 {
      LyingAfterEntering(slot, r, a);
    } else {
      NoneHit(StaysLying(r, a));
      NoneHit(IdBag(after.floor));
    }
  }

  lemma NoneHit(around: multiset<nat>)
    ensures !Hits([], around)
  {
  }

  lemma DisjointAfter(others: multiset<nat>, bag: multiset<nat>, floor: multiset<nat>, bagAfter: multiset<nat>,
                      floorAfter: multiset<nat>, lands: seq<nat>, enters: seq<nat>)
    requires others + bag !! floor
    requires forall id :: id in floorAfter ==> id in floor || id in lands
    requires forall id :: id in lands ==> id in floorAfter
    requires forall id :: id in bagAfter ==> id in bag || id in enters
    requires forall id :: id in enters ==> id in bagAfter
    ensures others + bagAfter !! floorAfter <==> !Hits(lands, others + bagAfter) && !Hits(enters, floorAfter)
  {
  }

  ghost predicate AlwaysApart(ts: seq<Team>) {
    forall i :: 0 <= i < |ts| ==> FloorApart(ts[i])
  }

  lemma {:induction false} ApartUpTo(ts: seq<Team>, ms: seq<Move>, i: nat)
    requires IsRun(ts, ms) && i < |ts|
    requires forall k :: 0 <= k < i ==> !Crosses(ts[k], ms[k])
    ensures FloorApart(ts[i])
  {
    if i > 0 {
      var before := i - 1;
      ApartUpTo(ts, ms, before);
      StepKeepsFloorApart(ts[before], ms[before]);
    }
  }

  /** In every run floor and inventories are apart all along exactly when no action crosses. */
  lemma FloorIsApart(ts: seq<Team>, ms: seq<Move>)
    requires IsRun(ts, ms)
    ensures AlwaysApart(ts) <==> forall i :: 0 <= i < |ms| ==> !Crosses(ts[i], ms[i])
  {
    if AlwaysApart(ts) {
      forall i | 0 <= i < |ms| ensures !Crosses(ts[i], ms[i]) {
        var next := i + 1;
        assert FloorApart(ts[i]) && FloorApart(ts[next]);
        StepKeepsFloorApart(ts[i], ms[i]);
      }
    }
    if forall i :: 0 <= i < |ms| ==> !Crosses(ts[i], ms[i]) {
      forall i | 0 <= i < |ts| ensures FloorApart(ts[i]) {
        ApartUpTo(ts, ms, i);
      }
    }
  }

  /** A tame run whose numberings never begin with an ID that is still around keeps them apart. */
  lemma TameRunsKeepFloorApart(ts: seq<Team>, ms: seq<Move>)
    requires IsRun(ts, ms) && forall i :: 0 <= i < |ms| ==> Tame(ts[i], ms[i]) && !Repeats(ts[i], ms[i])
    ensures AlwaysApart(ts)
  {
    IdsAreUniqueUnlessLastRepeats(ts, ms);
  }

  /** After a visit that leaves an item behind, the next member of the slot comes to carry the ID that lies on the
      floor. */
  lemma NewcomerCrosses(slot: nat, a: Item, b: Item)
    requires slot < SEATS
    ensures var ts, m := Visited(slot, a), Move(slot, Joins([b]));
            && IsRun(ts, Visit(slot, a)) && AlwaysApart(ts) && Legal(ts[3], m)
            && Crosses(ts[3], m) && !FloorApart(Next(ts[3], m))
  {
    var ts, m := Visited(slot, a), Move(slot, Joins([b]));
    NewcomerRepeatsId(slot, a, b);
    StillApart(slot, a);
    NowTogether(slot, LeftBehind(slot, a), b.(id := FreshId(slot)));
    StepKeepsFloorApart(ts[3], m);
  }

  lemma StillApart(slot: nat, a: Item)
    requires slot < SEATS
    ensures AlwaysApart(Visited(slot, a))
  {
    var ts := Visited(slot, a);
    assert FloorApart(ts[0]) && FloorApart(ts[1]) && FloorApart(ts[2]) && FloorApart(ts[3]);
  }

  lemma NowTogether(slot: nat, it: Item, b: Item)
    requires slot < SEATS && it.id == b.id
    ensures !FloorApart(Alone(slot, Seat(it.id, true, [b]), [it]))
  {
    var t := Alone(slot, Seat(it.id, true, [b]), [it]);
    assert t.seats[slot].bag[0].id == t.floor[0].id;
    assert !Apart(t.seats[slot].bag, t.floor);
  }
}
