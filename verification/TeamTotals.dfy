/**
  How much of everything there is in a Blue Burst team, in its members' inventories and on the floor together: exactly
  when picking up, dropping and banking neither lose nor make anything (src/subcmd.c:1839-2017, 2339-2500).

  Money is counted in purses, which are not part of a team's items, so its code is left out.
 */
module TeamTotals {
  import opened ItemIds
  import opened ItemRuns
  import opened Items
  import opened TeamItems

  /** What one item adds to the total of `code`. */
  function Of(it: Item, code: nat): nat {
    if it.code == code then Weight(it) else 0
  }

  /** How much there is within a member's reach. */
  ghost function Has(r: Reach, code: nat): nat {
    Total(r.seat.bag, code) + Total(r.floor, code)
  }

  /** How much there is in a team. */
  ghost function Stock(t: Team, code: nat): nat
    requires |t.seats| == SEATS
  {
    Total(t.seats[0].bag, code) + Total(t.seats[1].bag, code) + Total(t.seats[2].bag, code)
      + Total(t.seats[3].bag, code) + Total(t.floor, code)
  }

  /** Stack counters are bytes. */
  ghost predicate Counted(a: Action) {
    match a
    case Joins(bag) => Bytes(bag)
    case Withdraws(it) => it.amount < 256
    case Finds(it) => it.amount < 256
    case _ => true
  }

  ghost predicate ReachCounted(r: Reach) {
    Bytes(r.seat.bag) && Bytes(r.floor)
  }

  ghost predicate TeamCounted(t: Team) {
    Bytes(t.floor) && forall s :: 0 <= s < |t.seats| ==> Bytes(t.seats[s].bag)
  }

  // ---------------------------------------------------------------- what comes, goes, is lost and is made

  predicate Refused(bag: seq<Item>, it: Item) {
    Added(bag, it, MAX_INVENTORY).rc == -1
  }

  function Overflow(bag: seq<Item>, it: Item): nat {
    if NoOverflow(bag, it) then 0 else 256
  }

  /** An item that is refused does not go into the inventory, and a stack counter that wraps around loses 256. */
  function Lost(bag: seq<Item>, it: Item): nat {
    if Refused(bag, it) then Weight(it) else Overflow(bag, it)
  }

  /** What comes to the team with a member, from the bank, or from the server. A withdrawal that is refused goes
      back. */
  ghost function Comes(r: Reach, a: Action, code: nat): nat {
    match a
    case Joins(bag) => Total(bag, code)
    case Withdraws(it) => if Refused(r.seat.bag, it.(id := r.counter)) then 0 else Of(it, code)
    case Finds(it) => Of(it, code)
    case _ => 0
  }

  /** What leaves it with a member, or for the bank. */
  ghost function Goes(r: Reach, a: Action, code: nat): nat {
    match a
    case Leaves => Total(r.seat.bag, code)
    case Deposits(id, amount) =>
      var i := FindId(r.seat.bag, id);
      if i == |r.seat.bag| || (!Stackable(r.seat.bag[i].code) && amount > 1) then 0
      else TakenAs(r.seat.bag, id, amount, code)
    case _ => 0
  }

  function TakenAs(bag: seq<Item>, id: nat, amount: nat, code: nat): nat {
    var i := FindId(bag, id);
    if i < |bag| && bag[i].code == code then TakenOut(bag, id, amount) else 0
  }

  /** A part of a stack is dropped. */
  predicate Parts(r: Reach, id: nat, matches: bool) {
    id != ALL && Splits(r.seat.bag, id) && matches
  }

  /** What disappears from the inventories and the floor beyond that. */
  ghost function Spent(r: Reach, a: Action, code: nat): nat {
    match a
    case DropsStack(id, amount, _, matches) =>
      if Parts(r, id, matches) then TakenAs(r.seat.bag, id, amount, code) else 0
    case PicksUp(id) =>
      var i := FindId(r.floor, id);
      if i < |r.floor| && r.floor[i].code == code then Lost(r.seat.bag, r.floor[i]) else 0
    case Withdraws(it) =>
      var got := it.(id := r.counter);
      if it.code == code && !Refused(r.seat.bag, got) then Overflow(r.seat.bag, got) else 0
    case _ => 0
  }

  /** What appears there beyond that. */
  ghost function Made(r: Reach, a: Action, code: nat): nat {
    match a
    case DropsStack(id, amount, what, matches) =>
      if Parts(r, id, matches) then Of(Parcel(what, id, amount, NextId(r.seat.highest)), code) else 0
    case _ => 0
  }

  // ---------------------------------------------------------------- the balance of one action

  lemma AddedTotal(bag: seq<Item>, it: Item, code: nat)
    requires Bytes(bag) && it.amount < 256
    ensures Bytes(Added(bag, it, MAX_INVENTORY).items)
    ensures Total(Added(bag, it, MAX_INVENTORY).items, code) + (if it.code == code then Lost(bag, it) else 0) ==
            Total(bag, code) + Of(it, code)
  {
    if !Refused(bag, it) {
      var j := FindCode(bag, it.code);
      if Merges(bag, it) {
        StackedTotal(bag, j, (bag[j].amount + it.amount) % 256, code);
      } else {
        AppendedTotal(bag, it, code);
      }
    }
  }

  lemma FloorTotal(it: Item, floor: seq<Item>, code: nat)
    ensures Total([it] + floor, code) == Of(it, code) + Total(floor, code)
  {
    assert ([it] + floor)[1..] == floor;
  }

  lemma RemovedTotal(bag: seq<Item>, id: nat, amount: nat, code: nat)
    requires Bytes(bag)
    ensures Bytes(Removed(bag, id, amount).items)
    ensures Total(Removed(bag, id, amount).items, code) + TakenAs(bag, id, amount, code) == Total(bag, code)
  {
    RemovedConserves(bag, id, amount);
  }

  lemma {:induction false} NumberedTotal(bag: seq<Item>, first: nat, code: nat)
    requires Bytes(bag)
    ensures Bytes(Numbered(bag, first)) && Total(Numbered(bag, first), code) == Total(bag, code)
  {
    if bag == [] {
      assert Numbered(bag, first) == [];
    } else {
      var n := Numbered(bag, first);
      SameTotal(bag, n, code);
    }
  }

  lemma {:induction false} SameTotal(s: seq<Item>, t: seq<Item>, code: nat)
    requires |s| == |t| && forall i :: 0 <= i < |s| ==> t[i].code == s[i].code && t[i].amount == s[i].amount
    ensures Total(s, code) == Total(t, code)
  {
    if s != [] {
      SameTotal(s[1..], t[1..], code);
    }
  }

  lemma DropItemBalances(r: Reach, id: nat, code: nat)
    requires ReachCounted(r)
    ensures ReachCounted(DropItem(r, id)) && Has(DropItem(r, id), code) == Has(r, code)
  {
    var i := FindId(r.seat.bag, id);
    if i < |r.seat.bag| {
      RemovedTotal(r.seat.bag, id, ALL, code);
      FloorTotal(r.seat.bag[i], r.floor, code);
    }
  }

  lemma DropStackBalances(r: Reach, id: nat, amount: nat, what: Item, matches: bool, code: nat)
    requires ReachCounted(r) && code != MESETA
    ensures var a, after := DropsStack(id, amount, what, matches), DropStack(r, id, amount, what, matches);
            ReachCounted(after) && Has(after, code) + Spent(r, a, code) == Has(r, code) + Made(r, a, code)
  {
    if Splits(r.seat.bag, id) && matches {
      FloorTotal(Parcel(what, id, amount, NextId(r.seat.highest)), r.floor, code);
      if id != ALL {
        RemovedTotal(r.seat.bag, id, amount, code);
      }
    }
  }

  lemma PickUpBalances(r: Reach, id: nat, code: nat)
    requires ReachCounted(r) && code != MESETA
    ensures ReachCounted(PickUp(r, id))
    ensures Has(PickUp(r, id), code) + Spent(r, PicksUp(id), code) == Has(r, code)
  {
    var i := FindId(r.floor, id);
    if i < |r.floor| {
      TotalWithout(r.floor, i, code);
      TotalOne(r.floor[i], code);
      AddedTotal(r.seat.bag, r.floor[i], code);
    }
  }

  lemma WithdrawBalances(r: Reach, it: Item, code: nat)
    requires ReachCounted(r) && it.amount < 256
    ensures ReachCounted(Withdraw(r, it))
    ensures Has(Withdraw(r, it), code) + Spent(r, Withdraws(it), code) == Has(r, code) + Comes(r, Withdraws(it), code)
  {
    AddedTotal(r.seat.bag, it.(id := r.counter), code);
  }

  /** What an action does to the total of anything but money. */
  lemma ActBalances(slot: nat, r: Reach, a: Action, code: nat)
    requires slot < SEATS && GoodReach(r) && Possible(r.seat, a) && ReachCounted(r) && Counted(a) && code != MESETA
    ensures ReachCounted(Act(slot, r, a))
    ensures Has(Act(slot, r, a), code) + Goes(r, a, code) + Spent(r, a, code) ==
            Has(r, code) + Comes(r, a, code) + Made(r, a, code)
  {
    match a
    case Joins(bag) => NumberedTotal(bag, FirstId(slot, r.seat.highest), code);
    case Renumbers => NumberedTotal(r.seat.bag, FirstId(slot, r.seat.highest), code);
    case Leaves =>
    case DropsItem(id) => DropItemBalances(r, id, code);
    case DropsStack(id, amount, what, matches) => DropStackBalances(r, id, amount, what, matches, code);
    case PicksUp(id) => PickUpBalances(r, id, code);
    case Deposits(id, amount) => RemovedTotal(r.seat.bag, id, amount, code);
    case Withdraws(it) => WithdrawBalances(r, it, code);
    case Finds(it) => FloorTotal(it.(id := r.counter), r.floor, code);
  }

  // ---------------------------------------------------------------- when nothing is lost or made

  /** Nothing that is picked up is refused or overflows a stack, nothing withdrawn overflows one, and what is dropped of
      a stack is what is taken off it. */
  predicate Even(r: Reach, a: Action) {
    match a
    case DropsStack(id, amount, what, matches) =>
      Parts(r, id, matches) ==> SameWorth(r.seat.bag, id, amount, Parcel(what, id, amount, NextId(r.seat.highest)))
    case PicksUp(id) =>
      var i := FindId(r.floor, id);
      i < |r.floor| && r.floor[i].code != MESETA ==> Lost(r.seat.bag, r.floor[i]) == 0
    case Withdraws(it) =>
      var got := it.(id := r.counter);
      it.code != MESETA && !Refused(r.seat.bag, got) ==> NoOverflow(r.seat.bag, got)
    case _ => true
  }

  /** The parcel is worth what is taken out. */
  predicate SameWorth(bag: seq<Item>, id: nat, amount: nat, parcel: Item) {
    var i := FindId(bag, id);
    i < |bag| ==>
      if parcel.code == bag[i].code then parcel.code == MESETA || Weight(parcel) == TakenOut(bag, id, amount)
      else (parcel.code == MESETA || Weight(parcel) == 0) && (bag[i].code == MESETA || TakenOut(bag, id, amount) == 0)
  }

  lemma EvenExactly(r: Reach, a: Action)
    ensures Even(r, a) <==> forall code :: code != MESETA ==> Made(r, a, code) == Spent(r, a, code)
  {
    match a
    case DropsStack(id, amount, what, matches) =>
      var i, parcel := FindId(r.seat.bag, id), Parcel(what, id, amount, NextId(r.seat.highest));
      if Parts(r, id, matches) && !Even(r, a) {
        var code := if parcel.code != MESETA && (parcel.code == r.seat.bag[i].code || Weight(parcel) != 0)
                    then parcel.code else r.seat.bag[i].code;
        assert Made(r, a, code) != Spent(r, a, code);
      }
    case PicksUp(id) =>
      var i := FindId(r.floor, id);
      if i < |r.floor| { assert Made(r, a, r.floor[i].code) == 0; }
    case Withdraws(it) =>
      assert Made(r, a, it.code) == 0;
    case _ =>
  }

  // ---------------------------------------------------------------- the team

  /** What the others carry. */
  ghost function OthersHold(t: Team, slot: nat, code: nat): nat
    requires |t.seats| == SEATS
  {
    (if slot == 0 then 0 else Total(t.seats[0].bag, code)) + (if slot == 1 then 0 else Total(t.seats[1].bag, code))
      + (if slot == 2 then 0 else Total(t.seats[2].bag, code)) + (if slot == 3 then 0 else Total(t.seats[3].bag, code))
  }

  lemma StockIsReachAndOthers(t: Team, slot: nat, code: nat)
    requires slot < |t.seats| == SEATS
    ensures Stock(t, code) == OthersHold(t, slot, code) + Has(ReachOf(t, slot), code)
  {
  }

  lemma StockAfter(t: Team, slot: nat, r: Reach, code: nat)
    requires slot < |t.seats| == SEATS
    ensures Stock(WithReach(t, slot, r), code) == OthersHold(t, slot, code) + Has(r, code)
  {
    StockIsReachAndOthers(WithReach(t, slot, r), slot, code);
    assert forall s :: 0 <= s < SEATS && s != slot ==> WithReach(t, slot, r).seats[s] == t.seats[s];
  }

  lemma StepBalances(t: Team, m: Move, code: nat)
    requires Legal(t, m) && TeamCounted(t) && Counted(m.action) && code != MESETA
    ensures var r := ReachOf(t, m.slot);
            Stock(Next(t, m), code) + Goes(r, m.action, code) + Spent(r, m.action, code) ==
            Stock(t, code) + Comes(r, m.action, code) + Made(r, m.action, code)
  {
    var r := ReachOf(t, m.slot);
    StockIsReachAndOthers(t, m.slot, code);
    ActBalances(m.slot, r, m.action, code);
    StockAfter(t, m.slot, Act(m.slot, r, m.action), code);
  }

  lemma StepKeepsCounted(t: Team, m: Move)
    requires Legal(t, m) && TeamCounted(t) && Counted(m.action)
    ensures TeamCounted(Next(t, m))
  {
    ActBalances(m.slot, ReachOf(t, m.slot), m.action, 0);
  }

  // ---------------------------------------------------------------- runs

  ghost predicate CountedRun(ts: seq<Team>, ms: seq<Move>) {
    IsRun(ts, ms) && forall i :: 0 <= i < |ms| ==> Counted(ms[i].action)
  }

  /** What the first `n` actions have brought to the team. */
  ghost function Brought(ts: seq<Team>, ms: seq<Move>, n: nat, code: nat): nat
    requires IsRun(ts, ms) && n <= |ms|
  {
    if n == 0 then 0
    else Brought(ts, ms, n - 1, code) + Comes(ReachOf(ts[n - 1], ms[n - 1].slot), ms[n - 1].action, code)
  }

  /** What they have taken away from it. */
  ghost function Carried(ts: seq<Team>, ms: seq<Move>, n: nat, code: nat): nat
    requires IsRun(ts, ms) && n <= |ms|
  {
    if n == 0 then 0
    else Carried(ts, ms, n - 1, code) + Goes(ReachOf(ts[n - 1], ms[n - 1].slot), ms[n - 1].action, code)
  }

  /** What there is in the team is what was brought and not taken away. */
  ghost predicate Balanced(ts: seq<Team>, ms: seq<Move>, n: nat)
    requires IsRun(ts, ms) && n <= |ms|
  {
    |ts[n].seats| == SEATS &&
    forall code: nat :: code != MESETA ==>
      Stock(ts[n], code) + Carried(ts, ms, n, code) == Brought(ts, ms, n, code)
  }

  lemma {:induction false} RunIsCounted(ts: seq<Team>, ms: seq<Move>, n: nat)
    requires CountedRun(ts, ms) && n <= |ms|
    ensures TeamCounted(ts[n]) && |ts[n].seats| == SEATS
  {
    if n > 0 {
      var k := n - 1;
      RunIsCounted(ts, ms, k);
      assert Legal(ts[k], ms[k]);
      StepKeepsCounted(ts[k], ms[k]);
    }
  }

  /** From a balanced state an action leads to a balanced one exactly if it is even. */
  lemma StepStaysBalanced(ts: seq<Team>, ms: seq<Move>, n: nat)
    requires CountedRun(ts, ms) && n < |ms| && Balanced(ts, ms, n)
    ensures Legal(ts[n], ms[n])
    ensures Balanced(ts, ms, n + 1) <==> Even(ReachOf(ts[n], ms[n].slot), ms[n].action)
  {
    var next, r, a := n + 1, ReachOf(ts[n], ms[n].slot), ms[n].action;
    assert Legal(ts[n], ms[n]) && ts[next] == Next(ts[n], ms[n]);
    RunIsCounted(ts, ms, n);
    forall code: nat | code != MESETA
      ensures Stock(ts[next], code) + Carried(ts, ms, next, code) == Brought(ts, ms, next, code) <==>
                Made(r, a, code) == Spent(r, a, code)
    {
      StepBalances(ts[n], ms[n], code);
    }
    EvenExactly(r, a);
  }

  lemma NewTeamIsBalanced(ts: seq<Team>, ms: seq<Move>)
    requires IsRun(ts, ms)
    ensures Balanced(ts, ms, 0)
  {
  }

  lemma {:induction false} BalancedUpTo(ts: seq<Team>, ms: seq<Move>, n: nat)
    requires CountedRun(ts, ms) && n <= |ms|
    requires forall i :: 0 <= i < |ms| ==> Legal(ts[i], ms[i]) && Even(ReachOf(ts[i], ms[i].slot), ms[i].action)
    ensures Balanced(ts, ms, n)
  {
    if n == 0 {
      NewTeamIsBalanced(ts, ms);
    } else {
      var k := n - 1;
      BalancedUpTo(ts, ms, k);
      StepStaysBalanced(ts, ms, k);
    }
  }

  ghost predicate AlwaysBalanced(ts: seq<Team>, ms: seq<Move>)
    requires IsRun(ts, ms)
  {
    forall n :: 0 <= n <= |ms| ==> Balanced(ts, ms, n)
  }

  /** In every run, all along, there is of everything but money as much in inventories and on the floor as was brought
      to the team and not taken away, exactly when every action is even. */
  lemma RunsConserveTotals(ts: seq<Team>, ms: seq<Move>)
    requires CountedRun(ts, ms)
    ensures forall i :: 0 <= i < |ms| ==> Legal(ts[i], ms[i])
    ensures AlwaysBalanced(ts, ms) <==>
              forall i :: 0 <= i < |ms| ==> Even(ReachOf(ts[i], ms[i].slot), ms[i].action)
  {
    if AlwaysBalanced(ts, ms) {
      forall i | 0 <= i < |ms| ensures Even(ReachOf(ts[i], ms[i].slot), ms[i].action) {
        var next := i + 1;
        assert Balanced(ts, ms, i) && Balanced(ts, ms, next);
        StepStaysBalanced(ts, ms, i);
      }
    }
    if forall i :: 0 <= i < |ms| ==> Even(ReachOf(ts[i], ms[i].slot), ms[i].action) {
      forall n | 0 <= n <= |ms| ensures Balanced(ts, ms, n) {
        BalancedUpTo(ts, ms, n);
      }
    }
  }

  /** The input that loses an item: somebody with full hands picks up what the server has dropped. */
  lemma FullHandsLose(slot: nat, bag: seq<Item>, it: Item) returns (ts: seq<Team>, ms: seq<Move>)
    requires slot < SEATS && |bag| == MAX_INVENTORY && Bytes(bag)
    requires it.code != MESETA && 0 < Weight(it) && it.amount < 256
    ensures CountedRun(ts, ms) && !AlwaysBalanced(ts, ms)
  {
    var joins, finds, picks := Move(slot, Joins(bag)), Move(slot, Finds(it)), Move(slot, PicksUp(FLOOR_START));
    var t0 := NewTeam();
    var t1 := Next(t0, joins);
    var t2 := Next(t1, finds);
    StepKeepsWf(t0, slot, joins.action);
    StepKeepsWf(t1, slot, finds.action);
    ts, ms := [t0, t1, t2, Next(t2, picks)], [joins, finds, picks];
    var r := ReachOf(t2, slot);
    assert r.floor == [it.(id := FLOOR_START)] && FindId(r.floor, FLOOR_START) == 0 && |r.seat.bag| == MAX_INVENTORY;
    assert !Even(ReachOf(ts[2], ms[2].slot), ms[2].action);
    RunsConserveTotals(ts, ms);
  }
}
