/**
  Leader election over a snapshot of a lobby's slots (src/lobby.c:889-953).
 */
module Elections {
  datatype Version = DCv1 | DCv2 | PC | GC | EP3 | BB | Xbox

  predicate PreGamecube(v: Version) {
    v == DCv1 || v == DCv2 || v == PC
  }

  /** The minimum character level of each difficulty. */
  function RequiredLevel(difficulty: nat): int {
    if difficulty == 0 then 1 else if difficulty == 1 then 20 else if difficulty == 2 then 40 else 80
  }

  /** The four difficulties, normal to ultimate. */
  lemma RequiredLevels()
    ensures RequiredLevel(0) == 1 && RequiredLevel(1) == 20 && RequiredLevel(2) == 40 && RequiredLevel(3) == 80
  {
  }

  datatype Seat = Vacant | Held(joinTime: int, version: Version)

  /** A member that can take over: not the leader, and in the lobby since before `now`. */
  predicate Eligible(seats: seq<Seat>, leader: nat, now: int, preGamecubeOnly: bool, i: int) {
    && 0 <= i < |seats| && i != leader && seats[i].Held? && seats[i].joinTime < now
    && (preGamecubeOnly ==> PreGamecube(seats[i].version))
  }

  /** Among the first `n` slots, `r` joined first, the lowest slot winning ties; -1 means nobody is eligible. */
  ghost predicate ElectedBelow(seats: seq<Seat>, leader: nat, now: int, preGamecubeOnly: bool, n: int, r: int) {
    if r == -1 then forall i :: 0 <= i < n ==> !Eligible(seats, leader, now, preGamecubeOnly, i)
    else
      && r < n && Eligible(seats, leader, now, preGamecubeOnly, r)
      && forall i :: 0 <= i < n && Eligible(seats, leader, now, preGamecubeOnly, i) ==>
           seats[r].joinTime < seats[i].joinTime || (seats[r].joinTime == seats[i].joinTime && r <= i)
  }

  ghost function ElectionFrom(seats: seq<Seat>, leader: nat, now: int, preGamecubeOnly: bool, n: nat): (r: int)
    requires n <= |seats|
    ensures ElectedBelow(seats, leader, now, preGamecubeOnly, n, r)
  {
    if n == 0 then -1
    else
      var best := ElectionFrom(seats, leader, now, preGamecubeOnly, n - 1);
      if Eligible(seats, leader, now, preGamecubeOnly, n - 1) &&
         (best == -1 || seats[n - 1].joinTime < seats[best].joinTime)
      then n - 1 else best
  }

  /** The slot the election picks, or -1. */
  ghost function Election(seats: seq<Seat>, leader: nat, now: int, preGamecubeOnly: bool): (r: int)
    ensures ElectedBelow(seats, leader, now, preGamecubeOnly, |seats|, r)
  {
    ElectionFrom(seats, leader, now, preGamecubeOnly, |seats|)
  }

  lemma ElectionIsUnique(seats: seq<Seat>, leader: nat, now: int, preGamecubeOnly: bool, r: int)
    requires ElectedBelow(seats, leader, now, preGamecubeOnly, |seats|, r)
    ensures r == Election(seats, leader, now, preGamecubeOnly)
  {
    var e := Election(seats, leader, now, preGamecubeOnly);
    if r != -1 {
      assert Eligible(seats, leader, now, preGamecubeOnly, r);
    }
    if e != -1 {
      assert Eligible(seats, leader, now, preGamecubeOnly, e);
    }
  }

  /** One turn of the election loop. */
  lemma ElectedStep(seats: seq<Seat>, leader: nat, now: int, preGamecubeOnly: bool, n: nat, r: int)
    requires n < |seats| && ElectedBelow(seats, leader, now, preGamecubeOnly, n, r)
    ensures var better := Eligible(seats, leader, now, preGamecubeOnly, n) &&
                          (r == -1 || seats[n].joinTime < seats[r].joinTime);
            ElectedBelow(seats, leader, now, preGamecubeOnly, n + 1, if better then n else r)
  {
  }

  lemma ElectedRest(seats: seq<Seat>, leader: nat, now: int, preGamecubeOnly: bool, n: nat, r: int)
    requires n <= |seats| && ElectedBelow(seats, leader, now, preGamecubeOnly, n, r)
    requires forall i :: n <= i < |seats| ==> seats[i].Vacant?
    ensures r == Election(seats, leader, now, preGamecubeOnly)
  {
    ElectionIsUnique(seats, leader, now, preGamecubeOnly, r);
  }

  /** In a cross-play team a pre-Gamecube member is preferred. */
  ghost function CrossElection(seats: seq<Seat>, leader: nat, now: int): int {
    var pre := Election(seats, leader, now, true);
    if pre != -1 then pre else Election(seats, leader, now, false)
  }

  /** Whether somebody other than the leader joined strictly before `now`. */
  ghost predicate SomeoneEarlier(seats: seq<Seat>, leader: nat, now: int) {
    exists i :: Eligible(seats, leader, now, false, i)
  }

  /** Whether one of those is a pre-Gamecube member. */
  ghost predicate SomeonePreGamecube(seats: seq<Seat>, leader: nat, now: int) {
    exists i :: Eligible(seats, leader, now, true, i)
  }

  /** The leader seat once the leader has left: the election's choice, or slot 0 when there is none. */
  ghost function SeatAfter(seats: seq<Seat>, leader: nat, now: int, cross: bool): nat {
    var r := if cross then CrossElection(seats, leader, now) else Election(seats, leader, now, false);
    if r == -1 then 0 else r
  }

  /** When the leader leaves, the new leader seat is occupied exactly when somebody else joined strictly
      earlier, or when slot 0, the fallback, happens to be held by somebody else. Whoever is elected joined first among
      those that could be; in a cross-play team those are the pre-Gamecube members, if there are any. */
  lemma DepartureKeepsLeader(seats: seq<Seat>, leader: nat, now: int, cross: bool)
    requires leader < |seats|
    ensures var s := SeatAfter(seats, leader, now, cross);
            && (s < |seats| && seats[leader := Vacant][s].Held?) <==>
               (SomeoneEarlier(seats, leader, now) || (leader != 0 && seats[0].Held?))
    ensures SomeoneEarlier(seats, leader, now) ==>
              var s, pre := SeatAfter(seats, leader, now, cross), cross && SomeonePreGamecube(seats, leader, now);
              && Eligible(seats, leader, now, pre, s)
              && forall i :: Eligible(seats, leader, now, pre, i) ==>
                   seats[s].joinTime < seats[i].joinTime || (seats[s].joinTime == seats[i].joinTime && s <= i)
  {
    var e := Election(seats, leader, now, false);
    var pre := Election(seats, leader, now, true);
    assert e != -1 ==> Eligible(seats, leader, now, false, e);
    assert pre != -1 ==> Eligible(seats, leader, now, true, pre) && Eligible(seats, leader, now, false, pre);
  }

  /** If the clock has moved on since every join, a departure never leaves a team without a leader. */
  lemma ClockAdvanceKeepsLeader(seats: seq<Seat>, leader: nat, now: int, cross: bool)
    requires leader < |seats|
    requires forall i :: 0 <= i < |seats| && seats[i].Held? ==> seats[i].joinTime < now
    requires exists i :: 0 <= i < |seats| && i != leader && seats[i].Held?
    ensures var s := SeatAfter(seats, leader, now, cross);
            s < |seats| && seats[leader := Vacant][s].Held?
  {
    var i :| 0 <= i < |seats| && i != leader && seats[i].Held?;
    assert Eligible(seats, leader, now, false, i);
    DepartureKeepsLeader(seats, leader, now, cross);
  }
}
