/**
  Choosing the ID of a new team (src/lobby.c:255-276, 500-510).
 */
module TeamIds {
  const FIRST_TEAM_ID := 0x20
  const LAST_TEAM_ID := 0xFFFF

  predicate InRange(id: nat) {
    FIRST_TEAM_ID <= id <= LAST_TEAM_ID
  }

  ghost predicate HasFree(used: set<nat>) {
    exists id: nat :: InRange(id) && id !in used
  }

  function After(id: nat): nat {
    if id + 1 > LAST_TEAM_ID then FIRST_TEAM_ID else id + 1
  }

  /** How many steps of cyclic probing lead from one ID to another. */
  function Gap(from: nat, to: nat): nat
    requires InRange(from) && InRange(to)
  {
    if from <= to then to - from else LAST_TEAM_ID - from + 1 + (to - FIRST_TEAM_ID)
  }

  /** `id` is unused and every ID probed before it is in use. */
  ghost predicate IsNextFree(used: set<nat>, from: nat, id: nat) {
    && InRange(from) && InRange(id) && id !in used
    && forall k: nat :: InRange(k) && Gap(from, k) < Gap(from, id) ==> k in used
  }

  lemma NextFreeIsUnique(used: set<nat>, from: nat, id: nat, other: nat)
    requires IsNextFree(used, from, id) && IsNextFree(used, from, other)
    ensures id == other
  {
    assert !(Gap(from, id) < Gap(from, other)) && !(Gap(from, other) < Gap(from, id));
  }

  /** The team IDs from `lo` up to, but not including, `hi`. */
  ghost function IdsBetween(lo: nat, hi: nat): (ids: set<nat>)
    requires lo <= hi
    ensures |ids| == hi - lo && forall i: nat :: i in ids <==> lo <= i < hi
    decreases hi - lo
  {
    if lo == hi then {} else {lo} + IdsBetween(lo + 1, hi)
  }

  lemma {:induction false} SubsetSize<T>(a: set<T>, b: set<T>)
    requires a <= b
    ensures |a| <= |b|
  {
    if a != {} {
      var x :| x in a;
      SubsetSize(a - {x}, b - {x});
    }
  }

  /** Pigeonhole: with fewer than 0xFFE0 IDs in use one is free. */
  lemma FewTeamsLeaveFreeId(used: set<nat>)
    requires |used| < 0xFFE0
    ensures HasFree(used)
  {
    if !HasFree(used) {
      var range := IdsBetween(FIRST_TEAM_ID, LAST_TEAM_ID + 1);
      assert range <= used;
      SubsetSize(range, used);
    }
  }

  /** The probing loop. It ends because it gets closer, cyclically, to some free ID. */
  method AllocateId(used: set<nat>, start: nat) returns (id: nat, next: nat)
    requires InRange(start) && HasFree(used)
    ensures IsNextFree(used, start, id) && id == NextFree(used, start)
    ensures next == After(id)
  {
    id := start;
    ghost var free: nat :| InRange(free) && free !in used;
    while id in used
      invariant InRange(id)
      invariant Gap(start, id) + Gap(id, free) == Gap(start, free)
      invariant forall k: nat :: InRange(k) && Gap(start, k) < Gap(start, id) ==> k in used
      decreases Gap(id, free)
    {
      id := id + 1;
      if id > LAST_TEAM_ID {
        id := FIRST_TEAM_ID;
      }
    }
    NextFreeIsUnique(used, start, id, NextFree(used, start));
    if id != LAST_TEAM_ID {
      next := id + 1;
    } else {
      next := FIRST_TEAM_ID;
    }
  }

  ghost function NextFree(used: set<nat>, start: nat): (id: nat)
    requires InRange(start) && HasFree(used)
    ensures IsNextFree(used, start, id)
  {
    NextFreeExists(used, start);
    var id: nat :| IsNextFree(used, start, id);
    id
  }

  lemma {:induction false} NextFreeExists(used: set<nat>, start: nat)
    requires InRange(start) && HasFree(used)
    ensures exists id: nat :: IsNextFree(used, start, id)
  {
    var free: nat :| InRange(free) && free !in used;
    ClosestFree(used, start, free);
  }

  lemma {:induction false} ClosestFree(used: set<nat>, start: nat, free: nat)
    requires InRange(start) && InRange(free) && free !in used
    ensures exists id: nat :: IsNextFree(used, start, id)
    decreases Gap(start, free)
  {
    if k: nat :| InRange(k) && Gap(start, k) < Gap(start, free) && k !in used {
      ClosestFree(used, start, k);
    } else {
      assert IsNextFree(used, start, free);
    }
  }

  /** The ID found is the first unused one from `start` upwards, or, if there is none up to 0xFFFF, the first from 0x20
      upwards. */
  lemma ProbesUpwards(used: set<nat>, start: nat)
    requires InRange(start) && HasFree(used)
    ensures var id := NextFree(used, start);
            && id !in used
            && if start <= id then id <= 0xFFFF && forall k: nat :: start <= k < id ==> k in used
               else 0x20 <= id && (forall k: nat :: start <= k <= 0xFFFF ==> k in used) &&
                    forall k: nat :: 0x20 <= k < id ==> k in used
  {
    var id := NextFree(used, start);
    forall k: nat | InRange(k) && if start <= id then start <= k < id else start <= k || k < id ensures k in used {
      assert Gap(start, k) < Gap(start, id);
    }
  }

  /** The search goes on behind the ID just given, and from the first again behind the last. */
  lemma GoesOnBehind(id: nat)
    requires InRange(id)
    ensures InRange(After(id)) && if id == 0xFFFF then After(id) == 0x20 else After(id) == id + 1
  {
  }

  // ---------------------------------------------------------------- Episode 3

  /** Episode 3 teams simply take the lowest unused ID from 0x21 up. */
  ghost predicate IsEp3Id(used: set<nat>, id: nat) {
    0x21 <= id && id !in used && forall k: nat :: 0x21 <= k < id ==> k in used
  }

  method AllocateEp3Id(used: set<nat>) returns (id: nat)
    ensures IsEp3Id(used, id)
  {
    id := 0x21;
    ghost var left := used;
    while id in used
      invariant 0x21 <= id && forall k: nat :: 0x21 <= k < id ==> k in used
      invariant forall k <- used :: id <= k ==> k in left
      decreases |left|
    {
      left := left - {id};
      id := id + 1;
    }
  }

  ghost function Ep3Id(used: set<nat>): (id: nat)
    ensures IsEp3Id(used, id)
  {
    Ep3From(used, 0x21, used)
  }

  ghost function Ep3From(used: set<nat>, from: nat, left: set<nat>): (id: nat)
    requires 0x21 <= from && forall k: nat :: 0x21 <= k < from ==> k in used
    requires forall k <- used :: from <= k ==> k in left
    ensures IsEp3Id(used, id)
    decreases |left|
  {
    if from in used then Ep3From(used, from + 1, left - {from}) else from
  }

  lemma Ep3IdIsUnique(used: set<nat>, id: nat)
    requires IsEp3Id(used, id)
    ensures id == Ep3Id(used)
  {
    var e := Ep3Id(used);
    assert !(e < id) && !(id < e);
  }

  /** A PC team is given 0x21, is not listed yet, and so an Episode 3 team can be given 0x21 too. */
  lemma DeferredIdCanBeTaken(used: set<nat>)
    requires 0x21 !in used
    ensures IsNextFree(used, 0x21, 0x21) && IsEp3Id(used, 0x21)
  {
  }
}
