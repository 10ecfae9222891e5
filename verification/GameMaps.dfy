/**
  The maps of a new game: which ones are chosen (src/lobby.c:178-193, 346-413), and how their enemies and
  objects are put together (src/mapdata.c:172-182, 1486-1810).
 */
module GameMaps {
  import opened Options
  import opened Sequences
  import opened EnemyMaps

  /** For each episode and area, how many maps there are and how many variations of each, in turn. */
  const MAPS: seq<seq<nat>> := [
    [1,1,1,5,1,5,3,2,3,2,3,2,3,2,3,2,3,2,3,2,3,2,1,1,1,1,1,1,1,1,1,1],
    [1,1,2,1,2,1,2,1,2,1,1,3,1,3,1,3,2,2,1,3,2,2,2,2,1,1,1,1,1,1,1,1],
    [1,1,1,3,1,3,1,3,1,3,1,3,3,1,1,3,3,1,1,1,1,1,1,1,1,1,1,1,1,1,1,1]]

  const SP_MAPS: seq<seq<nat>> := [
    [1,1,1,3,1,3,3,1,3,1,3,1,3,2,3,2,3,2,3,2,3,2,1,1,1,1,1,1,1,1,1,1],
    [1,1,2,1,2,1,2,1,2,1,1,3,1,3,1,3,2,2,1,3,2,1,2,1,1,1,1,1,1,1,1,1],
    [1,1,1,3,1,3,1,3,1,3,1,3,3,1,1,3,3,1,1,1,1,1,1,1,1,1,1,1,1,1,1,1]]

  const DCNTE_MAPS: seq<nat> := [1,1,1,2,1,2,2,2,2,2,2,2,1,2,1,2,2,2,2,2,2,2,1,1,1,1,1,1,1,1,1,1]

  const MAP_SLOTS := 0x20
  const AREAS := 0x10

  // ---------------------------------------------------------------- choosing

  /** The bounds for a new game. Versions without episodes count as episode 1. */
  function Bounds(nte: bool, single: bool, ep: nat): (b: seq<nat>)
    requires 1 <= ep <= 3
    ensures |b| == MAP_SLOTS && NoZero(b)
  {
    TablesHaveNoZero(ep);
    if nte then DCNTE_MAPS else if single then SP_MAPS[ep - 1] else MAPS[ep - 1]
  }

  /** In the first area with a choice, the online maps of an episode are the most: in episodes 1 and 2 the variations of
      a map, or the maps, are fewer for a single player, and the trial edition has the fewest of all. */
  lemma BoundsOf(nte: bool, single: bool, ep: nat)
    requires 1 <= ep <= 3
    ensures nte ==> Bounds(nte, single, ep)[3] == 2
    ensures !nte && ep == 1 ==> Bounds(nte, single, ep)[3] == if single then 3 else 5
    ensures !nte && ep == 2 ==> Bounds(nte, single, ep)[21] == if single then 1 else 2
    ensures !nte && ep == 3 ==> Bounds(nte, single, ep)[3] == 3
    ensures AtMost(Bounds(nte, true, ep), Bounds(nte, false, ep))
  {
    SinglePlayersHaveFewer(ep);
  }

  lemma SinglePlayersHaveFewer(ep: nat)
    requires 1 <= ep <= 3
    ensures AtMost(SP_MAPS[ep - 1], MAPS[ep - 1])
  {
  }

  ghost predicate AtMost(few: seq<nat>, many: seq<nat>) {
    |few| == |many| && forall i :: 0 <= i < |few| ==> few[i] <= many[i]
  }

  predicate NoZero(b: seq<nat>) {
    forall i :: 0 <= i < |b| ==> b[i] >= 1
  }

  lemma MapsHaveNoZero(ep: nat)
    requires 1 <= ep <= 3
    ensures |MAPS[ep - 1]| == MAP_SLOTS && NoZero(MAPS[ep - 1])
  {
  }

  lemma SpMapsHaveNoZero(ep: nat)
    requires 1 <= ep <= 3
    ensures |SP_MAPS[ep - 1]| == MAP_SLOTS && NoZero(SP_MAPS[ep - 1])
  {
  }

  lemma TablesHaveNoZero(ep: nat)
    requires 1 <= ep <= 3
    ensures |MAPS[ep - 1]| == |SP_MAPS[ep - 1]| == |DCNTE_MAPS| == MAP_SLOTS
    ensures NoZero(MAPS[ep - 1]) && NoZero(SP_MAPS[ep - 1]) && NoZero(DCNTE_MAPS)
  {
    MapsHaveNoZero(ep);
    SpMapsHaveNoZero(ep);
  }

  /** The network trial edition has no more maps of anything than the later version. */
  lemma TrialHasFewerMaps()
    ensures |MAPS[0]| == |DCNTE_MAPS| == MAP_SLOTS
    ensures forall i :: 0 <= i < MAP_SLOTS ==> DCNTE_MAPS[i] <= MAPS[0][i]
  {
  }

  /** A valid wish is granted, otherwise the dice decide. */
  ghost predicate Granted(wish: Option<seq<nat>>, bounds: seq<nat>, i: nat, chosen: nat)
    requires i < |bounds| && (wish.Some? ==> |wish.value| == |bounds|)
  {
    chosen < bounds[i] && (wish.Some? && wish.value[i] < bounds[i] ==> chosen == wish.value[i])
  }

  /** `wish` is what a previous command asked for; `rnd` are the numbers drawn. */
  method ChooseMaps(wish: Option<seq<nat>>, bounds: seq<nat>, rnd: seq<nat>) returns (maps: seq<nat>)
    requires |bounds| == |rnd| == MAP_SLOTS && (wish.Some? ==> |wish.value| == MAP_SLOTS)
    requires NoZero(bounds)
    ensures |maps| == MAP_SLOTS && forall i :: 0 <= i < MAP_SLOTS ==> Granted(wish, bounds, i, maps[i])
    ensures forall i :: 0 <= i < MAP_SLOTS && !(wish.Some? && wish.value[i] < bounds[i]) ==>
              maps[i] == rnd[i] % bounds[i]
  {
    maps := [];
    var i := 0;
    while i < MAP_SLOTS
      invariant 0 <= i <= MAP_SLOTS && |maps| == i
      invariant forall k :: 0 <= k < i ==> Granted(wish, bounds, k, maps[k])
      invariant forall k :: 0 <= k < i && !(wish.Some? && wish.value[k] < bounds[k]) ==> maps[k] == rnd[k] % bounds[k]
    {
      var m := 0;
      if wish.Some? && wish.value[i] < bounds[i] {
        m := wish.value[i];
      } else if bounds[i] != 1 {
        m := rnd[i] % bounds[i];
      }
      maps := maps + [m];
      i := i + 1;
    }
  }

  // ---------------------------------------------------------------- what was read from the map files

  /** The maps of one area: `data` has all variations of the first map, then those of the second, and so on. */
  datatype Area<O> = Area(mapCount: nat, variations: nat, enemies: seq<seq<Enemy>>, objects: seq<seq<O>>)

  ghost predicate WellRead<O>(a: Area<O>) {
    |a.enemies| == |a.objects| == a.mapCount * a.variations
  }

  function Index<O>(a: Area<O>, m: nat, variation: nat): nat {
    m * a.variations + variation
  }

  /** The check made before the look-up. */
  predicate Checked<O>(a: Area<O>, m: nat, variation: nat) {
    m <= a.mapCount && variation <= a.variations
  }

  lemma Multiples(m: nat, n: nat, v: nat)
    requires m <= n
    ensures m * v <= n * v
  {
  }

  /** The check is too weak: what passes it is found in the list exactly if the map exists and either the
      variation does too or the next map's first variation can be mistaken for it. */
  lemma CheckedIsNotEnough<O>(a: Area<O>, m: nat, variation: nat)
    requires WellRead(a) && a.variations > 0 && m <= a.mapCount && variation <= a.variations
    ensures Checked(a, m, variation)
    ensures Index(a, m, variation) < |a.enemies| <==>
            m < a.mapCount && (variation < a.variations || m + 1 < a.mapCount)
  {
    var v, next := a.variations, m + 1;
    assert next * v == m * v + v;
    if m == a.mapCount {
    } else if variation < v {
      Multiples(next, a.mapCount, v);
    } else if next < a.mapCount {
      var after := next + 1;
      Multiples(after, a.mapCount, v);
      assert after * v == next * v + v;
    } else {
      assert a.mapCount * v == next * v;
    }
  }

  /** What an area list says has been read agrees with the bounds choices were made under. */
  ghost predicate ReadFor<O>(areas: seq<Area<O>>, bounds: seq<nat>) {
    |areas| == AREAS && |bounds| == MAP_SLOTS &&
    forall k :: 0 <= k < AREAS ==>
      && WellRead(areas[k])
      && (|| Missing(areas[k])
          || (bounds[2 * k] <= areas[k].mapCount && bounds[2 * k + 1] <= areas[k].variations))
  }

  predicate Missing<O>(a: Area<O>) {
    a.mapCount == 0 && a.variations == 0
  }

  /** How many areas there are before the first that was not read. */
  function Present<O>(areas: seq<Area<O>>): (n: nat)
    ensures n <= |areas| && (forall k :: 0 <= k < n ==> !Missing(areas[k])) && (n < |areas| ==> Missing(areas[n]))
  {
    if areas == [] || Missing(areas[0]) then 0 else 1 + Present(areas[1..])
  }

  /** Areas are used up to the first that has neither maps nor variations. */
  lemma AreasUsed<O>(areas: seq<Area<O>>, n: nat)
    requires n <= |areas| && forall k :: 0 <= k < n ==> areas[k].mapCount != 0 || areas[k].variations != 0
    requires n < |areas| ==> areas[n].mapCount == 0 && areas[n].variations == 0
    ensures Present(areas) == n
  {
    var p := Present(areas);
    assert p < n ==> Missing(areas[p]);
    assert n < p ==> !Missing(areas[n]);
  }

  ghost predicate InBounds<O>(areas: seq<Area<O>>, maps: seq<nat>)
    requires |maps| == 2 * |areas|
  {
    forall k :: 0 <= k < Present(areas) && Checked(areas[k], maps[2 * k], maps[2 * k + 1]) ==>
      Index(areas[k], maps[2 * k], maps[2 * k + 1]) < |areas[k].enemies| == |areas[k].objects|
  }

  /** What is chosen within the bounds passes the check and is found. */
  lemma ChosenMapsAreFound<O>(areas: seq<Area<O>>, bounds: seq<nat>, maps: seq<nat>)
    requires ReadFor(areas, bounds) && |maps| == MAP_SLOTS && forall i :: 0 <= i < MAP_SLOTS ==> maps[i] < bounds[i]
    ensures InBounds(areas, maps) && AllPass(areas, maps, Present(areas))
  {
    forall k | 0 <= k < Present(areas)
      ensures Checked(areas[k], maps[2 * k], maps[2 * k + 1])
      ensures Index(areas[k], maps[2 * k], maps[2 * k + 1]) < |areas[k].enemies| == |areas[k].objects|
    {
      assert WellRead(areas[k]);
      CheckedIsNotEnough(areas[k], maps[2 * k], maps[2 * k + 1]);
    }
  }

  /** Games of the network trial edition choose within its own bounds, and use the maps of the later version. */
  lemma TrialMapsAreFound<O>(areas: seq<Area<O>>, maps: seq<nat>)
    requires ReadFor(areas, MAPS[0]) && |maps| == MAP_SLOTS
    requires forall i :: 0 <= i < MAP_SLOTS ==> maps[i] < DCNTE_MAPS[i]
    ensures InBounds(areas, maps) && AllPass(areas, maps, Present(areas))
  {
    TrialHasFewerMaps();
    ChosenMapsAreFound(areas, MAPS[0], maps);
  }

  // ---------------------------------------------------------------- putting them together

  const EVENT_CHRISTMAS := 1
  const EVENT_EASTER := 4
  const EVENT_HALLOWEEN := 5

  /** The rappy of the season. */
  function Rappy(event: nat): nat {
    if event == EVENT_CHRISTMAS then 79 else if event == EVENT_EASTER then 81
    else if event == EVENT_HALLOWEEN then 80 else 51
  }

  /** Above normal difficulty Dark Falz' second form is replaced by the third; and, in the versions that have
      them, rappies are those of the season. */
  function Fixed(e: Enemy, difficulty: nat, event: nat, rappies: bool): Enemy {
    if e.bp == 0x37 && difficulty != 0 then e.(bp := 0x38)
    else if rappies && e.rt == SEASONAL then e.(rt := Rappy(event))
    else e
  }

  /** At Christmas, Easter and Halloween the rappy of the season has drops of its own; at any other time another one's;
      the second form of Dark Falz turns into the third except at normal difficulty; nothing else is touched. */
  lemma FixedIs(e: Enemy, difficulty: nat, event: nat, rappies: bool)
    ensures var f, second := Fixed(e, difficulty, event, rappies), e.bp == 0x37 && difficulty != 0;
            && f.area == e.area && f.bp == (if second then 0x38 else e.bp)
            && (second || !rappies || e.rt != 0xFF ==> f.rt == e.rt)
            && (!second && rappies && e.rt == 0xFF && event == 1 ==> f.rt == 79)
            && (!second && rappies && e.rt == 0xFF && event == 4 ==> f.rt == 81)
            && (!second && rappies && e.rt == 0xFF && event == 5 ==> f.rt == 80)
            && (!second && rappies && e.rt == 0xFF && event !in {1, 4, 5} ==> f.rt == 51)
  {
  }

  ghost function FixAll(s: seq<Enemy>, difficulty: nat, event: nat, rappies: bool): (t: seq<Enemy>)
    ensures |t| == |s| && forall i :: 0 <= i < |s| ==> t[i] == Fixed(s[i], difficulty, event, rappies)
  {
    seq(|s|, i requires 0 <= i < |s| => Fixed(s[i], difficulty, event, rappies))
  }

  method FixUp(en: array<Enemy>, difficulty: nat, event: nat, rappies: bool)
    modifies en
    ensures en[..] == FixAll(old(en[..]), difficulty, event, rappies)
  {
    var i := 0;
    while i < en.Length
      invariant 0 <= i <= en.Length
      invariant forall k :: 0 <= k < i ==> en[k] == Fixed(old(en[k]), difficulty, event, rappies)
      invariant forall k :: i <= k < en.Length ==> en[k] == old(en[k])
    {
      if en[i].bp == 0x37 && difficulty != 0 {
        en[i] := en[i].(bp := 0x38);
      } else if rappies && en[i].rt == SEASONAL {
        en[i] := en[i].(rt := Rappy(event));
      }
      i := i + 1;
    }
  }

  /** Fixing an enemy of an expanded map leaves nothing to fix. */
  lemma FixedIsFinal(r: Record, p: Place, difficulty: nat, event: nat, i: nat)
    requires i < |Expand(r, p)|
    ensures var e := Fixed(Expand(r, p)[i], difficulty, event, true);
            e.rt != SEASONAL && (difficulty != 0 ==> e.bp != 0x37) && Fixed(e, difficulty, event, true) == e
  {
    NeverBoth(r, p, i);
  }

  /** No enemy is both. */
  lemma NeverBoth(r: Record, p: Place, i: nat)
    requires i < |Expand(r, p)|
    ensures !(Expand(r, p)[i].bp == 0x37 && Expand(r, p)[i].rt == SEASONAL)
  {
    SeasonalRappies(r, p);
    var body := Body(r, p);
    assert forall k :: 0 <= k < |Followers(r, p)| ==> Followers(r, p)[k].rt != SEASONAL;
    assert body[0].rt == SEASONAL ==> body[0].bp == 0x19;
  }

  ghost function Pick<T>(sets: seq<seq<T>>, i: nat): seq<T> {
    if i < |sets| then sets[i] else []
  }

  ghost function EnemySets<O>(areas: seq<Area<O>>, maps: seq<nat>, n: nat): seq<seq<Enemy>>
    requires n <= |areas| && |maps| == 2 * |areas|
  {
    if n == 0 then []
    else var k := n - 1;
      EnemySets(areas, maps, k) + [Pick(areas[k].enemies, Index(areas[k], maps[2 * k], maps[2 * k + 1]))]
  }

  ghost function ObjectSets<O>(areas: seq<Area<O>>, maps: seq<nat>, n: nat): seq<seq<O>>
    requires n <= |areas| && |maps| == 2 * |areas|
  {
    if n == 0 then []
    else var k := n - 1;
      ObjectSets(areas, maps, k) + [Pick(areas[k].objects, Index(areas[k], maps[2 * k], maps[2 * k + 1]))]
  }

  /** These are the enemies and objects of a map and variation of an area. */
  ghost predicate AreOf<O>(enemies: seq<Enemy>, objects: seq<O>, a: Area<O>, m: nat, variation: nat) {
    var at := m * a.variations + variation;
    at < |a.enemies| && at < |a.objects| && enemies == a.enemies[at] && objects == a.objects[at]
  }

  /** Of area `k` the set of the map chosen and its variation is used, and areas come in order. */
  lemma {:induction false} SetsAre<O>(areas: seq<Area<O>>, maps: seq<nat>, n: nat)
    requires n <= Present(areas) && |maps| == 2 * |areas| && InBounds(areas, maps) && AllPass(areas, maps, n)
    ensures |EnemySets(areas, maps, n)| == |ObjectSets(areas, maps, n)| == n
    ensures forall k :: 0 <= k < n ==>
              AreOf(EnemySets(areas, maps, n)[k], ObjectSets(areas, maps, n)[k], areas[k], maps[2 * k], maps[2 * k + 1])
  {
    if n > 0 {
      var last := n - 1;
      SetsAre(areas, maps, last);
      assert Passes(areas, maps, last);
      SetsStep(areas, maps, last, Index(areas[last], maps[2 * last], maps[2 * last + 1]));
    }
  }

  /** Area `k`'s maps pass the check. */
  predicate Passes<O>(areas: seq<Area<O>>, maps: seq<nat>, k: nat)
    requires k < |areas| && |maps| == 2 * |areas|
  {
    Checked(areas[k], maps[2 * k], maps[2 * k + 1])
  }

  ghost predicate AllPass<O>(areas: seq<Area<O>>, maps: seq<nat>, n: nat)
    requires n <= |areas| && |maps| == 2 * |areas|
  {
    forall k :: 0 <= k < n ==> Passes(areas, maps, k)
  }

  lemma SetsStep<O>(areas: seq<Area<O>>, maps: seq<nat>, k: nat, index: nat)
    requires |maps| == 2 * |areas| && InBounds(areas, maps) && k < |areas| && !Missing(areas[k]) && k <= Present(areas)
    requires Passes(areas, maps, k) && index == Index(areas[k], maps[2 * k], maps[2 * k + 1])
    ensures k < Present(areas) && index < |areas[k].enemies| == |areas[k].objects|
    ensures EnemySets(areas, maps, k + 1) == EnemySets(areas, maps, k) + [areas[k].enemies[index]]
    ensures ObjectSets(areas, maps, k + 1) == ObjectSets(areas, maps, k) + [areas[k].objects[index]]
  {
  }

  /** The sets used in the first `k` areas, and how much they hold together. */
  ghost predicate Collected<O>(areas: seq<Area<O>>, maps: seq<nat>, k: nat, enemySets: seq<seq<Enemy>>,
                               objectSets: seq<seq<O>>, enemies: nat, objects: nat)
    requires k <= |areas| && |maps| == 2 * |areas|
  {
    && enemySets == EnemySets(areas, maps, k) && enemies == |Flat(enemySets)|
    && objectSets == ObjectSets(areas, maps, k) && objects == |Flat(objectSets)|
  }

  /** Look up the set chosen in area `k`. */
  method FindSet<O>(areas: seq<Area<O>>, maps: seq<nat>, k: nat) returns (rc: int, index: nat)
    requires k < |areas| && |maps| == 2 * |areas|
    ensures rc == if Passes(areas, maps, k) then 0 else -1
    ensures index == Index(areas[k], maps[2 * k], maps[2 * k + 1])
  {
    index := maps[2 * k] * areas[k].variations + maps[2 * k + 1];
    if maps[2 * k] > areas[k].mapCount || maps[2 * k + 1] > areas[k].variations {
      return -1, index;
    }
    rc := 0;
  }

  /** The first pass. */
  method Collect<O>(areas: seq<Area<O>>, maps: seq<nat>)
    returns (rc: int, enemySets: seq<seq<Enemy>>, objectSets: seq<seq<O>>, enemies: nat, objects: nat)
    requires |maps| == 2 * |areas| && InBounds(areas, maps)
    ensures rc == if AllPass(areas, maps, Present(areas)) then 0 else -1
    ensures rc == 0 ==> Collected(areas, maps, Present(areas), enemySets, objectSets, enemies, objects)
  {
    enemySets, objectSets, enemies, objects := [], [], 0, 0;
    var k := 0;
    while k < |areas| && !(areas[k].mapCount == 0 && areas[k].variations == 0)
      invariant 0 <= k <= Present(areas) && AllPass(areas, maps, k)
      invariant Collected(areas, maps, k, enemySets, objectSets, enemies, objects)
    {
      rc, enemySets, objectSets, enemies, objects :=
        CollectArea(areas, maps, k, enemySets, objectSets, enemies, objects);
      if rc != 0 {
        return;
      }
      k := k + 1;
    }
    rc := 0;
  }

  /** One area of the first pass. */
  method CollectArea<O>(areas: seq<Area<O>>, maps: seq<nat>, k: nat, enemySets: seq<seq<Enemy>>,
                        objectSets: seq<seq<O>>, enemies: nat, objects: nat)
    returns (rc: int, moreEnemies: seq<seq<Enemy>>, moreObjects: seq<seq<O>>, enemyCount: nat, objectCount: nat)
    requires |maps| == 2 * |areas| && InBounds(areas, maps) && k < |areas|
    requires !(areas[k].mapCount == 0 && areas[k].variations == 0)
    requires k <= Present(areas) && AllPass(areas, maps, k)
    requires Collected(areas, maps, k, enemySets, objectSets, enemies, objects)
    ensures k < Present(areas) && (rc == 0 || rc == -1)
    ensures rc == -1 ==> !AllPass(areas, maps, Present(areas))
    ensures rc == 0 ==> AllPass(areas, maps, k + 1) &&
                        Collected(areas, maps, k + 1, moreEnemies, moreObjects, enemyCount, objectCount)
  {
    var index;
    rc, index := FindSet(areas, maps, k);
    moreEnemies, moreObjects, enemyCount, objectCount := enemySets, objectSets, enemies, objects;
    if rc == 0 {
      SetsStep(areas, maps, k, index);
      moreEnemies, enemyCount := Include(enemySets, areas[k].enemies[index], enemies);
      moreObjects, objectCount := Include(objectSets, areas[k].objects[index], objects);
    }
  }

  method Include<T>(sets: seq<seq<T>>, s: seq<T>, count: nat) returns (more: seq<seq<T>>, total: nat)
    requires count == |Flat(sets)|
    ensures more == sets + [s] && total == |Flat(more)|
  {
    FlatAppend(sets, s);
    more, total := sets + [s], count + |s|;
  }

  /** The second pass: one set after the other is copied into an array of just the right size. */
  method Assemble<T(0)>(sets: seq<seq<T>>, total: nat) returns (a: array<T>)
    requires total == |Flat(sets)|
    ensures fresh(a) && a[..] == Flat(sets)
  {
    a := new T[total];
    var i, index := 0, 0;
    while i < |sets|
      invariant 0 <= i <= |sets| && index == |Flat(sets[..i])| <= total
      invariant a[..index] == Flat(sets[..i])
    {
      FlatStep(sets, i);
      FlatPrefix(sets, i + 1);
      forall j | 0 <= j < |sets[i]| {
        a[index + j] := sets[i][j];
      }
      ghost var before := a[..index];
      index := index + |sets[i]|;
      assert a[..index] == before + sets[i];
      i := i + 1;
    }
    assert sets[..i] == sets;
  }

  /** The enemies and objects of a new game: those of the chosen maps, area by area, the enemies fixed up. */
  method LoadGameEnemies<O(0)>(areas: seq<Area<O>>, maps: seq<nat>, difficulty: nat, event: nat, rappies: bool)
    returns (rc: int, en: array?<Enemy>, ob: array?<O>)
    requires |maps| == 2 * |areas| && InBounds(areas, maps)
    ensures rc == if AllPass(areas, maps, Present(areas)) then 0 else -1
    ensures rc == -1 ==> en == null && ob == null
    ensures rc == 0 ==> en != null && ob != null
    ensures rc == 0 ==> en[..] == FixAll(Flat(EnemySets(areas, maps, Present(areas))), difficulty, event, rappies)
    ensures rc == 0 ==> ob[..] == Flat(ObjectSets(areas, maps, Present(areas)))
  {
    var enemySets, objectSets, enemies, objects;
    rc, enemySets, objectSets, enemies, objects := Collect(areas, maps);
    if rc != 0 {
      return rc, null, null;
    }
    var e := Assemble(enemySets, enemies);
    var o := Assemble(objectSets, objects);
    FixUp(e, difficulty, event, rappies);
    en, ob := e, o;
  }
}
