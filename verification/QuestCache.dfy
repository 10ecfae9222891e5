/**
  The cache of a quest's objects and enemies (src/mapdata.c:1842-2095): written once from the quest's .dat file,
  and read back whenever the quest is started.
 */
module QuestCache {
  import opened Options
  import opened Bytes
  import opened Sequences
  import opened EnemyMaps
  import GameMaps

  /** A section of a .dat file. Kind 1 has objects, 2 enemies, 3 something to be skipped; any other kind is the
      padding at the end. */
  datatype Section = Section(kind: nat, area: nat, data: seq<Byte>)

  const QUEST_AREAS := 17
  const OBJECT_SIZE := 68
  const RECORD_SIZE := 72
  const ENEMY_SIZE := 12

  ghost predicate GoodAreas(dat: seq<Section>) {
    forall i :: 0 <= i < |dat| && (dat[i].kind == 1 || dat[i].kind == 2) ==> dat[i].area < QUEST_AREAS
  }

  // ---------------------------------------------------------------- pieces of fixed size

  /** The whole pieces of `size` bytes in `data`. */
  function Pieces(data: seq<Byte>, size: nat): (ps: seq<seq<Byte>>)
    requires size > 0
    ensures forall i :: 0 <= i < |ps| ==> |ps[i]| == size
    decreases |data|
  {
    if |data| < size then [] else [data[..size]] + Pieces(data[size..], size)
  }

  /** `n` pieces and what follows them, or nothing if there are not so many. */
  function TakePieces(data: seq<Byte>, size: nat, n: nat): (r: Option<(seq<seq<Byte>>, seq<Byte>)>)
    ensures r.Some? ==> |r.value.0| == n && forall i :: 0 <= i < n ==> |r.value.0[i]| == size
  {
    if n == 0 then Some(([], data))
    else if |data| < size then None
    else
      var rest := TakePieces(data[size..], size, n - 1);
      if rest.None? then None else Some(([data[..size]] + rest.value.0, rest.value.1))
  }

  ghost predicate AllOfSize(ps: seq<seq<Byte>>, size: nat) {
    forall i :: 0 <= i < |ps| ==> |ps[i]| == size
  }

  lemma {:induction false} FlatFront(ps: seq<seq<Byte>>)
    requires ps != []
    ensures Flat(ps) == ps[0] + Flat(ps[1..])
  {
    if |ps| > 1 {
      var last := |ps| - 1;
      FlatFront(ps[..last]);
      assert ps[..last][1..] == ps[1..][..last - 1];
      Regroup(ps[0], Flat(ps[1..][..last - 1]), ps[last]);
    } else {
      assert ps[..0] == [] && ps[1..] == [];
    }
  }

  /** Pieces written one after the other can be taken back one after the other. */
  lemma {:induction false} TakeBack(ps: seq<seq<Byte>>, size: nat, rest: seq<Byte>)
    requires AllOfSize(ps, size)
    ensures TakePieces(Flat(ps) + rest, size, |ps|) == Some((ps, rest))
    decreases |ps|
  {
    if ps == [] {
      assert Flat(ps) + rest == rest;
    } else {
      var tail, n := ps[1..], |ps| - 1;
      FlatFront(ps);
      var data := Flat(ps) + rest;
      assert data[..size] == ps[0] && data[size..] == Flat(tail) + rest;
      TakeBack(tail, size, rest);
      assert TakePieces(data, size, |ps|) == Some(([ps[0]] + tail, rest));
      assert [ps[0]] + tail == ps;
    }
  }

  // ---------------------------------------------------------------- records and enemies as bytes

  /** An enemy record of the map files. */
  function DecodeRecord(b: seq<Byte>): Record
    requires |b| == RECORD_SIZE
  {
    Record(Le32(b, 0), Le16(b, 6), Le32(b, 64), b[50] >= 0x80)
  }

  /** An enemy as it lies in memory: battle parameters, drops, three bytes for what happens to it in the game,
      area, and padding. */
  function EncodeEnemy(e: Enemy): (b: seq<Byte>)
    ensures |b| == ENEMY_SIZE
  {
    Store32(e.bp) + [e.rt % 0x100, 0, 0, 0, e.area % 0x100, 0, 0, 0]
  }

  function DecodeEnemy(b: seq<Byte>): Enemy
    requires |b| == ENEMY_SIZE
  {
    Enemy(Le32(b, 0), b[4], b[8])
  }

  /** Where the parts of a record are: the kind in the first four bytes, the number of clones in bytes 6 and 7, the skin
      in bytes 64 to 67, each with the lowest byte first, and the mark of rare ones in the highest bit of byte 50. */
  lemma RecordLayout(b: seq<Byte>, base: nat, clones: nat, skin: nat)
    requires |b| == RECORD_SIZE && base < 0x1_0000_0000 && clones < 0x10000 && skin < 0x1_0000_0000
    requires b[0] == base % 0x100 && b[1] == base / 0x100 % 0x100
    requires b[2] == base / 0x1_0000 % 0x100 && b[3] == base / 0x100_0000
    requires b[6] == clones % 0x100 && b[7] == clones / 0x100
    requires b[64] == skin % 0x100 && b[65] == skin / 0x100 % 0x100
    requires b[66] == skin / 0x1_0000 % 0x100 && b[67] == skin / 0x100_0000
    ensures var r := DecodeRecord(b);
            r.base == base && r.clones == clones && r.skin == skin && (r.rare <==> b[50] / 0x80 == 1)
  {
    Stored32(b, 0, base);
    Stored16(b, 6, clones);
    Stored32(b, 64, skin);
  }

  /** Where the parts of an enemy are. */
  lemma EnemyLayout(e: Enemy)
    requires Fits(e)
    ensures var b := EncodeEnemy(e);
            && b[0] == e.bp % 0x100 && b[1] == e.bp / 0x100 % 0x100
            && b[2] == e.bp / 0x1_0000 % 0x100 && b[3] == e.bp / 0x100_0000
            && b[4] == e.rt && b[8] == e.area
            && b[5] == b[6] == b[7] == b[9] == b[10] == b[11] == 0
  {
    EnemyRoundTrip(e);
    StoredBytes(e.bp);
  }

  lemma StoredBytes(n: nat)
    requires n < 0x1_0000_0000
    ensures Store32(n) == [n % 0x100, n / 0x100 % 0x100, n / 0x1_0000 % 0x100, n / 0x100_0000]
  {
    var b: seq<Byte> := [n % 0x100, n / 0x100 % 0x100, n / 0x1_0000 % 0x100, n / 0x100_0000];
    Stored32(b, 0, n);
  }

  ghost predicate Fits(e: Enemy) {
    e.bp < 0x1_0000_0000 && e.rt < 0x100 && e.area < 0x100
  }

  lemma EnemyRoundTrip(e: Enemy)
    requires Fits(e)
    ensures DecodeEnemy(EncodeEnemy(e)) == e
  {
    Stored(e.bp);
    var b := EncodeEnemy(e);
    assert Le32(b, 0) == Le32(Store32(e.bp), 0);
  }

  ghost function EncodeAll(es: seq<Enemy>): (ps: seq<seq<Byte>>)
    ensures |ps| == |es| && AllOfSize(ps, ENEMY_SIZE)
    ensures forall i :: 0 <= i < |es| ==> ps[i] == EncodeEnemy(es[i])
  {
    seq(|es|, i requires 0 <= i < |es| => EncodeEnemy(es[i]))
  }

  function DecodeAll(ps: seq<seq<Byte>>): (es: seq<Enemy>)
    requires AllOfSize(ps, ENEMY_SIZE)
    ensures |es| == |ps| && forall i :: 0 <= i < |ps| ==> es[i] == DecodeEnemy(ps[i])
  {
    seq(|ps|, i requires 0 <= i < |ps| => DecodeEnemy(ps[i]))
  }

  lemma EnemiesRoundTrip(es: seq<Enemy>)
    requires forall i :: 0 <= i < |es| ==> Fits(es[i])
    ensures DecodeAll(EncodeAll(es)) == es
  {
    forall i | 0 <= i < |es| ensures DecodeAll(EncodeAll(es))[i] == es[i] {
      EnemyRoundTrip(es[i]);
    }
  }

  // ---------------------------------------------------------------- what the .dat file says

  /** The sections before the padding. */
  function Real(dat: seq<Section>): (r: seq<Section>)
    ensures |r| <= |dat|
  {
    if dat == [] || !(1 <= dat[0].kind <= 3) then [] else [dat[0]] + Real(dat[1..])
  }

  /** The data of the last section of a kind for an area: later sections replace earlier ones. */
  function Latest(dat: seq<Section>, kind: nat, area: nat): Option<seq<Byte>> {
    if dat == [] then None
    else
      var last := |dat| - 1;
      if dat[last].kind == kind && dat[last].area == area then Some(dat[last].data) else Latest(dat[..last], kind, area)
  }

  /** The number of objects in all sections, replaced ones included. */
  function ObjectCount(dat: seq<Section>): nat {
    if dat == [] then 0
    else
      var last := |dat| - 1;
      ObjectCount(dat[..last]) + if dat[last].kind == 1 then |dat[last].data| / OBJECT_SIZE else 0
  }

  /** The objects that are kept, area by area. */
  ghost function Objects(dat: seq<Section>, areas: nat): (ps: seq<seq<Byte>>)
    ensures AllOfSize(ps, OBJECT_SIZE)
  {
    if areas == 0 then []
    else
      var a := areas - 1;
      var l := Latest(dat, 1, a);
      Objects(dat, a) + if l.None? then [] else Pieces(l.value, OBJECT_SIZE)
  }

  /** Areas above a limit are the alternative ones. */
  function IsAlt(ep: nat, area: nat): bool {
    (ep == 3 && area > 5) || (ep == 2 && area > 15)
  }

  function Records(data: seq<Byte>): seq<Record> {
    var ps := Pieces(data, RECORD_SIZE);
    seq(|ps|, i requires 0 <= i < |ps| => DecodeRecord(ps[i]))
  }

  ghost function AreaEnemies(dat: seq<Section>, ep: nat, area: nat): seq<Enemy> {
    var l := Latest(dat, 2, area);
    if l.None? then [] else ExpandAll(Records(l.value), Place(ep, IsAlt(ep, area), area))
  }

  /** The enemies, area by area. */
  ghost function Enemies(dat: seq<Section>, ep: nat, areas: nat): seq<Enemy> {
    if areas == 0 then [] else var a := areas - 1; Enemies(dat, ep, a) + AreaEnemies(dat, ep, a)
  }

  /** A file with `n` for the number of its objects. */
  ghost function FileWith(n: nat, objects: seq<seq<Byte>>, es: seq<Enemy>): seq<Byte> {
    Store32(n) + Flat(objects) + Store32(|es|) + Flat(EncodeAll(es))
  }

  /** The whole cache file. */
  ghost function CacheFile(dat: seq<Section>, ep: nat): seq<Byte> {
    var es := Enemies(dat, ep, QUEST_AREAS);
    FileWith(ObjectCount(dat), Objects(dat, QUEST_AREAS), es)
  }

  /** Pieces are cut from the front, one after the other, until less than one is left. */
  lemma {:induction false} PiecesAre(data: seq<Byte>, size: nat)
    requires size > 0
    ensures var whole := Flat(Pieces(data, size)); whole <= data && |data| - |whole| < size
    decreases |data|
  {
    if |data| >= size {
      PiecesAre(data[size..], size);
      FlatFront(Pieces(data, size));
      assert data == data[..size] + data[size..];
    }
  }

  /** `i` is the last section of a kind for an area, or -1 if there is none. */
  ghost predicate IsLast(dat: seq<Section>, kind: nat, area: nat, i: int) {
    && -1 <= i < |dat| && (i >= 0 ==> dat[i].kind == kind && dat[i].area == area)
    && forall k :: i < k < |dat| ==> dat[k].kind != kind || dat[k].area != area
  }

  /** What is kept of an area: the objects of its last section of kind 1, and what the records of its last section of
      kind 2 stand for; the area belongs to the alternative set above area 15 in episode 2 and above area 5 in
      episode 3. */
  lemma AreaKeeps(dat: seq<Section>, ep: nat, area: nat, i: int, j: int)
    requires IsLast(dat, 1, area, i) && IsLast(dat, 2, area, j)
    ensures var next, alt := area + 1, (ep == 2 && area > 15) || (ep == 3 && area > 5);
            && Objects(dat, next) == Objects(dat, area) + (if i == -1 then [] else Pieces(dat[i].data, 68))
            && Enemies(dat, ep, next) == Enemies(dat, ep, area) +
                 if j == -1 then [] else ExpandAll(Records(dat[j].data), Place(ep, alt, area))
  {
    LastIsLatest(dat, 1, area, i);
    LastIsLatest(dat, 2, area, j);
  }

  lemma {:induction false} LastIsLatest(dat: seq<Section>, kind: nat, area: nat, i: int)
    requires IsLast(dat, kind, area, i)
    ensures Latest(dat, kind, area) == if i == -1 then None else Some(dat[i].data)
  {
    if dat != [] && i != |dat| - 1 {
      LastIsLatest(dat[..|dat| - 1], kind, area, i);
    }
  }

  /** Sections count up to the first that is of no known kind, and a record is 72 bytes long. */
  lemma {:induction false} RealIs(dat: seq<Section>, n: nat)
    requires n <= |dat| && (forall k :: 0 <= k < n ==> dat[k].kind in {1, 2, 3})
    requires n < |dat| ==> dat[n].kind !in {1, 2, 3}
    ensures Real(dat) == dat[..n]
  {
    if n > 0 {
      var m := n - 1;
      RealIs(dat[1..], m);
      assert dat[..n] == [dat[0]] + dat[1..][..m];
    }
  }

  lemma RecordsAre(data: seq<Byte>)
    ensures |Records(data)| == |Pieces(data, 72)|
    ensures forall i :: 0 <= i < |Pieces(data, 72)| ==> Records(data)[i] == DecodeRecord(Pieces(data, 72)[i])
  {
  }

  /** The file: how many objects there are, the objects, how many enemies there are, the enemies. */
  lemma FileLayout(dat: seq<Section>, ep: nat)
    requires ObjectCount(dat) < 0x1_0000_0000 && |Enemies(dat, ep, QUEST_AREAS)| < 0x1_0000_0000
    ensures var file, es := CacheFile(dat, ep), Enemies(dat, ep, QUEST_AREAS);
            var objects := Flat(Objects(dat, QUEST_AREAS));
            var at := 4 + |objects|;
            && at + 4 <= |file| && Le32(file, 0) == ObjectCount(dat) && file[4..at] == objects
            && Le32(file, at) == |es| && file[at + 4..] == Flat(EncodeAll(es))
  {
    var es, objects := Enemies(dat, ep, QUEST_AREAS), Objects(dat, QUEST_AREAS);
    LayoutWith(ObjectCount(dat), Flat(objects), |es|, Flat(EncodeAll(es)));
  }

  lemma LayoutWith(n: nat, objects: seq<Byte>, m: nat, enemies: seq<Byte>)
    requires n < 0x1_0000_0000 && m < 0x1_0000_0000
    ensures var file, at := Store32(n) + objects + Store32(m) + enemies, 4 + |objects|;
            && at + 4 <= |file| && Le32(file, 0) == n && file[4..at] == objects
            && Le32(file, at) == m && file[at + 4..] == enemies
  {
    var a, c := Store32(n), Store32(m);
    FilePieces(a, objects, c, enemies);
    Stored(n);
    Stored(m);
    HeadRead(a, objects + (c + enemies));
    HeadRead(c, enemies);
    var file := a + objects + c + enemies;
    assert file[4..4 + |objects|] == objects && file[4 + |objects|..] == c + enemies;
  }

  // ---------------------------------------------------------------- reading it back

  datatype Loaded = Failed(rc: int) | Loaded(objects: seq<seq<Byte>>, enemies: seq<Enemy>)

  /** What a cache file says, enemies fixed up for the game; or the error code for what is missing. */
  ghost function Load(file: seq<Byte>, difficulty: nat, event: nat): Loaded {
    if |file| < 4 then Failed(-2)
    else
      var objects := TakePieces(file[4..], OBJECT_SIZE, Le32(file, 0));
      if objects.None? then Failed(-4) else LoadEnemies(objects.value.0, objects.value.1, difficulty, event)
  }

  ghost function LoadEnemies(objects: seq<seq<Byte>>, rest: seq<Byte>, difficulty: nat, event: nat): Loaded {
    if |rest| < 4 then Failed(-5)
    else
      var enemies := TakePieces(rest[4..], ENEMY_SIZE, Le32(rest, 0));
      if enemies.None? then Failed(-7)
      else Loaded(objects, GameMaps.FixAll(DecodeAll(enemies.value.0), difficulty, event, true))
  }

  /** Error codes: -2 and -5 if a count is missing, -4 and -7 if there are fewer objects or enemies than it says. */
  lemma LoadFails(file: seq<Byte>, difficulty: nat, event: nat, n: nat)
    requires |file| >= 4 ==> n == Le32(file, 0)
    ensures var r, at := Load(file, difficulty, event), 4 + 68 * n;
            && (|file| < 4 ==> r == Failed(-2))
            && (|file| >= 4 && |file| < at ==> r == Failed(-4))
            && (|file| >= 4 && at <= |file| < at + 4 ==> r == Failed(-5))
            && (|file| >= at + 4 ==>
                  if |file| < at + 4 + 12 * Le32(file, at) then r == Failed(-7)
                  else r.Loaded? && |r.objects| == n && |r.enemies| == Le32(file, at))
  {
    if |file| >= 4 {
      TakenIf(file[4..], OBJECT_SIZE, n);
      if |file| >= 4 + 68 * n {
        var at := 4 + 68 * n;
        var rest := file[at..];
        assert file[4..][68 * n..] == rest;
        if |rest| >= 4 {
          assert Le32(rest, 0) == Le32(file, at);
          TakenIf(rest[4..], ENEMY_SIZE, Le32(rest, 0));
        }
      }
    }
  }

  /** There are so many pieces exactly if there are so many bytes. */
  lemma {:induction false} TakenIf(data: seq<Byte>, size: nat, n: nat)
    requires size == OBJECT_SIZE || size == ENEMY_SIZE
    ensures TakePieces(data, size, n).Some? <==> (if size == OBJECT_SIZE then 68 * n else 12 * n) <= |data|
    ensures TakePieces(data, size, n).Some? ==>
              TakePieces(data, size, n).value.1 == data[if size == OBJECT_SIZE then 68 * n else 12 * n..]
  {
    if n > 0 && |data| >= size {
      TakenIf(data[size..], size, n - 1);
    }
  }

  // ---------------------------------------------------------------- the round trip

  /** Whole objects in sections that a later one replaces. */
  ghost function Lost(dat: seq<Section>): nat {
    if dat == [] then 0
    else
      var last := |dat| - 1;
      Lost(dat[..last]) + if dat[last].kind == 1 then PieceCount(Latest(dat[..last], 1, dat[last].area)) else 0
  }

  ghost function PieceCount(data: Option<seq<Byte>>): nat {
    if data.None? then 0 else |data.value| / OBJECT_SIZE
  }

  lemma {:induction false} PiecesCounted(data: seq<Byte>)
    ensures |Pieces(data, OBJECT_SIZE)| == |data| / OBJECT_SIZE
    decreases |data|
  {
    if |data| >= OBJECT_SIZE {
      PiecesCounted(data[OBJECT_SIZE..]);
    }
  }

  /** One more section: the objects of its area are those in it, all others stay. */
  lemma {:induction false} ObjectsAfter(dat: seq<Section>, s: Section, areas: nat)
    ensures var was, now := |Objects(dat, areas)|, |Objects(dat + [s], areas)|;
            now == if s.kind != 1 || s.area >= areas then was
                   else was - PieceCount(Latest(dat, 1, s.area)) + |s.data| / OBJECT_SIZE
  {
    assert (dat + [s])[..|dat|] == dat;
    if areas > 0 {
      var a := areas - 1;
      ObjectsAfter(dat, s, a);
      var before, after := Latest(dat, 1, a), Latest(dat + [s], 1, a);
      if before.Some? { PiecesCounted(before.value); }
      if after.Some? { PiecesCounted(after.value); }
    }
  }

  /** The count in the file is too high by what was lost. */
  lemma {:induction false} CountIncludesLost(dat: seq<Section>)
    requires GoodAreas(dat)
    ensures ObjectCount(dat) == |Objects(dat, QUEST_AREAS)| + Lost(dat)
  {
    if dat == [] {
      NoObjects(QUEST_AREAS);
    } else {
      var init, last := dat[..|dat| - 1], dat[|dat| - 1];
      assert dat == init + [last];
      CountIncludesLost(init);
      ObjectsAfter(init, last, QUEST_AREAS);
    }
  }

  lemma {:induction false} NoObjects(areas: nat)
    ensures Objects([], areas) == []
  {
    if areas > 0 {
      NoObjects(areas - 1);
    }
  }

  /** No section with a whole object in it is followed by another object section for the same area. */
  ghost predicate NoneReplaced(dat: seq<Section>) {
    forall i, j :: 0 <= i < j < |dat| && dat[i].kind == 1 && dat[j].kind == 1 && dat[i].area == dat[j].area ==>
      |dat[i].data| < OBJECT_SIZE
  }

  lemma {:induction false} LatestIsOne(dat: seq<Section>, area: nat) returns (i: int)
    ensures Latest(dat, 1, area).None? ==>
              i == -1 && forall k :: 0 <= k < |dat| ==> dat[k].kind != 1 || dat[k].area != area
    ensures Latest(dat, 1, area).Some? ==>
              0 <= i < |dat| && dat[i].kind == 1 && dat[i].area == area && dat[i].data == Latest(dat, 1, area).value
    ensures forall k :: i < k < |dat| ==> dat[k].kind != 1 || dat[k].area != area
  {
    if dat == [] {
      i := -1;
    } else {
      var last := |dat| - 1;
      if dat[last].kind == 1 && dat[last].area == area {
        i := last;
      } else {
        i := LatestIsOne(dat[..last], area);
      }
    }
  }

  lemma {:induction false} NothingLostUnlessReplaced(dat: seq<Section>)
    ensures Lost(dat) == 0 <==> NoneReplaced(dat)
  {
    if dat != [] {
      var last := |dat| - 1;
      var init, s := dat[..last], dat[last];
      NothingLostUnlessReplaced(init);
      var i := LatestIsOne(init, s.area);
      if NoneReplaced(dat) {
        assert NoneReplaced(init);
      } else if s.kind == 1 && NoneReplaced(init) && i >= 0 {
        assert PieceCount(Latest(init, 1, s.area)) == |init[i].data| / OBJECT_SIZE;
        if |init[i].data| < OBJECT_SIZE {
          forall a, b | 0 <= a < b < |dat| && dat[a].kind == 1 && dat[b].kind == 1 && dat[a].area == dat[b].area
            ensures |dat[a].data| < OBJECT_SIZE
          {
            if b == last && a != i {
              assert init[a] == dat[a] && init[i] == dat[i];
            }
          }
        }
      }
    }
  }

  lemma LeaderParametersFit(r: Record, p: Place)
    ensures Leader(r, p).0 < 0x100
  {
  }

  lemma LeaderDropsFit(r: Record, p: Place)
    ensures Leader(r, p).1 < 0x100
  {
  }

  lemma RecordFits(r: Record, p: Place)
    requires p.area < 0x100
    ensures forall k :: 0 <= k < |Expand(r, p)| ==> Fits(Expand(r, p)[k])
  {
    LeaderParametersFit(r, p);
    LeaderDropsFit(r, p);
    assert forall k :: 0 <= k < |Followers(r, p)| ==> Fits(Followers(r, p)[k]);
  }

  lemma {:induction false} EnemiesFit(dat: seq<Section>, ep: nat, areas: nat)
    requires areas <= QUEST_AREAS
    ensures forall k :: 0 <= k < |Enemies(dat, ep, areas)| ==> Fits(Enemies(dat, ep, areas)[k])
  {
    if areas > 0 {
      var a := areas - 1;
      EnemiesFit(dat, ep, a);
      var l, p := Latest(dat, 2, a), Place(ep, IsAlt(ep, a), a);
      if l.Some? {
        forall i, k | 0 <= i < |Records(l.value)| && 0 <= k < |Expander(p)(Records(l.value)[i])|
          ensures Fits(Expander(p)(Records(l.value)[i])[k])
        {
          RecordFits(Records(l.value)[i], p);
        }
        FlatMapAll(Expander(p), Records(l.value), e => Fits(e));
      }
    }
  }

  /** Objects are read back when the count before them is right. */
  lemma ObjectsReadBack(objects: seq<seq<Byte>>, rest: seq<Byte>, difficulty: nat, event: nat)
    requires AllOfSize(objects, OBJECT_SIZE) && |objects| < 0x1_0000_0000
    ensures Load(Store32(|objects|) + (Flat(objects) + rest), difficulty, event) ==
            LoadEnemies(objects, rest, difficulty, event)
  {
    Stored(|objects|);
    HeadRead(Store32(|objects|), Flat(objects) + rest);
    TakeBack(objects, OBJECT_SIZE, rest);
  }

  lemma EnemiesReadBack(objects: seq<seq<Byte>>, es: seq<Enemy>, difficulty: nat, event: nat)
    requires |es| < 0x1_0000_0000 && forall i :: 0 <= i < |es| ==> Fits(es[i])
    ensures LoadEnemies(objects, Store32(|es|) + Flat(EncodeAll(es)), difficulty, event) ==
            Loaded(objects, GameMaps.FixAll(es, difficulty, event, true))
  {
    var count, tail, pieces := Store32(|es|), Flat(EncodeAll(es)), EncodeAll(es);
    Stored(|es|);
    HeadRead(count, tail);
    assert tail == tail + [];
    TakeBack(pieces, ENEMY_SIZE, []);
    EnemiesRoundTrip(es);
  }

  lemma HeadRead(head: seq<Byte>, tail: seq<Byte>)
    requires |head| == 4
    ensures Le32(head + tail, 0) == Le32(head, 0) && (head + tail)[4..] == tail
  {
  }

  lemma RightCount(objects: seq<seq<Byte>>, es: seq<Enemy>, difficulty: nat, event: nat)
    requires AllOfSize(objects, OBJECT_SIZE) && |objects| < 0x1_0000_0000
    requires |es| < 0x1_0000_0000 && forall i :: 0 <= i < |es| ==> Fits(es[i])
    ensures Load(FileWith(|objects|, objects, es), difficulty, event) ==
            Loaded(objects, GameMaps.FixAll(es, difficulty, event, true))
  {
    var tail := Store32(|es|) + Flat(EncodeAll(es));
    FilePieces(Store32(|objects|), Flat(objects), Store32(|es|), Flat(EncodeAll(es)));
    ObjectsReadBack(objects, tail, difficulty, event);
    EnemiesReadBack(objects, es, difficulty, event);
  }

  lemma FilePieces(a: seq<Byte>, b: seq<Byte>, c: seq<Byte>, d: seq<Byte>)
    ensures a + b + c + d == a + (b + (c + d))
  {
  }

  lemma WrongCount(n: nat, objects: seq<seq<Byte>>, es: seq<Enemy>, difficulty: nat, event: nat)
    requires n != |objects| && n < 0x1_0000_0000
    ensures var l := Load(FileWith(n, objects, es), difficulty, event); l.Loaded? ==> l.objects != objects
  {
    var tail := Store32(|es|) + Flat(EncodeAll(es));
    FilePieces(Store32(n), Flat(objects), Store32(|es|), Flat(EncodeAll(es)));
    Stored(n);
    HeadRead(Store32(n), Flat(objects) + tail);
  }

  /** Loading what was cached gives the objects and the expanded enemies, area by area, fixed up for the game,
      exactly when no section that has objects was replaced: only then is the count of objects right. */
  lemma CacheRoundTrip(dat: seq<Section>, ep: nat, difficulty: nat, event: nat)
    requires GoodAreas(dat) && ObjectCount(dat) < 0x1_0000_0000 && |Enemies(dat, ep, QUEST_AREAS)| < 0x1_0000_0000
    ensures Load(CacheFile(dat, ep), difficulty, event) ==
              Loaded(Objects(dat, QUEST_AREAS), GameMaps.FixAll(Enemies(dat, ep, QUEST_AREAS), difficulty, event, true))
            <==> NoneReplaced(dat)
  {
    var objects, es := Objects(dat, QUEST_AREAS), Enemies(dat, ep, QUEST_AREAS);
    CountIncludesLost(dat);
    NothingLostUnlessReplaced(dat);
    EnemiesFit(dat, ep, QUEST_AREAS);
    assert CacheFile(dat, ep) == FileWith(ObjectCount(dat), objects, es);
    if NoneReplaced(dat) {
      RightCount(objects, es, difficulty, event);
    } else {
      WrongCount(ObjectCount(dat), objects, es, difficulty, event);
    }
  }

  // ---------------------------------------------------------------- writing and reading

  /** Which section each area uses, and how many objects there are in all sections. */
  ghost predicate Noted(dat: seq<Section>, count: nat, objects: seq<Option<seq<Byte>>>,
                        enemies: seq<Option<seq<Byte>>>)
  {
    && count == ObjectCount(dat) && |objects| == |enemies| == QUEST_AREAS
    && (forall a :: 0 <= a < QUEST_AREAS ==> objects[a] == Latest(dat, 1, a))
    && (forall a :: 0 <= a < QUEST_AREAS ==> enemies[a] == Latest(dat, 2, a))
  }

  method NoteSection(s: Section, ghost dat: seq<Section>, count: nat, objects: seq<Option<seq<Byte>>>,
                     enemies: seq<Option<seq<Byte>>>)
    returns (newCount: nat, newObjects: seq<Option<seq<Byte>>>, newEnemies: seq<Option<seq<Byte>>>)
    requires Noted(dat, count, objects, enemies) && (s.kind == 1 || s.kind == 2 ==> s.area < QUEST_AREAS)
    ensures Noted(dat + [s], newCount, newObjects, newEnemies)
  {
    assert (dat + [s])[..|dat|] == dat;
    newCount, newObjects, newEnemies := count, objects, enemies;
    if s.kind == 1 {
      newObjects := objects[s.area := Some(s.data)];
      newCount := count + |s.data| / OBJECT_SIZE;
    } else if s.kind == 2 {
      newEnemies := enemies[s.area := Some(s.data)];
    }
  }

  method ParseQuestObjects(dat: seq<Section>)
    returns (count: nat, objects: seq<Option<seq<Byte>>>, enemies: seq<Option<seq<Byte>>>)
    requires GoodAreas(Real(dat))
    ensures Noted(Real(dat), count, objects, enemies)
  {
    count, objects, enemies := 0, seq(QUEST_AREAS, _ => None), seq(QUEST_AREAS, _ => None);
    ghost var used := Real(dat);
    var i := 0;
    while i < |dat| && 1 <= dat[i].kind <= 3
      invariant 0 <= i <= |used| <= |dat| && used[i..] == Real(dat[i..])
      invariant Noted(used[..i], count, objects, enemies)
    {
      ghost var next := i + 1;
      RealStep(dat[i..]);
      assert used[i] == used[i..][0] == dat[i];
      assert dat[i..][1..] == dat[next..] && used[i..][1..] == used[next..];
      assert used[..next] == used[..i] + [dat[i]];
      count, objects, enemies := NoteSection(dat[i], used[..i], count, objects, enemies);
      i := i + 1;
    }
    assert used[..i] == used;
  }

  lemma RealStep(dat: seq<Section>)
    requires dat != [] && 1 <= dat[0].kind <= 3
    ensures Real(dat) != [] && Real(dat)[0] == dat[0] && Real(dat)[1..] == Real(dat[1..])
  {
  }

  /** The objects, area by area, as they are in the .dat file. */
  method WriteObjects(ghost dat: seq<Section>, objects: seq<Option<seq<Byte>>>) returns (bytes: seq<Byte>)
    requires forall a :: 0 <= a < |objects| ==> objects[a] == Latest(dat, 1, a)
    ensures bytes == Flat(Objects(dat, |objects|))
  {
    bytes := [];
    var a := 0;
    while a < |objects|
      invariant 0 <= a <= |objects| && bytes == Flat(Objects(dat, a))
    {
      ObjectsNext(dat, a, a + 1, objects[a]);
      if objects[a].Some? {
        var more := WritePieces(objects[a].value);
        bytes := bytes + more;
      }
      a := a + 1;
    }
  }

  lemma {:induction false} ObjectsNext(dat: seq<Section>, a: nat, next: nat, l: Option<seq<Byte>>)
    requires next == a + 1 && l == Latest(dat, 1, a)
    ensures Flat(Objects(dat, next)) ==
            Flat(Objects(dat, a)) + if l.None? then [] else Flat(Pieces(l.value, OBJECT_SIZE))
  {
    var more := if l.None? then [] else Pieces(l.value, OBJECT_SIZE);
    ObjectsUpTo(dat, next);
    FlatSum(Objects(dat, a), more);
  }

  lemma {:induction false} ObjectsUpTo(dat: seq<Section>, areas: nat)
    requires areas > 0
    ensures var a := areas - 1;
            var l := Latest(dat, 1, a);
            Objects(dat, areas) == Objects(dat, a) + if l.None? then [] else Pieces(l.value, OBJECT_SIZE)
  {
  }

  /** Object after object, as many as there are whole ones. */
  method WritePieces(data: seq<Byte>) returns (bytes: seq<Byte>)
    ensures bytes == Flat(Pieces(data, OBJECT_SIZE))
  {
    bytes := [];
    var j := 0;
    ghost var pieces := Pieces(data, OBJECT_SIZE);
    PiecesCounted(data);
    while j < |data| / OBJECT_SIZE
      invariant 0 <= j <= |pieces| && bytes == Flat(pieces[..j])
    {
      PieceAt(data, j);
      FlatStep(pieces, j);
      bytes := bytes + data[j * OBJECT_SIZE..(j + 1) * OBJECT_SIZE];
      j := j + 1;
    }
    assert pieces[..j] == pieces;
  }

  lemma {:induction false} PieceAt(data: seq<Byte>, j: nat)
    requires j < |data| / OBJECT_SIZE && |Pieces(data, OBJECT_SIZE)| == |data| / OBJECT_SIZE
    ensures Pieces(data, OBJECT_SIZE)[j] == data[j * OBJECT_SIZE..(j + 1) * OBJECT_SIZE]
    decreases j
  {
    if j > 0 {
      var rest, i := data[OBJECT_SIZE..], j - 1;
      PiecesCounted(rest);
      PieceAt(rest, i);
      assert Pieces(data, OBJECT_SIZE)[j] == Pieces(rest, OBJECT_SIZE)[i];
      Subslice(data, OBJECT_SIZE, |data|, i * OBJECT_SIZE, j * OBJECT_SIZE);
    }
  }

  /** The enemies, area by area, and how many they are. */
  method WriteEnemies(ghost dat: seq<Section>, enemies: seq<Option<seq<Byte>>>, ep: nat)
    returns (bytes: seq<Byte>, index: nat)
    requires forall a :: 0 <= a < |enemies| ==> enemies[a] == Latest(dat, 2, a)
    requires forall a :: 0 <= a < |enemies| ==> |AreaEnemies(dat, ep, a)| <= MAX_ENEMIES
    ensures var es := Enemies(dat, ep, |enemies|); bytes == Flat(EncodeAll(es)) && index == |es|
  {
    bytes, index := [], 0;
    var a := 0;
    while a < |enemies|
      invariant 0 <= a <= |enemies|
      invariant bytes == Flat(EncodeAll(Enemies(dat, ep, a))) && index == |Enemies(dat, ep, a)|
    {
      ghost var next := a + 1;
      EnemiesUpTo(dat, ep, next);
      SumEncoded(Enemies(dat, ep, a), AreaEnemies(dat, ep, a));
      if enemies[a].Some? {
        var more, count := WriteArea(enemies[a].value, Place(ep, IsAlt(ep, a), a), AreaEnemies(dat, ep, a));
        bytes, index := bytes + more, index + count;
      }
      a := a + 1;
    }
  }

  lemma {:induction false} EnemiesUpTo(dat: seq<Section>, ep: nat, areas: nat)
    requires areas > 0
    ensures var a := areas - 1; Enemies(dat, ep, areas) == Enemies(dat, ep, a) + AreaEnemies(dat, ep, a)
  {
  }

  lemma SumEncoded(a: seq<Enemy>, b: seq<Enemy>)
    ensures Flat(EncodeAll(a + b)) == Flat(EncodeAll(a)) + Flat(EncodeAll(b))
    ensures b == [] ==> Flat(EncodeAll(a + b)) == Flat(EncodeAll(a))
  {
    EncodeSum(a, b);
    FlatSum(EncodeAll(a), EncodeAll(b));
    if b == [] {
      assert a + b == a;
    }
  }

  lemma EncodeSum(a: seq<Enemy>, b: seq<Enemy>)
    ensures EncodeAll(a + b) == EncodeAll(a) + EncodeAll(b)
  {
  }

  method WriteArea(data: seq<Byte>, p: Place, ghost es: seq<Enemy>) returns (bytes: seq<Byte>, count: nat)
    requires es == ExpandAll(Records(data), p) && |es| <= MAX_ENEMIES
    ensures bytes == Flat(EncodeAll(es)) && count == |es|
  {
    var gen;
    gen, count := ParseMap(Records(data), p);
    bytes := WriteAll(gen, count);
  }

  method WriteAll(gen: array<Enemy>, count: nat) returns (bytes: seq<Byte>)
    requires count <= gen.Length
    ensures bytes == Flat(EncodeAll(gen[..count]))
  {
    bytes := [];
    var i := 0;
    while i < count
      invariant 0 <= i <= count && bytes == Flat(EncodeAll(gen[..i]))
    {
      ghost var next := i + 1;
      assert EncodeAll(gen[..next]) == EncodeAll(gen[..i]) + [EncodeEnemy(gen[i])];
      FlatAppend(EncodeAll(gen[..i]), EncodeEnemy(gen[i]));
      bytes := bytes + EncodeEnemy(gen[i]);
      i := i + 1;
    }
  }

  /** Write the cache. The number of enemies is not known before they have been written, so its place is left
      empty at first and filled in at the end. Each area's enemies must fit the space for them. */
  method CacheQuestEnemies(dat: seq<Section>, ep: nat) returns (file: seq<Byte>)
    requires GoodAreas(Real(dat))
    requires forall a :: 0 <= a < QUEST_AREAS ==> |AreaEnemies(Real(dat), ep, a)| <= MAX_ENEMIES
    ensures file == CacheFile(Real(dat), ep)
  {
    var count, objects, enemies := ParseQuestObjects(dat);
    ghost var used := Real(dat);
    var objectBytes := WriteObjects(used, objects);
    file := Store32(count) + objectBytes;
    var offs := |file|;
    file := file + [0, 0, 0, 0];
    var enemyBytes, index := WriteEnemies(used, enemies, ep);
    file := file + enemyBytes;
    file := file[..offs] + Store32(index) + file[offs + 4..];
    BackPatched(Store32(count) + objectBytes, Store32(index), enemyBytes);
  }

  lemma BackPatched(front: seq<Byte>, count: seq<Byte>, back: seq<Byte>)
    requires |count| == 4
    ensures var file := front + [0, 0, 0, 0] + back;
            file[..|front|] + count + file[|front| + 4..] == front + count + back
  {
    var file := front + [0, 0, 0, 0] + back;
    assert file[..|front|] == front && file[|front| + 4..] == back;
  }

  /** Read the cache. */
  method LoadQuestEnemies(file: seq<Byte>, difficulty: nat, event: nat)
    returns (rc: int, objects: seq<seq<Byte>>, enemies: array?<Enemy>)
    ensures match Load(file, difficulty, event)
            case Failed(code) => rc == code && enemies == null
            case Loaded(os, es) => rc == 0 && objects == os && enemies != null && enemies[..] == es
  {
    objects, enemies := [], null;
    if |file| < 4 {
      return -2, [], null;
    }
    var count := Le32(file, 0);
    var ok, rest;
    ok, objects, rest := ReadPieces(file[4..], OBJECT_SIZE, count);
    if !ok {
      return -4, [], null;
    }
    if |rest| < 4 {
      return -5, [], null;
    }
    var n := Le32(rest, 0);
    var pieces, tail;
    ok, pieces, tail := ReadPieces(rest[4..], ENEMY_SIZE, n);
    if !ok {
      return -7, [], null;
    }
    var en := new Enemy[n](i requires 0 <= i < n => DecodeEnemy(pieces[i]));
    assert en[..] == DecodeAll(pieces);
    GameMaps.FixUp(en, difficulty, event, true);
    return 0, objects, en;
  }

  /** Read `n` pieces of `size` bytes each. */
  method ReadPieces(data: seq<Byte>, size: nat, n: nat) returns (ok: bool, pieces: seq<seq<Byte>>, rest: seq<Byte>)
    requires size > 0
    ensures ok <==> TakePieces(data, size, n).Some?
    ensures ok ==> TakePieces(data, size, n) == Some((pieces, rest))
  {
    pieces, rest := [], data;
    var i := 0;
    assert Continues(TakePieces(data, size, n), pieces, TakePieces(rest, size, n));
    while i < n
      invariant 0 <= i <= n && |pieces| == i
      invariant Continues(TakePieces(data, size, n), pieces, TakePieces(rest, size, n - i))
    {
      TakeOne(TakePieces(data, size, n), rest, size, n - i, n - (i + 1), pieces);
      if |rest| < size {
        return false, [], [];
      }
      pieces, rest := pieces + [rest[..size]], rest[size..];
      i := i + 1;
    }
    ok := true;
    assert pieces + [] == pieces;
  }

  /** `whole` is what `pieces` followed by `rest` comes to. */
  ghost predicate Continues(whole: Option<(seq<seq<Byte>>, seq<Byte>)>, pieces: seq<seq<Byte>>,
                            rest: Option<(seq<seq<Byte>>, seq<Byte>)>) {
    && (whole.None? <==> rest.None?)
    && (rest.Some? ==> whole.value.1 == rest.value.1)
    && (rest.Some? ==> whole.value.0 == pieces + rest.value.0)
  }

  lemma TakeOne(whole: Option<(seq<seq<Byte>>, seq<Byte>)>, rest: seq<Byte>, size: nat, n: nat, m: nat,
                pieces: seq<seq<Byte>>)
    requires 0 < n == m + 1 && Continues(whole, pieces, TakePieces(rest, size, n))
    ensures if size <= |rest| then Continues(whole, pieces + [rest[..size]], TakePieces(rest[size..], size, m))
            else whole.None?
  {
    if size <= |rest| {
      var s := TakePieces(rest[size..], size, m);
      if s.Some? {
        Regroup(pieces, [rest[..size]], s.value.0);
      }
    }
  }
}
