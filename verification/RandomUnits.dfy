/**
  The table random units are drawn from (src/pmtdata.c:909-991, 1897-1914; the same algorithm serves the
  Gamecube and Blue Burst data). Units are listed by stars, so that those with at most so many are a prefix.
 */
module RandomUnits {
  /** Of a unit: its stars, the size of one "+", and which stat it affects. */
  datatype Unit = Unit(star: nat, pmRange: nat, stat: nat)

  /** A unit as it may drop: which one, and by how much its stat is changed. */
  datatype Entry = Entry(unit: nat, boost: int)

  /** The fallback, a plain Knight/Power, which is unit 0. */
  const KNIGHT_POWER := Entry(0, 0)

  /** Stars and ranges are bytes. */
  ghost predicate Bytes(units: seq<Unit>) {
    forall j :: 0 <= j < |units| ==> units[j].star < 256 && units[j].pmRange < 256
  }

  predicate Boostable(u: Unit, norestrict: bool) {
    u.pmRange != 0 && (u.stat <= 3 || norestrict)
  }

  // ---------------------------------------------------------------- the simple filter

  /** A "-" or "--" costs a unit a star, a "+" or "++" gives it one. */
  function Level(u: Unit, boost: int): int {
    if boost < 0 then u.star - 1 else if boost > 0 then u.star + 1 else u.star
  }

  predicate Allowed(u: Unit, boost: int, norestrict: bool) {
    boost == 0 ||
    (&& Boostable(u, norestrict)
     && (boost == u.pmRange || boost == 2 * u.pmRange || boost == -1 * u.pmRange || boost == -2 * u.pmRange))
  }

  /** Something that may drop when `s` stars are the limit. */
  predicate Admissible(units: seq<Unit>, norestrict: bool, e: Entry, s: int) {
    e.unit < |units| && Allowed(units[e.unit], e.boost, norestrict) && 0 <= Level(units[e.unit], e.boost) <= s
  }

  // ---------------------------------------------------------------- the table

  /** What unit `j` contributes to level `i`, in the order of the table. */
  function AtLevel(u: Unit, j: nat, norestrict: bool, i: nat): (entries: seq<Entry>)
    ensures |entries| <= 2
  {
    if u.star - 1 == i && Boostable(u, norestrict) then [Entry(j, -2 * u.pmRange), Entry(j, -1 * u.pmRange)]
    else if u.star == i then [Entry(j, 0)]
    else if u.star + 1 == i && Boostable(u, norestrict) then [Entry(j, 2 * u.pmRange), Entry(j, u.pmRange)]
    else []
  }

  /** Level `i`, as far as the first `n` units go. */
  ghost function Row(units: seq<Unit>, norestrict: bool, i: nat, n: nat): seq<Entry>
    requires n <= |units|
  {
    if n == 0 then [] else Row(units, norestrict, i, n - 1) + AtLevel(units[n - 1], n - 1, norestrict, i)
  }

  /** The fallback and the levels below `levels`. */
  ghost function Table(units: seq<Unit>, norestrict: bool, levels: nat): (t: seq<Entry>)
    ensures |t| >= 1 && t[0] == KNIGHT_POWER
  {
    if levels == 0 then [KNIGHT_POWER]
    else Table(units, norestrict, levels - 1) + Row(units, norestrict, levels - 1, |units|)
  }

  // ---------------------------------------------------------------- the table is the filter

  ghost function Once(b: bool): nat {
    if b then 1 else 0
  }

  /** How often `e` occurs in `t`. */
  ghost function Tally(t: seq<Entry>, e: Entry): nat {
    if t == [] then 0 else Tally(t[..|t| - 1], e) + Once(t[|t| - 1] == e)
  }

  lemma {:induction false} TallyIsMultiplicity(t: seq<Entry>, e: Entry)
    ensures Tally(t, e) == multiset(t)[e]
  {
    if t != [] {
      TallyIsMultiplicity(t[..|t| - 1], e);
      assert t == t[..|t| - 1] + [t[|t| - 1]];
    }
  }

  lemma {:induction false} TallySum(s: seq<Entry>, t: seq<Entry>, e: Entry)
    ensures Tally(s + t, e) == Tally(s, e) + Tally(t, e)
  {
    if t == [] {
      assert s + t == s;
    } else {
      TallySum(s, t[..|t| - 1], e);
      assert (s + t)[..|s + t| - 1] == s + t[..|t| - 1];
    }
  }

  lemma AtLevelTally(u: Unit, j: nat, norestrict: bool, i: nat, e: Entry)
    ensures Tally(AtLevel(u, j, norestrict, i), e) ==
            Once(e.unit == j && Allowed(u, e.boost, norestrict) && Level(u, e.boost) == i)
  {
    var t := AtLevel(u, j, norestrict, i);
    if t != [] {
      assert Tally([t[0]], e) == Tally([], e) + Once(t[0] == e) by { assert [t[0]][..0] == []; }
    }
    if |t| == 2 {
      assert t[..1] == [t[0]];
    }
  }

  /** `e` is among the first `n` units, and has exactly `i` stars. */
  predicate AtStar(units: seq<Unit>, norestrict: bool, e: Entry, i: int, n: nat)
    requires n <= |units|
  {
    e.unit < n && Allowed(units[e.unit], e.boost, norestrict) && Level(units[e.unit], e.boost) == i
  }

  lemma {:induction false} RowTally(units: seq<Unit>, norestrict: bool, i: nat, n: nat, e: Entry)
    requires n <= |units|
    ensures Tally(Row(units, norestrict, i, n), e) == Once(AtStar(units, norestrict, e, i, n))
  {
    if n > 0 {
      RowTally(units, norestrict, i, n - 1, e);
      AtLevelTally(units[n - 1], n - 1, norestrict, i, e);
      TallySum(Row(units, norestrict, i, n - 1), AtLevel(units[n - 1], n - 1, norestrict, i), e);
    }
  }

  lemma OneMoreStar(units: seq<Unit>, norestrict: bool, e: Entry, s: int)
    requires 0 <= s
    ensures Once(Admissible(units, norestrict, e, s)) ==
            Once(Admissible(units, norestrict, e, s - 1)) + Once(AtStar(units, norestrict, e, s, |units|))
  {
  }

  lemma {:induction false} TableTally(units: seq<Unit>, norestrict: bool, levels: nat, e: Entry)
    ensures Tally(Table(units, norestrict, levels), e) ==
            Once(e == KNIGHT_POWER) + Once(Admissible(units, norestrict, e, levels - 1))
  {
    if levels > 0 {
      var s := levels - 1;
      TableTally(units, norestrict, s, e);
      TableStep(units, norestrict, s, e);
      OneMoreStar(units, norestrict, e, s);
    }
  }

  lemma TableStep(units: seq<Unit>, norestrict: bool, s: nat, e: Entry)
    ensures Tally(Table(units, norestrict, s + 1), e) ==
            Tally(Table(units, norestrict, s), e) + Once(AtStar(units, norestrict, e, s, |units|))
  {
    RowTally(units, norestrict, s, |units|, e);
    TallySum(Table(units, norestrict, s), Row(units, norestrict, s, |units|), e);
  }

  /** Up to a level, the table holds the fallback and, exactly once, everything that may drop with at most that
      many stars, and nothing else. */
  lemma TableIsFilter(units: seq<Unit>, norestrict: bool, levels: nat, e: Entry)
    ensures multiset(Table(units, norestrict, levels))[e] ==
            (if e == KNIGHT_POWER then 1 else 0) + (if Admissible(units, norestrict, e, levels - 1) then 1 else 0)
  {
    TableTally(units, norestrict, levels, e);
    TallyIsMultiplicity(Table(units, norestrict, levels), e);
  }

  // ---------------------------------------------------------------- sizes

  /** How many entries a unit has below level `levels`. */
  function UnitSize(u: Unit, norestrict: bool, levels: nat): (n: nat)
    ensures n <= 5
  {
    (if 0 <= u.star - 1 < levels && Boostable(u, norestrict) then 2 else 0) + (if u.star < levels then 1 else 0) +
    (if u.star + 1 < levels && Boostable(u, norestrict) then 2 else 0)
  }

  ghost function Size(units: seq<Unit>, norestrict: bool, levels: nat, n: nat): (size: nat)
    requires n <= |units|
    ensures size <= 5 * n
  {
    if n == 0 then 0 else Size(units, norestrict, levels, n - 1) + UnitSize(units[n - 1], norestrict, levels)
  }

  lemma {:induction false} RowSize(units: seq<Unit>, norestrict: bool, i: nat, n: nat)
    requires n <= |units|
    ensures Size(units, norestrict, i + 1, n) == Size(units, norestrict, i, n) + |Row(units, norestrict, i, n)|
  {
    if n > 0 {
      var m, next := n - 1, i + 1;
      RowSize(units, norestrict, i, m);
      assert UnitSize(units[m], norestrict, next) ==
             UnitSize(units[m], norestrict, i) + |AtLevel(units[m], m, norestrict, i)|;
    }
  }

  lemma {:induction false} SizeZero(units: seq<Unit>, norestrict: bool, n: nat)
    requires n <= |units|
    ensures Size(units, norestrict, 0, n) == 0
  {
    if n > 0 {
      SizeZero(units, norestrict, n - 1);
    }
  }

  /** Over all levels together a unit contributes at most five entries. */
  lemma {:induction false} TableFits(units: seq<Unit>, norestrict: bool, levels: nat)
    ensures |Table(units, norestrict, levels)| == 1 + Size(units, norestrict, levels, |units|) <= 5 * |units| + 1
  {
    if levels == 0 {
      SizeZero(units, norestrict, |units|);
    } else {
      var s := levels - 1;
      TableFits(units, norestrict, s);
      RowSize(units, norestrict, s, |units|);
    }
  }

  lemma {:induction false} RowGrows(units: seq<Unit>, norestrict: bool, i: nat, n: nat, m: nat)
    requires n <= m <= |units|
    ensures Row(units, norestrict, i, n) <= Row(units, norestrict, i, m)
  {
    if n < m {
      RowGrows(units, norestrict, i, n, m - 1);
    }
  }

  // ---------------------------------------------------------------- building it

  ghost function MaxStar(units: seq<Unit>): nat {
    if units == [] then 0
    else
      var m := MaxStar(units[..|units| - 1]);
      if units[|units| - 1].star > m then units[|units| - 1].star else m
  }

  lemma {:induction false} MaxStarIsMax(units: seq<Unit>)
    ensures forall j :: 0 <= j < |units| ==> units[j].star <= MaxStar(units)
    ensures units != [] ==> exists j :: 0 <= j < |units| && units[j].star == MaxStar(units)
  {
    if units != [] {
      var last := |units| - 1;
      var init := units[..last];
      MaxStarIsMax(init);
      if units[last].star <= MaxStar(init) {
        if init != [] {
          var j :| 0 <= j < |init| && init[j].star == MaxStar(init);
          assert units[j].star == MaxStar(units);
        } else {
          assert units[last].star == 0;
        }
      }
    }
  }

  /** One more than the largest number of stars, in a byte. */
  ghost function TopLevel(units: seq<Unit>): nat {
    (MaxStar(units) + 1) % 256
  }

  /** The byte does not overflow, and the table is complete, exactly when no unit has 255 stars. */
  lemma CompleteBelow255(units: seq<Unit>, norestrict: bool)
    requires Bytes(units)
    ensures (forall e: Entry, s: int :: Admissible(units, norestrict, e, s) ==>
               Admissible(units, norestrict, e, TopLevel(units))) <==>
            forall j :: 0 <= j < |units| ==> units[j].star < 255
  {
    MaxStarIsMax(units);
    if MaxStar(units) == 255 {
      var j :| 0 <= j < |units| && units[j].star == 255;
      assert Admissible(units, norestrict, Entry(j, 0), 255) && !Admissible(units, norestrict, Entry(j, 0), 0);
    }
  }

  method HighestStar(units: seq<Unit>) returns (max: nat)
    ensures max == MaxStar(units)
  {
    max := 0;
    var i := 0;
    while i < |units|
      invariant 0 <= i <= |units| && max == MaxStar(units[..i])
    {
      assert units[..i + 1][..i] == units[..i];
      if units[i].star > max {
        max := units[i].star;
      }
      i := i + 1;
    }
    assert units[..i] == units;
  }

  /** `withStars[s]` is how many entries of `byStars` have at most `s` stars, and these come first. */
  ghost predicate Built(units: seq<Unit>, norestrict: bool, byStars: seq<Entry>, withStars: seq<nat>) {
    && |withStars| == TopLevel(units) + 1 && |byStars| == 5 * |units| + 1
    && forall s :: 0 <= s < |withStars| ==>
         1 <= withStars[s] <= |byStars| && byStars[..withStars[s]] == Table(units, norestrict, s + 1)
  }

  method BuildUnits(units: seq<Unit>, norestrict: bool) returns (byStars: array<Entry>, withStars: array<nat>)
    requires Bytes(units)
    ensures Built(units, norestrict, byStars[..], withStars[..])
  {
    var max := HighestStar(units);
    max := (max + 1) % 256;
    byStars := new Entry[5 * |units| + 1];
    withStars := new nat[max + 1];
    byStars[0], withStars[0] := KNIGHT_POWER, 1;
    var i, k := 0, 1;
    assert Filled(units, norestrict, byStars[..], withStars[..], 0, 1);
    while i <= max
      invariant 0 <= i <= max + 1 && withStars.Length == max + 1 && byStars.Length == 5 * |units| + 1
      invariant Filled(units, norestrict, byStars[..], withStars[..], i, k)
    {
      ghost var table, counts, start := byStars[..], withStars[..], k;
      k := FillLevel(units, norestrict, i, byStars, k);
      withStars[i] := k;
      FilledFurther(units, norestrict, table, counts, i, start, byStars[..], k);
      i := i + 1;
    }
  }

  /** The levels below `i` are there, and take up `k` entries. */
  ghost predicate Filled(units: seq<Unit>, norestrict: bool, byStars: seq<Entry>, withStars: seq<nat>, i: nat, k: nat) {
    && 1 <= k <= |byStars| && i <= |withStars| && byStars[..k] == Table(units, norestrict, i)
    && forall s :: 0 <= s < i ==> 1 <= withStars[s] <= k && byStars[..withStars[s]] == Table(units, norestrict, s + 1)
  }

  lemma FilledFurther(units: seq<Unit>, norestrict: bool, byStars: seq<Entry>, withStars: seq<nat>, i: nat,
                      start: nat, more: seq<Entry>, k: nat)
    requires i < |withStars| && Grown(units, norestrict, byStars, withStars, i, start, more, k)
    ensures Filled(units, norestrict, more, withStars[i := k], i + 1, k)
  {
    forall s | 0 <= s < i
      ensures 1 <= withStars[s] <= k && more[..withStars[s]] == Table(units, norestrict, s + 1)
    {
      var n := withStars[s];
      assert 1 <= n <= start && byStars[..n] == Table(units, norestrict, s + 1);
      SamePrefix(more, byStars, start, n);
    }
  }

  lemma SamePrefix<T>(s: seq<T>, t: seq<T>, n: nat, m: nat)
    requires m <= n <= |s| && n <= |t| && s[..n] == t[..n]
    ensures s[..m] == t[..m]
  {
    assert s[..n][..m] == s[..m] && t[..n][..m] == t[..m];
  }

  ghost predicate Grown(units: seq<Unit>, norestrict: bool, byStars: seq<Entry>, withStars: seq<nat>, i: nat,
                        start: nat, more: seq<Entry>, k: nat)
  {
    && Filled(units, norestrict, byStars, withStars, i, start) && start <= k <= |more| && |more| == |byStars|
    && more[..start] == byStars[..start] && more[..k] == Table(units, norestrict, i + 1)
  }

  /** The table in the middle of level `i`. */
  ghost function Partial(units: seq<Unit>, norestrict: bool, i: nat, j: nat): seq<Entry>
    requires j <= |units|
  {
    Table(units, norestrict, i) + Row(units, norestrict, i, j)
  }

  lemma RowStep(units: seq<Unit>, norestrict: bool, i: nat, j: nat, m: nat)
    requires m == j + 1 <= |units|
    ensures Row(units, norestrict, i, m) == Row(units, norestrict, i, j) + AtLevel(units[j], j, norestrict, i)
  {
  }

  lemma LevelStep(units: seq<Unit>, norestrict: bool, i: nat, next: nat)
    requires next == i + 1
    ensures Table(units, norestrict, next) == Table(units, norestrict, i) + Row(units, norestrict, i, |units|)
  {
  }

  lemma PartialFits(units: seq<Unit>, norestrict: bool, i: nat, m: nat)
    requires m <= |units|
    ensures |Partial(units, norestrict, i, m)| <= 5 * |units| + 1
  {
    var next := i + 1;
    TableFits(units, norestrict, next);
    RowGrows(units, norestrict, i, m, |units|);
    LevelStep(units, norestrict, i, next);
  }

  /** There is always room for what comes next. */
  lemma PartialGrows(units: seq<Unit>, norestrict: bool, i: nat, j: nat, m: nat)
    requires m == j + 1 <= |units|
    ensures Partial(units, norestrict, i, m) == Partial(units, norestrict, i, j) + AtLevel(units[j], j, norestrict, i)
    ensures |Partial(units, norestrict, i, m)| <= 5 * |units| + 1
  {
    RowStep(units, norestrict, i, j, m);
    PartialFits(units, norestrict, i, m);
    Appended(Table(units, norestrict, i), Row(units, norestrict, i, j), AtLevel(units[j], j, norestrict, i));
  }

  lemma Appended(a: seq<Entry>, b: seq<Entry>, c: seq<Entry>)
    ensures a + (b + c) == (a + b) + c
  {
  }

  lemma PartialEnds(units: seq<Unit>, norestrict: bool, i: nat)
    ensures Partial(units, norestrict, i, 0) == Table(units, norestrict, i)
    ensures Partial(units, norestrict, i, |units|) == Table(units, norestrict, i + 1)
  {
  }

  /** One level, written behind the `start` entries already there. */
  method FillLevel(units: seq<Unit>, norestrict: bool, i: nat, byStars: array<Entry>, start: nat) returns (k: nat)
    requires byStars.Length == 5 * |units| + 1 && start <= byStars.Length
    requires byStars[..start] == Table(units, norestrict, i)
    modifies byStars
    ensures start <= k <= byStars.Length && byStars[..start] == old(byStars[..start])
    ensures byStars[..k] == Table(units, norestrict, i + 1)
  {
    k := start;
    PartialEnds(units, norestrict, i);
    ghost var table := byStars[..start];
    var j := 0;
    while j < |units|
      invariant 0 <= j <= |units| && start <= k <= byStars.Length
      invariant byStars[..k] == Partial(units, norestrict, i, j) && byStars[..start] == table
    {
      PartialGrows(units, norestrict, i, j, j + 1);
      k := FillUnit(units[j], j, norestrict, i, byStars, k);
      j := j + 1;
    }
  }

  /** What unit `j` contributes to level `i`, written behind the first `start` entries. */
  method FillUnit(u: Unit, j: nat, norestrict: bool, i: nat, byStars: array<Entry>, start: nat) returns (k: nat)
    requires start + |AtLevel(u, j, norestrict, i)| <= byStars.Length
    modifies byStars
    ensures k == start + |AtLevel(u, j, norestrict, i)|
    ensures forall x :: 0 <= x < start ==> byStars[x] == old(byStars[x])
    ensures byStars[..k] == old(byStars[..start]) + AtLevel(u, j, norestrict, i)
  {
    k := start;
    if u.star - 1 == i && u.pmRange != 0 && (u.stat <= 3 || norestrict) {
      byStars[k] := Entry(j, -2 * u.pmRange);
      k := k + 1;
      byStars[k] := Entry(j, -1 * u.pmRange);
      k := k + 1;
    } else if u.star == i {
      byStars[k] := Entry(j, 0);
      k := k + 1;
    } else if u.star + 1 == i && u.pmRange != 0 && (u.stat <= 3 || norestrict) {
      byStars[k] := Entry(j, 2 * u.pmRange);
      k := k + 1;
      byStars[k] := Entry(j, u.pmRange);
      k := k + 1;
    }
  }

  lemma {:induction false} TableGrows(units: seq<Unit>, norestrict: bool, levels: nat, more: nat)
    requires levels <= more
    ensures Table(units, norestrict, levels) <= Table(units, norestrict, more)
  {
    if levels < more {
      var s := more - 1;
      TableGrows(units, norestrict, levels, s);
    }
  }

  /** The counts never fall, and are at least 1, so that drawing never divides by 0. */
  lemma CountsGrow(units: seq<Unit>, norestrict: bool, byStars: seq<Entry>, withStars: seq<nat>)
    requires Built(units, norestrict, byStars, withStars)
    ensures forall s, t :: 0 <= s <= t < |withStars| ==> 1 <= withStars[s] <= withStars[t] <= 5 * |units| + 1
  {
    forall s, t | 0 <= s <= t < |withStars| ensures 1 <= withStars[s] <= withStars[t] <= 5 * |units| + 1 {
      var s1, t1 := s + 1, t + 1;
      TableGrows(units, norestrict, s1, t1);
      assert |byStars[..withStars[s]]| == withStars[s] && |byStars[..withStars[t]]| == withStars[t];
    }
  }

  // ---------------------------------------------------------------- drawing from it

  /** What can be drawn is the fallback and all that the filter lets through. */
  lemma TableHolds(units: seq<Unit>, norestrict: bool, levels: nat, e: Entry)
    ensures e in Table(units, norestrict, levels) <==> e == KNIGHT_POWER || Admissible(units, norestrict, e, levels - 1)
  {
    TableIsFilter(units, norestrict, levels, e);
    assert e in Table(units, norestrict, levels) <==> e in multiset(Table(units, norestrict, levels));
  }

  /** Which forms of unit `j` can be drawn with at most `levels - 1` stars: the plain one from its own stars on, the two
      weaker ones from one star less, the two stronger ones from one star more, and these four only if the unit can be
      changed at all. Nothing else can be drawn. */
  lemma FormsOfAUnit(units: seq<Unit>, norestrict: bool, levels: nat, j: nat, boost: int)
    requires j < |units|
    ensures var u, t := units[j], Table(units, norestrict, levels);
            Entry(j, boost) in t <==>
              || (j == 0 && boost == 0)
              || (boost == 0 && u.star < levels)
              || (&& u.pmRange != 0 && (norestrict || u.stat <= 3)
                  && (|| ((boost == u.pmRange || boost == 2 * u.pmRange) && u.star + 1 < levels)
                      || ((boost == -1 * u.pmRange || boost == -2 * u.pmRange) && 1 <= u.star <= levels)))
  {
    TableHolds(units, norestrict, levels, Entry(j, boost));
  }

  /** The first two words of the item: class and index, and the boost in two's complement. */
  function Words(e: Entry): (nat, nat) {
    (0x301 + (e.unit % 0x10000) * 0x10000, (e.boost % 0x10000) * 0x10000)
  }

  /** Different entries are different items. */
  lemma WordsAreDistinct(a: Entry, b: Entry)
    requires a.unit < 0x10000 && b.unit < 0x10000 && -0x8000 <= a.boost < 0x8000 && -0x8000 <= b.boost < 0x8000
    ensures Words(a) == Words(b) <==> a == b
  {
  }

  /** Read as 16-bit numbers, the words say what the item is: a unit, which one, and, signed, by how much it differs. */
  lemma WordsSayWhat(e: Entry)
    requires e.unit < 0x10000 && -0x8000 <= e.boost < 0x8000
    ensures var (first, second) := Words(e);
            var high := second / 0x10000;
            && first % 0x10000 == 0x0301 && first / 0x10000 == e.unit
            && second % 0x10000 == 0 && high < 0x10000 && e.boost == (if high < 0x8000 then high else high - 0x10000)
  {
  }

  /** The fast form of drawing a unit of at most `max` stars: one look into the prefix that holds them. */
  method RandomUnit(ghost units: seq<Unit>, ghost norestrict: bool, byStars: array<Entry>, withStars: array<nat>,
                    max: nat, rnd: nat) returns (e: Entry, item: seq<nat>)
    requires Built(units, norestrict, byStars[..], withStars[..])
    ensures var limit := if max > TopLevel(units) then TopLevel(units) else max;
            var table := Table(units, norestrict, limit + 1);
            && e == table[rnd % |table|]
            && (e == KNIGHT_POWER || Admissible(units, norestrict, e, limit))
    ensures item == [Words(e).0, Words(e).1, 0, 0]
  {
    var limit := max;
    if limit > withStars.Length - 1 {
      limit := withStars.Length - 1;
    }
    ghost var levels := limit + 1;
    var n := withStars[limit];
    assert withStars[..][limit] == n && byStars[..][..n] == Table(units, norestrict, levels);
    assert byStars[..][..n] == byStars[..n];
    e := byStars[rnd % n];
    assert byStars[..n][rnd % n] == e;
    TableHolds(units, norestrict, levels, e);
    item := [Words(e).0, Words(e).1, 0, 0];
  }
}