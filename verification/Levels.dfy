/**
  Experience and levels (src/clients.c:723-874).
 */
module Levels {
  /** What a level gives, and the experience it takes. */
  datatype Entry = Entry(gain: Stats, exp: nat)

  /** Attack, mind, evasion, hit points, defence and accuracy. */
  datatype Stats = Stats(atp: nat, mst: nat, evp: nat, hp: nat, dfp: nat, ata: nat)

  const TOP_LEVEL := 199
  const WORD := 0x1_0000_0000

  function Plus(a: Stats, b: Stats): Stats {
    Stats(a.atp + b.atp, a.mst + b.mst, a.evp + b.evp, a.hp + b.hp, a.dfp + b.dfp, a.ata + b.ata)
  }

  /** Stats are 16 bits wide. */
  function Wrap(a: Stats): Stats {
    Stats(a.atp % 0x10000, a.mst % 0x10000, a.evp % 0x10000, a.hp % 0x10000, a.dfp % 0x10000, a.ata % 0x10000)
  }

  datatype Hero = Hero(level: nat, exp: nat, stats: Stats)

  // ---------------------------------------------------------------- sums of gains

  /** What the levels above `lo`, up to `hi`, give together. */
  ghost function Gains(table: seq<Entry>, lo: nat, hi: nat): Stats
    requires lo <= hi < |table|
    decreases hi - lo
  {
    if lo == hi then Stats(0, 0, 0, 0, 0, 0) else var prev := hi - 1; Plus(Gains(table, lo, prev), table[hi].gain)
  }

  lemma {:induction false} GainsAdd(table: seq<Entry>, a: nat, b: nat, c: nat)
    requires a <= b <= c < |table|
    ensures Gains(table, a, c) == Plus(Gains(table, a, b), Gains(table, b, c))
    decreases c - b
  {
    if b < c {
      var prev := c - 1;
      GainsAdd(table, a, b, prev);
    }
  }

  lemma WrapPlus(a: Stats, b: Stats)
    ensures Wrap(Plus(Wrap(a), b)) == Wrap(Plus(a, b))
  {
    ModAdd(a.atp, b.atp);
    ModAdd(a.mst, b.mst);
    ModAdd(a.evp, b.evp);
    ModAdd(a.hp, b.hp);
    ModAdd(a.dfp, b.dfp);
    ModAdd(a.ata, b.ata);
  }

  lemma ModAdd(a: nat, b: nat)
    ensures (a % 0x10000 + b) % 0x10000 == (a + b) % 0x10000
  {
  }

  // ---------------------------------------------------------------- how far experience gets one

  /** The level reached from `level` with `exp` in all: one after the other, as long as the next one's
      threshold is met. */
  ghost function Reach(table: seq<Entry>, level: nat, exp: nat): (r: nat)
    requires |table| == TOP_LEVEL + 1
    ensures level <= r && (level <= TOP_LEVEL ==> r <= TOP_LEVEL)
    decreases TOP_LEVEL - level
  {
    if level < TOP_LEVEL && table[level + 1].exp <= exp then Reach(table, level + 1, exp) else level
  }

  lemma {:induction false} ReachFacts(table: seq<Entry>, level: nat, exp: nat)
    requires |table| == TOP_LEVEL + 1 && level <= TOP_LEVEL
    ensures var r := Reach(table, level, exp);
            (forall k :: level < k <= r ==> table[k].exp <= exp) && (r < TOP_LEVEL ==> exp < table[r + 1].exp)
    decreases TOP_LEVEL - level
  {
    if level < TOP_LEVEL && table[level + 1].exp <= exp {
      ReachFacts(table, level + 1, exp);
    }
  }

  /** It is the end of the longest unbroken run of thresholds met. */
  lemma ReachIsMaximal(table: seq<Entry>, level: nat, exp: nat, r: nat)
    requires |table| == TOP_LEVEL + 1 && level <= r <= TOP_LEVEL
    requires (forall k :: level < k <= r ==> table[k].exp <= exp) && (r < TOP_LEVEL ==> exp < table[r + 1].exp)
    ensures r == Reach(table, level, exp)
  {
    ReachFacts(table, level, exp);
    var s := Reach(table, level, exp);
    assert !(r < s) && !(s < r);
  }

  /** Stopping on the way makes no difference, whatever the thresholds are. */
  lemma ReachInSteps(table: seq<Entry>, level: nat, exp: nat, more: nat)
    requires |table| == TOP_LEVEL + 1 && level <= TOP_LEVEL && exp <= more
    ensures Reach(table, Reach(table, level, exp), more) == Reach(table, level, more)
  {
    var s := Reach(table, level, exp);
    var r := Reach(table, s, more);
    ReachFacts(table, level, exp);
    ReachFacts(table, s, more);
    assert forall k :: level < k <= r ==> if k <= s then table[k].exp <= exp else table[k].exp <= more;
    ReachIsMaximal(table, level, more, r);
  }

  // ---------------------------------------------------------------- Blue Burst

  ghost function GiveExp(table: seq<Entry>, h: Hero, exp: nat): Hero
    requires |table| == TOP_LEVEL + 1
  {
    if h.level >= TOP_LEVEL then h
    else
      var total := (h.exp + exp) % WORD;
      var level := Reach(table, h.level, total);
      Hero(level, total, if level == h.level then h.stats else Wrap(Plus(h.stats, Gains(table, h.level, level))))
  }

  ghost predicate GoodHero(h: Hero) {
    h.exp < WORD && h.stats == Wrap(h.stats)
  }

  /** Two grants are one, as far as level and stats go. The experience adds up too exactly if the first grant does
      not reach the top level, where further experience is not counted, or there was nothing more to give. */
  lemma GrantsAddUp(table: seq<Entry>, h: Hero, e1: nat, e2: nat)
    requires |table| == TOP_LEVEL + 1 && GoodHero(h) && h.exp + e1 + e2 < WORD
    ensures var once, twice := GiveExp(table, h, e1 + e2), GiveExp(table, GiveExp(table, h, e1), e2);
            && twice.level == once.level && twice.stats == once.stats
            && (twice.exp == once.exp <==>
                  h.level >= TOP_LEVEL || GiveExp(table, h, e1).level < TOP_LEVEL || e2 == 0)
  {
    if h.level < TOP_LEVEL {
      var sum, total := h.exp + e1, h.exp + e1 + e2;
      TwoGrants(table, h, e1, e2, e1 + e2, sum, total, Reach(table, h.level, sum), Reach(table, h.level, total));
    }
  }

  lemma TwoGrants(table: seq<Entry>, h: Hero, e1: nat, e2: nat, e: nat, sum: nat, total: nat, mid: nat, end: nat)
    requires |table| == TOP_LEVEL + 1 && GoodHero(h) && h.level < TOP_LEVEL
    requires e == e1 + e2 && sum == h.exp + e1 && total == sum + e2 < WORD
    requires mid == Reach(table, h.level, sum) && end == Reach(table, h.level, total)
    ensures GiveExp(table, h, e1).level == mid
    ensures GiveExp(table, h, e) == Hero(end, total, Wrap(Plus(h.stats, Gains(table, h.level, end))))
    ensures GiveExp(table, GiveExp(table, h, e1), e2) ==
            Hero(end, if mid < TOP_LEVEL then total else sum, Wrap(Plus(h.stats, Gains(table, h.level, end))))
  {
    ReachInSteps(table, h.level, sum, total);
    GrantUnfolds(table, h, e1, sum, mid);
    GrantUnfolds(table, h, e, total, end);
    SecondGrant(table, h, e1, e2, sum, total, mid, end);
    GainsInSteps(table, h.stats, h.level, mid, end);
  }

  lemma GainsInSteps(table: seq<Entry>, s: Stats, a: nat, b: nat, c: nat)
    requires a <= b <= c < |table|
    ensures Wrap(Plus(Wrap(Plus(s, Gains(table, a, b))), Gains(table, b, c))) == Wrap(Plus(s, Gains(table, a, c)))
  {
    GainsAdd(table, a, b, c);
    StatsInSteps(s, Gains(table, a, b), Gains(table, b, c));
  }

  /** What a second grant comes to. */
  lemma SecondGrant(table: seq<Entry>, h: Hero, e1: nat, e2: nat, sum: nat, total: nat, mid: nat, end: nat)
    requires |table| == TOP_LEVEL + 1 && GoodHero(h) && h.level < TOP_LEVEL
    requires sum == h.exp + e1 && total == sum + e2 < WORD
    requires mid == Reach(table, h.level, sum) && end == Reach(table, mid, total)
    ensures GiveExp(table, GiveExp(table, h, e1), e2) ==
            Hero(end, if mid < TOP_LEVEL then total else sum,
                 Wrap(Plus(Wrap(Plus(h.stats, Gains(table, h.level, mid))), Gains(table, mid, end))))
  {
    var first := GiveExp(table, h, e1);
    GrantUnfolds(table, h, e1, sum, mid);
    if mid < TOP_LEVEL {
      GrantUnfolds(table, first, e2, total, end);
    } else {
      NoGains(table, mid);
      PlusNothing(first.stats);
      WrapWrap(Plus(h.stats, Gains(table, h.level, mid)));
    }
  }

  lemma GrantUnfolds(table: seq<Entry>, h: Hero, e: nat, total: nat, end: nat)
    requires |table| == TOP_LEVEL + 1 && GoodHero(h) && h.level < TOP_LEVEL
    requires total == (h.exp + e) % WORD && end == Reach(table, h.level, total)
    ensures GiveExp(table, h, e) == Hero(end, total, Wrap(Plus(h.stats, Gains(table, h.level, end))))
    ensures GoodHero(GiveExp(table, h, e))
  {
    NoGains(table, h.level);
    PlusNothing(h.stats);
    WrapWrap(Plus(h.stats, Gains(table, h.level, end)));
  }

  lemma WrapWrap(a: Stats)
    ensures Wrap(Wrap(a)) == Wrap(a)
  {
  }

  lemma NoGains(table: seq<Entry>, level: nat)
    requires level < |table|
    ensures Gains(table, level, level) == Stats(0, 0, 0, 0, 0, 0)
  {
  }

  lemma PlusNothing(a: Stats)
    ensures Plus(a, Stats(0, 0, 0, 0, 0, 0)) == a
  {
  }

  lemma StatsInSteps(a: Stats, b: Stats, c: Stats)
    ensures Wrap(Plus(Wrap(Plus(a, b)), c)) == Wrap(Plus(a, Plus(b, c)))
  {
    WrapPlus(Plus(a, b), c);
    assert Plus(Plus(a, b), c) == Plus(a, Plus(b, c));
  }

  // ---------------------------------------------------------------- free levels

  /** Free levels for a Blue Burst client: level and experience, but no stats. */
  ghost function GiveLevel(table: seq<Entry>, h: Hero, level: nat): Hero
    requires |table| == TOP_LEVEL + 1
  {
    if level > TOP_LEVEL || h.level >= level then h else h.(level := level, exp := table[level].exp)
  }

  /** For a version 2 client the stats come with them. */
  ghost function GiveLevelV2(table: seq<Entry>, h: Hero, level: nat): Hero
    requires |table| == TOP_LEVEL + 1
  {
    if level > TOP_LEVEL || h.level >= level then h
    else Hero(level, table[level].exp, Wrap(Plus(h.stats, Gains(table, h.level, level))))
  }

  /** A free level is the one asked for, if that is higher and there is such a level, with the experience it takes; the
      stats of all levels crossed come with it in version 2 only. */
  lemma FreeLevel(table: seq<Entry>, h: Hero, level: nat)
    requires |table| == TOP_LEVEL + 1
    ensures var bb, v2, up := GiveLevel(table, h, level), GiveLevelV2(table, h, level), h.level < level <= 199;
            && bb.level == v2.level == (if up then level else h.level)
            && bb.exp == v2.exp == (if up then table[level].exp else h.exp)
            && bb.stats == h.stats
            && (!up ==> v2.stats == h.stats)
            && (up ==> v2.stats == Wrap(Plus(h.stats, Gains(table, h.level, level))))
  {
  }

  /** What is gained on the way from one level to another is what every level above the first gives. */
  lemma {:induction false} GainsOfEach(table: seq<Entry>, lo: nat, hi: nat)
    requires lo < hi < |table|
    ensures var next := lo + 1; Gains(table, lo, hi) == Plus(table[next].gain, Gains(table, next, hi))
    decreases hi - lo
  {
    var next, prev := lo + 1, hi - 1;
    if next < hi {
      GainsOfEach(table, lo, prev);
      PlusAssociates(table[next].gain, Gains(table, next, prev), table[hi].gain);
    }
  }

  /** Every stat is what it was and what was gained, in 16 bits; a grant below the top level leaves the level reached
      and the experience in 32 bits. */
  lemma GrantStats(table: seq<Entry>, h: Hero, exp: nat)
    requires |table| == TOP_LEVEL + 1 && GoodHero(h) && h.level < 199
    ensures var r := GiveExp(table, h, exp);
            && h.level <= r.level <= 199 && r.exp == (h.exp + exp) % 0x1_0000_0000
            && (forall k :: h.level < k <= r.level ==> table[k].exp <= r.exp)
            && (r.level < 199 ==> r.exp < table[r.level + 1].exp)
            && var g := Gains(table, h.level, r.level);
               && r.stats.atp == (h.stats.atp + g.atp) % 0x10000 && r.stats.mst == (h.stats.mst + g.mst) % 0x10000
               && r.stats.evp == (h.stats.evp + g.evp) % 0x10000 && r.stats.hp == (h.stats.hp + g.hp) % 0x10000
               && r.stats.dfp == (h.stats.dfp + g.dfp) % 0x10000 && r.stats.ata == (h.stats.ata + g.ata) % 0x10000
  {
    var total := (h.exp + exp) % WORD;
    var end := Reach(table, h.level, total);
    ReachFacts(table, h.level, total);
    GrantUnfolds(table, h, exp, total, end);
  }

  /** Leveling up twice leads to the higher of the two levels, with the same stats and experience as going there
      at once. */
  lemma LevelsCompose(table: seq<Entry>, h: Hero, a: nat, b: nat)
    requires |table| == TOP_LEVEL + 1 && GoodHero(h) && a <= TOP_LEVEL && b <= TOP_LEVEL
    ensures GiveLevelV2(table, GiveLevelV2(table, h, a), b) == GiveLevelV2(table, h, if a < b then b else a)
    ensures GiveLevel(table, GiveLevel(table, h, a), b) == GiveLevel(table, h, if a < b then b else a)
  {
    if h.level < a < b {
      GainsAdd(table, h.level, a, b);
      StatsInSteps(h.stats, Gains(table, h.level, a), Gains(table, a, b));
    }
  }

  // ---------------------------------------------------------------- in place

  class Character {
    var level: nat
    var exp: nat
    var stats: Stats

    ghost function View(): Hero
      reads this
    {
      Hero(level, exp, stats)
    }

    constructor (level: nat, exp: nat, stats: Stats)
      ensures View() == Hero(level, exp, stats)
    {
      this.level, this.exp, this.stats := level, exp, stats;
    }

    /** Each stat is stored in 16 bits. */
    method GiveStats(gain: Stats)
      modifies this`stats
      ensures stats == Wrap(Plus(old(stats), gain))
    {
      stats := Stats((stats.atp + gain.atp) % 0x10000, (stats.mst + gain.mst) % 0x10000,
                     (stats.evp + gain.evp) % 0x10000, (stats.hp + gain.hp) % 0x10000,
                     (stats.dfp + gain.dfp) % 0x10000, (stats.ata + gain.ata) % 0x10000);
    }

    /** Experience, and all the levels it takes one to. */
    method GiveExperience(table: seq<Entry>, amount: nat)
      requires |table| == TOP_LEVEL + 1 && GoodHero(View())
      modifies this
      ensures View() == GiveExp(table, old(View()), amount)
    {
      if level >= TOP_LEVEL {
        return;
      }
      ghost var h := View();
      exp := (exp + amount) % WORD;
      level := RaiseLevels(table, level);
      GrantUnfolds(table, h, amount, exp, level);
    }

    /** One level after the other, as long as the experience suffices. */
    method RaiseLevels(table: seq<Entry>, start: nat) returns (now: nat)
      requires |table| == TOP_LEVEL + 1 && start < TOP_LEVEL && stats == Wrap(stats)
      modifies this`stats
      ensures now == Reach(table, start, exp) && stats == Wrap(Plus(old(stats), Gains(table, start, now)))
    {
      now := start;
      NoGains(table, start);
      PlusNothing(stats);
      while now < TOP_LEVEL && exp >= table[now + 1].exp
        invariant start <= now <= TOP_LEVEL && exp == old(exp)
        invariant stats == Wrap(Plus(old(stats), Gains(table, start, now)))
        invariant Reach(table, now, exp) == Reach(table, start, exp)
        decreases TOP_LEVEL - now
      {
        GiveStats(table[now + 1].gain);
        OneMoreLevel(table, old(stats), start, now, now + 1);
        now := now + 1;
      }
    }

    /** Free levels: the experience becomes what the level takes, the stats stay. */
    method GiveFreeLevel(table: seq<Entry>, wanted: nat) returns (rc: int)
      requires |table| == TOP_LEVEL + 1
      modifies this`level, this`exp
      ensures View() == GiveLevel(table, old(View()), wanted)
      ensures rc == if wanted > TOP_LEVEL then -1 else 0
    {
      if wanted > TOP_LEVEL {
        return -1;
      }
      if level < wanted {
        exp, level := table[wanted].exp, wanted;
      }
      return 0;
    }

    /** Free levels for version 2, one entry of the table after the other. */
    method GiveFreeLevelV2(table: seq<Entry>, wanted: nat) returns (rc: int)
      requires |table| == TOP_LEVEL + 1 && GoodHero(View())
      modifies this
      ensures View() == GiveLevelV2(table, old(View()), wanted)
      ensures rc == if wanted > TOP_LEVEL then -1 else 0
    {
      if wanted > TOP_LEVEL {
        return -1;
      }
      if level >= wanted {
        return 0;
      }
      ghost var before := stats;
      NoGains(table, level);
      PlusNothing(before);
      var i := level + 1;
      while i <= wanted
        invariant level < i <= wanted + 1 && level == old(level)
        invariant stats == Wrap(Plus(before, Gains(table, level, i - 1)))
        invariant i > level + 1 ==> exp == table[i - 1].exp
      {
        GiveStats(table[i].gain);
        OneMoreLevel(table, before, level, i - 1, i);
        exp := table[i].exp;
        i := i + 1;
      }
      level := wanted;
      return 0;
    }
  }

  lemma OneMoreLevel(table: seq<Entry>, s: Stats, start: nat, now: nat, next: nat)
    requires start <= now && next == now + 1 < |table|
    ensures Wrap(Plus(Wrap(Plus(s, Gains(table, start, now))), table[next].gain)) ==
              Wrap(Plus(s, Gains(table, start, next)))
  {
    WrapPlus(Plus(s, Gains(table, start, now)), table[next].gain);
    PlusAssociates(s, Gains(table, start, now), table[next].gain);
  }

  lemma PlusAssociates(a: Stats, b: Stats, c: Stats)
    ensures Plus(Plus(a, b), c) == Plus(a, Plus(b, c))
  {
  }
}
