/**
  Turning a map's list of enemy records into the list of enemies the game has (src/mapdata.c:186-701). A record
  can stand for many enemies: clones, companions, the parts of a boss, or numbers the game never uses.
 */
module EnemyMaps {
  import opened Sequences

  /** An enemy record. `rare` is the bit the map files mark rare enemies with. */
  datatype Record = Record(base: nat, clones: nat, skin: nat, rare: bool)

  /** An enemy: index of its battle parameters, index of its drops, and area. What else the game keeps about an
      enemy starts out as 0. */
  datatype Enemy = Enemy(bp: nat, rt: nat, area: nat)

  const BLANK := Enemy(0, 0, 0)
  const MAX_ENEMIES := 0xB50

  /** The drop index that stands for "the rappy of the season". */
  const SEASONAL := 0xFF

  /** Where a map belongs: the episode, whether it is the alternative area set, and the area. */
  datatype Place = Place(ep: nat, alt: bool, area: nat)

  function Bit(b: bool): nat {
    if b then 1 else 0
  }

  // ---------------------------------------------------------------- one record

  /** Battle parameters and drops of the first enemy a record stands for. */
  function Leader(r: Record, p: Place): (nat, nat) {
    var odd := r.skin % 2;
    var third := r.skin % 3;
    var rare := Bit(r.rare);
    match r.base
    case 0x0040 => (0x49 + odd, 0x01 + odd)
    case 0x0041 =>
      if p.ep == 3 then (if p.alt then (0x17 + odd, 0x11 + odd) else (0x05 + odd, 0x11 + odd))
      else if odd == 1 then (0x19, if p.ep == 1 then 0x06 else SEASONAL)
      else (0x18, 0x05)
    case 0x0042 => (0x01, 0x04)
    case 0x0043 => (0x02 + rare, 0x07 + rare)
    case 0x0044 => (0x4B + third, 0x09 + third)
    case 0x0060 => (0x4E, 0x0C)
    case 0x0061 => if p.ep == 2 && p.alt then (0x25, 0x53) else (0x04 + rare, 0x0D + rare)
    case 0x0062 => (0x1A, 0x0F)
    case 0x0063 => (0x4F + third, 0x10 + third)
    case 0x0064 => (0x30 - rare, 0x13 + rare)
    case 0x0065 => (0x31, 0x15)
    case 0x0080 => (0x1B + odd, if odd == 1 then (0x18 + 1) * 2 else 0x18)
    case 0x0081 => (0x1D, 0x19)
    case 0x0082 => if r.rare then (0x13, 0x1B) else (0x06, 0x1A)
    case 0x0083 => (0x07, 0x1C)
    case 0x0084 => (0x09, 0x1D)
    case 0x00A0 => (0x52, 0x1E)
    case 0x00A1 => (0x0A, 0x1F)
    case 0x00A2 => (0x1E, 0x22)
    case 0x00A4 => (0x0D, 0x24)
    case 0x00A5 => (0x0E, 0x25)
    case 0x00A6 => (0x53 + third, 0x29 + third)
    case 0x00A7 => (0x1F, 0x28)
    case 0x00A8 => (0x20, 0x26)
    case 0x00C0 => if p.ep == 1 then (0x12, 0x2C) else (0x1E, 0x4D)
    case 0x00C1 => (0x0F, 0x2D)
    case 0x00C5 => (0x25, 0x2E)
    case 0x00C8 => (0x35, 0)
    case 0x00CA => (0x2C, 0x4E)
    case 0x00CB => (0x0F, 0x49)
    case 0x00CC => (0x12, 0x4C)
    case 0x00D4 => if r.skin >= 1 then (0x13, 0x3F) else (0x06, 0x3E)
    case 0x00D5 => (0x4B + odd, 0x34 + odd)
    case 0x00D6 => (if third != 0 then 0x44 + third else 0x3A, 0x38 + third)
    case 0x00D7 => (0x3B + odd, 0x3B + odd)
    case 0x00D8 => (0x3D, 0x3D)
    case 0x00D9 => (0x07, 0x36)
    case 0x00DA => (0x1A, 0x37)
    case 0x00DB => (0x30, 0x47)
    case 0x00DC => (0x0D, 0x48)
    case 0x00DD => (0x4F + odd, 0x40 + odd)
    case 0x00DE => (0x41, 0x42)
    case 0x00DF => (0x41, 0x43)
    case 0x00E0 => if p.ep == 2 && p.alt then (0x23, 0x54) else (0x43 + odd, 0x45 + odd)
    case 0x00E1 => (0x26, 0x52)
    case 0x0110 => (0x09, 0x01)
    case 0x0111 => (0x0D + rare + (if p.alt then 0x10 else 0), 0x02 + rare)
    case 0x0112 => (0x19 + odd, 0x04 + odd)
    case 0x0113 => (0x1F, 0x06)
    case 0x0114 => (0x07 + odd + (if p.alt then 0x14 else 0), 7 + odd)
    case 0x0115 => (if r.skin / 2 % 2 == 1 then 0x03 else third, 0x09 + third)
    case 0x0116 => (0x0F + odd, 0x0C + odd)
    case 0x0117 => (0x11 + third, if r.skin / 2 % 2 == 1 then 0x0F else if odd == 1 then 0x10 else 0x0E)
    case 0x0119 => (0x22, if r.rare then 0x15 else 0x13 + odd)
    case _ => (0, 0)
  }

  /** `n` times the same. */
  ghost function Copies(e: Enemy, n: nat): (s: seq<Enemy>)
    ensures |s| == n && forall i :: 0 <= i < n ==> s[i] == e
  {
    seq(n, _ => e)
  }

  /** Enemy numbers a record takes up without using them. */
  function Unused(r: Record, p: Place): nat {
    match r.base
    case 0x00CA => 512
    case 0x00CB => 47
    case 0x00CC => 5
    case 0x00D4 => 4
    case 0x00E0 => if p.ep == 2 && p.alt then 4 else 0
    case _ => 0
  }

  /** The companions and parts that follow the first enemy. */
  ghost function Followers(r: Record, p: Place): seq<Enemy> {
    match r.base
    case 0x0042 => Copies(Enemy(0x00, 0x03, p.area), 30)
    case 0x0064 => Copies(Enemy(0x30, 0x13, p.area), 4)
    case 0x0065 => [Enemy(0x32, 0x16, p.area), Enemy(0x33, 0x17, p.area)]
    case 0x0084 => Copies(Enemy(0x08, 0x1C, p.area), 8)
    case 0x00A1 => [Enemy(0x0B, 0x00, p.area), Enemy(0x0C, 0x00, p.area)]
    case 0x00A7 => Copies(Enemy(0x20, 0x26, p.area), 4)
    case 0x00C8 => Copies(Enemy(0x35, 0, p.area), 509) +
                   [Enemy(0x38, 0x2F, p.area), Enemy(0x37, 0x2F, p.area), Enemy(0x36, 0x2F, p.area)]
    case 0x00DF => Copies(Enemy(0x42, 0x44, p.area), r.clones)
    case _ => Copies(BLANK, Unused(r, p))
  }

  /** How often the last of these is repeated: as often as the record says, but Sinows default to 4 clones, and
      Recons are followers already. */
  function Clones(r: Record): nat {
    if r.base == 0x00DF then 0 else if r.base == 0x0082 && r.clones == 0 then 4 else r.clones
  }

  ghost function Body(r: Record, p: Place): seq<Enemy> {
    [Enemy(Leader(r, p).0, Leader(r, p).1, p.area)] + Followers(r, p)
  }

  /** All the enemies a record stands for. */
  ghost function Expand(r: Record, p: Place): seq<Enemy> {
    var body := Body(r, p);
    var last := body[|body| - 1];
    body + Copies(Enemy(last.bp, last.rt, p.area), Clones(r))
  }

  // ---------------------------------------------------------------- a map

  ghost function Expander(p: Place): Record -> seq<Enemy> {
    (r: Record) => Expand(r, p)
  }

  ghost function ExpandAll(rs: seq<Record>, p: Place): seq<Enemy> {
    FlatMap(Expander(p), rs)
  }

  /** Expansion is a homomorphism: maps can be expanded piece by piece. */
  lemma ExpandAllConcat(a: seq<Record>, b: seq<Record>, p: Place)
    ensures ExpandAll(a + b, p) == ExpandAll(a, p) + ExpandAll(b, p)
  {
    FlatMapConcat(Expander(p), a, b);
  }

  function FollowerCount(r: Record, p: Place): nat {
    match r.base
    case 0x0042 => 30
    case 0x0064 => 4
    case 0x0065 => 2
    case 0x0084 => 8
    case 0x00A1 => 2
    case 0x00A7 => 4
    case 0x00C8 => 512
    case 0x00DF => r.clones
    case _ => Unused(r, p)
  }

  function Size(r: Record, p: Place): nat {
    1 + FollowerCount(r, p) + Clones(r)
  }

  lemma ExpandSize(r: Record, p: Place)
    ensures |Followers(r, p)| == FollowerCount(r, p) && |Expand(r, p)| == Size(r, p)
  {
  }

  /** The number of enemies is the sum of what the records stand for. */
  lemma ExpandAllSize(rs: seq<Record>, p: Place)
    ensures |ExpandAll(rs, p)| == Sum((r: Record) => Size(r, p), rs)
  {
    forall i | 0 <= i < |rs| ensures |Expander(p)(rs[i])| == Size(rs[i], p) {
      ExpandSize(rs[i], p);
    }
    FlatMapSize(Expander(p), (r: Record) => Size(r, p), rs);
  }

  /** No records, no enemies; one record, its own. */
  lemma ExpandAllOne(r: Record, p: Place)
    ensures ExpandAll([], p) == [] && ExpandAll([r], p) == Expand(r, p)
  {
    assert [r][..0] == [];
    assert FlatMap(Expander(p), [r]) == FlatMap(Expander(p), [r][..0]) + Expander(p)(r);
  }

  /** The seasonal rappy comes only from odd rappy records outside episodes 1 and 3. */
  lemma SeasonalRappies(r: Record, p: Place)
    ensures Leader(r, p).1 == SEASONAL <==> r.base == 0x0041 && r.skin % 2 == 1 && p.ep != 1 && p.ep != 3
  {
  }

  // ---------------------------------------------------------------- what records stand for

  /** From `from` up to, but not including, `to` all enemies of `s` are alike. */
  ghost predicate Alike(s: seq<Enemy>, from: nat, to: nat, bp: nat, rt: nat, area: nat) {
    to <= |s| && forall i :: from <= i < to ==> s[i] == Enemy(bp, rt, area)
  }

  /** One enemy, then `n` companions, then as many more of these as the record has clones. */
  ghost predicate Led(s: seq<Enemy>, r: Record, p: Place, bp: nat, rt: nat, n: nat, withBp: nat, withRt: nat) {
    |s| == 1 + n + r.clones && s[0] == Enemy(bp, rt, p.area) && Alike(s, 1, |s|, withBp, withRt, p.area)
  }

  /** Monests come with 30 Mothmants, Canadines in groups of nine, Bulclaws with 4 claws, and slimes can split into
      five. */
  lemma Swarms(r: Record, p: Place)
    ensures var s := Expand(r, p);
            && (r.base == 0x0042 ==> Led(s, r, p, 0x01, 0x04, 30, 0x00, 0x03))
            && (r.base == 0x0064 ==> Led(s, r, p, if r.rare then 0x2F else 0x30, if r.rare then 0x14 else 0x13, 4, 0x30,
                                         0x13))
            && (r.base == 0x0084 ==> Led(s, r, p, 0x09, 0x1D, 8, 0x08, 0x1C))
            && (r.base == 0x00A7 ==> Led(s, r, p, 0x1F, 0x28, 4, 0x20, 0x26))
  {
  }

  /** A Pan Arms is one and the two it splits into, a Chaos Sorcerer has two bees; the clones are of the last. */
  lemma Trios(r: Record, p: Place)
    ensures var s := Expand(r, p);
            && (r.base == 0x0065 ==>
                  && |s| == 3 + r.clones && s[0] == Enemy(0x31, 0x15, p.area) && s[1] == Enemy(0x32, 0x16, p.area)
                  && Alike(s, 2, |s|, 0x33, 0x17, p.area))
            && (r.base == 0x00A1 ==>
                  && |s| == 3 + r.clones && s[0] == Enemy(0x0A, 0x1F, p.area) && s[1] == Enemy(0x0B, 0x00, p.area)
                  && Alike(s, 2, |s|, 0x0C, 0x00, p.area))
  {
  }

  /** Dark Falz is 510 Darvants and then its three forms, the first form last. */
  lemma DarkFalz(r: Record, p: Place)
    requires r.base == 0x00C8
    ensures var s := Expand(r, p);
            && |s| == 513 + r.clones && Alike(s, 0, 510, 0x35, 0, p.area)
            && s[510] == Enemy(0x38, 0x2F, p.area) && s[511] == Enemy(0x37, 0x2F, p.area)
            && Alike(s, 512, |s|, 0x36, 0x2F, p.area)
  {
    var body := Body(r, p);
    assert body[510] == Enemy(0x38, 0x2F, p.area) && body[511] == Enemy(0x37, 0x2F, p.area);
    assert |body| == 513 && body[512] == Enemy(0x36, 0x2F, p.area);
  }

  /** One enemy, then `n` numbers nobody has; a clone would be of these, in the record's area. */
  ghost predicate Wasteful(s: seq<Enemy>, r: Record, p: Place, bp: nat, rt: nat, n: nat) {
    && |s| == 1 + n + r.clones && s[0] == Enemy(bp, rt, p.area)
    && Alike(s, 1, n + 1, 0, 0, 0) && Alike(s, n + 1, |s|, 0, 0, p.area)
  }

  /** Olga Flow, Barba Ray, Gol Dragon, Sinow Berill and Epsilon use up numbers. */
  lemma UnusedNumbers(r: Record, p: Place)
    ensures var s := Expand(r, p);
            && (r.base == 0x00CA ==> Wasteful(s, r, p, 0x2C, 0x4E, 512))
            && (r.base == 0x00CB ==> Wasteful(s, r, p, 0x0F, 0x49, 47))
            && (r.base == 0x00CC ==> Wasteful(s, r, p, 0x12, 0x4C, 5))
            && (r.base == 0x00D4 ==>
                  Wasteful(s, r, p, if r.skin == 0 then 0x06 else 0x13, if r.skin == 0 then 0x3E else 0x3F, 4))
            && (r.base == 0x00E0 && p.ep == 2 && p.alt ==> Wasteful(s, r, p, 0x23, 0x54, 4))
  {
  }

  /** A Recobox comes with the Recons its record has in place of clones; Sinows come in fives unless the record says
      otherwise. */
  lemma RecoboxesAndSinows(r: Record, p: Place)
    ensures var s := Expand(r, p);
            && (r.base == 0x00DF ==>
                  |s| == 1 + r.clones && s[0] == Enemy(0x41, 0x43, p.area) && Alike(s, 1, |s|, 0x42, 0x44, p.area))
            && (r.base == 0x0082 ==>
                  && |s| == (if r.clones == 0 then 5 else 1 + r.clones)
                  && Alike(s, 0, |s|, if r.rare then 0x13 else 0x06, if r.rare then 0x1B else 0x1A, p.area))
  {
  }

  /** Any other record stands for its enemy and as many more like it as it has clones. */
  lemma OthersAreAlike(r: Record, p: Place)
    requires r.base !in {0x0042, 0x0064, 0x0065, 0x0082, 0x0084, 0x00A1, 0x00A7, 0x00C8, 0x00CA, 0x00CB, 0x00CC, 0x00D4,
                         0x00DF}
    requires !(r.base == 0x00E0 && p.ep == 2 && p.alt)
    ensures var s := Expand(r, p);
            && |s| == 1 + r.clones && s[0].area == p.area
            && forall i :: 0 <= i < |s| ==> s[i] == s[0]
  {
  }

  /** Records of a kind nobody knows stand for blank enemies. */
  lemma UnknownKinds(r: Record, p: Place)
    requires r.base < 0x0040 || 0x0044 < r.base < 0x0060 || 0x0065 < r.base < 0x0080 || 0x0084 < r.base < 0x00A0
             || r.base == 0x00A3 || 0x00A8 < r.base < 0x00C0 || 0x00C1 < r.base < 0x00C5 || 0x00C5 < r.base < 0x00C8
             || r.base == 0x00C9 || 0x00CC < r.base < 0x00D4 || 0x00E1 < r.base < 0x0110 || r.base == 0x0118
             || 0x0119 < r.base
    ensures Begins(r, p, 0, 0)
  {
  }

  ghost predicate Begins(r: Record, p: Place, bp: nat, rt: nat) {
    Expand(r, p)[0] == Enemy(bp, rt, p.area)
  }

  /** Kinds that come in one form only: Grass Assassin, Nano Dragon, Garanz, Canadine, Delsaber, Dark Gunner, Chaos
      Bringer, Dark Belra, Claw, De Rol Le and Vol Opt. */
  lemma SingleKinds(r: Record, p: Place)
    ensures r.base == 0x0060 ==> Begins(r, p, 0x4E, 0x0C)
    ensures r.base == 0x0062 ==> Begins(r, p, 0x1A, 0x0F)
    ensures r.base == 0x0081 ==> Begins(r, p, 0x1D, 0x19)
    ensures r.base == 0x0083 ==> Begins(r, p, 0x07, 0x1C)
    ensures r.base == 0x00A0 ==> Begins(r, p, 0x52, 0x1E)
    ensures r.base == 0x00A2 ==> Begins(r, p, 0x1E, 0x22)
    ensures r.base == 0x00A4 ==> Begins(r, p, 0x0D, 0x24)
    ensures r.base == 0x00A5 ==> Begins(r, p, 0x0E, 0x25)
    ensures r.base == 0x00A8 ==> Begins(r, p, 0x20, 0x26)
    ensures r.base == 0x00C1 ==> Begins(r, p, 0x0F, 0x2D)
    ensures r.base == 0x00C5 ==> Begins(r, p, 0x25, 0x2E)
  {
  }

  /** And, of the later episodes, Gibbles, Gee, Gi Gue, Deldepth, Delbiter, Morfos, Ill Gill, Astark and Girtablulu. */
  lemma LaterSingleKinds(r: Record, p: Place)
    ensures r.base == 0x00D8 ==> Begins(r, p, 0x3D, 0x3D)
    ensures r.base == 0x00D9 ==> Begins(r, p, 0x07, 0x36)
    ensures r.base == 0x00DA ==> Begins(r, p, 0x1A, 0x37)
    ensures r.base == 0x00DB ==> Begins(r, p, 0x30, 0x47)
    ensures r.base == 0x00DC ==> Begins(r, p, 0x0D, 0x48)
    ensures r.base == 0x00DE ==> Begins(r, p, 0x41, 0x42)
    ensures r.base == 0x00E1 ==> Begins(r, p, 0x26, 0x52)
    ensures r.base == 0x0110 ==> Begins(r, p, 0x09, 0x01)
    ensures r.base == 0x0113 ==> Begins(r, p, 0x1F, 0x06)
  {
  }

  /** `v` further on in both tables than the first of its family. */
  ghost predicate Variant(r: Record, p: Place, bp: nat, rt: nat, v: nat) {
    Begins(r, p, bp + v, rt + v)
  }

  /** Families of two, told apart by whether the skin is odd: Hildebears, Merillias, Gibbons, Dolmolms, Sinow Zoas,
      Merissas, Dorphons; and of three, by the skin modulo 3: Boomas, Sharks, Dimenians. */
  lemma Families(r: Record, p: Place)
    ensures r.base == 0x0040 ==> Variant(r, p, 0x49, 0x01, r.skin % 2)
    ensures r.base == 0x00D5 ==> Variant(r, p, 0x4B, 0x34, r.skin % 2)
    ensures r.base == 0x00D7 ==> Variant(r, p, 0x3B, 0x3B, r.skin % 2)
    ensures r.base == 0x00DD ==> Variant(r, p, 0x4F, 0x40, r.skin % 2)
    ensures r.base == 0x00E0 && !(p.ep == 2 && p.alt) ==> Variant(r, p, 0x43, 0x45, r.skin % 2)
    ensures r.base == 0x0112 ==> Variant(r, p, 0x19, 0x04, r.skin % 2)
    ensures r.base == 0x0116 ==> Variant(r, p, 0x0F, 0x0C, r.skin % 2)
    ensures r.base == 0x0044 ==> Variant(r, p, 0x4B, 0x09, r.skin % 3)
    ensures r.base == 0x0063 ==> Variant(r, p, 0x4F, 0x10, r.skin % 3)
    ensures r.base == 0x00A6 ==> Variant(r, p, 0x53, 0x29, r.skin % 3)
  {
  }

  /** Rare ones: wolves, lilies, lizards. What else depends on the place: lilies and lizards, Zus, rappies, and the
      dragon, which is Gal Gryphon outside episode 1. */
  lemma RareAndRegional(r: Record, p: Place)
    ensures r.base == 0x0043 ==> Variant(r, p, 0x02, 0x07, Bit(r.rare))
    ensures r.base == 0x0061 ==>
              if p.ep == 2 && p.alt then Begins(r, p, 0x25, 0x53) else Variant(r, p, 0x04, 0x0D, Bit(r.rare))
    ensures r.base == 0x0111 ==> Begins(r, p, (if p.alt then 0x1D else 0x0D) + Bit(r.rare), 0x02 + Bit(r.rare))
    ensures r.base == 0x0114 ==> Begins(r, p, (if p.alt then 0x1B else 0x07) + r.skin % 2, 0x07 + r.skin % 2)
    ensures r.base == 0x00C0 ==> if p.ep == 1 then Begins(r, p, 0x12, 0x2C) else Begins(r, p, 0x1E, 0x4D)
    ensures r.base == 0x0041 && p.ep == 3 ==> Variant(r, p, if p.alt then 0x17 else 0x05, 0x11, r.skin % 2)
    ensures r.base == 0x0041 && p.ep != 3 ==>
              if r.skin % 2 == 0 then Begins(r, p, 0x18, 0x05)
              else Begins(r, p, 0x19, if p.ep == 1 then 0x06 else 0xFF)
  {
  }

  /** Families with a rule of their own: Dubchics, Mericarols, Bootas, Gorans, and Saint Million. */
  lemma IrregularFamilies(r: Record, p: Place)
    ensures r.base == 0x0080 ==> if r.skin % 2 == 0 then Begins(r, p, 0x1B, 0x18) else Begins(r, p, 0x1C, 0x32)
    ensures r.base == 0x00D6 ==>
              var v := r.skin % 3; Begins(r, p, if v == 0 then 0x3A else if v == 1 then 0x45 else 0x46, 0x38 + v)
    ensures r.base == 0x0115 ==>
              Begins(r, p, if r.skin % 4 >= 2 then 0x03 else r.skin % 3, 0x09 + r.skin % 3)
    ensures r.base == 0x0117 ==>
              Begins(r, p, 0x11 + r.skin % 3, if r.skin % 4 == 0 then 0x0E else if r.skin % 4 == 1 then 0x10 else 0x0F)
    ensures r.base == 0x0119 ==> Begins(r, p, 0x22, if r.rare then 0x15 else if r.skin % 2 == 0 then 0x13 else 0x14)
  {
  }

  // ---------------------------------------------------------------- in place

  /** From `at` on nothing has been written yet. */
  ghost predicate BlankFrom(gen: array<Enemy>, at: nat)
    reads gen
  {
    forall i :: at <= i < gen.Length ==> gen[i] == BLANK
  }

  method Fill(gen: array<Enemy>, at: nat, e: Enemy, n: nat)
    requires at + n <= gen.Length && BlankFrom(gen, at)
    modifies gen
    ensures gen[..at + n] == old(gen[..at]) + Copies(e, n) && BlankFrom(gen, at + n)
  {
    var j := 0;
    while j < n
      invariant 0 <= j <= n && BlankFrom(gen, at + j)
      invariant gen[..at] == old(gen[..at]) && forall i :: at <= i < at + j ==> gen[i] == e
    {
      gen[at + j] := e;
      j := j + 1;
    }
  }

  /** Numbers passed over stay blank. */
  lemma Skip(gen: array<Enemy>, at: nat, n: nat)
    requires at + n <= gen.Length && BlankFrom(gen, at)
    ensures gen[..at + n] == gen[..at] + Copies(BLANK, n) && BlankFrom(gen, at + n)
  {
  }

  method Put(gen: array<Enemy>, at: nat, e: Enemy)
    requires at < gen.Length && BlankFrom(gen, at)
    modifies gen
    ensures gen[..at + 1] == old(gen[..at]) + [e] && BlankFrom(gen, at + 1)
  {
    gen[at] := e;
  }

  /** Dark Falz: the rest of the Darvants, then the three forms, backwards. */
  method PutFalz(gen: array<Enemy>, at: nat, p: Place)
    requires at + 512 <= gen.Length && BlankFrom(gen, at)
    modifies gen
    ensures gen[..at + 512] == old(gen[..at]) + Followers(Record(0x00C8, 0, 0, false), p) && BlankFrom(gen, at + 512)
  {
    Fill(gen, at, Enemy(0x35, 0, p.area), 509);
    Put(gen, at + 509, Enemy(0x38, 0x2F, p.area));
    Put(gen, at + 510, Enemy(0x37, 0x2F, p.area));
    Put(gen, at + 511, Enemy(0x36, 0x2F, p.area));
  }

  method PutPair(gen: array<Enemy>, at: nat, e: Enemy, f: Enemy)
    requires at + 2 <= gen.Length && BlankFrom(gen, at)
    modifies gen
    ensures gen[..at + 2] == old(gen[..at]) + [e, f] && BlankFrom(gen, at + 2)
  {
    Put(gen, at, e);
    Put(gen, at + 1, f);
  }

  method PutFollowers(gen: array<Enemy>, at: nat, r: Record, p: Place) returns (next: nat)
    requires at + FollowerCount(r, p) <= gen.Length && BlankFrom(gen, at)
    modifies gen
    ensures next == at + FollowerCount(r, p)
    ensures gen[..next] == old(gen[..at]) + Followers(r, p) && BlankFrom(gen, next)
  {
    next := at + FollowerCount(r, p);
    match r.base
    case 0x0042 => Fill(gen, at, Enemy(0x00, 0x03, p.area), 30);
    case 0x0064 => Fill(gen, at, Enemy(0x30, 0x13, p.area), 4);
    case 0x0065 => PutPair(gen, at, Enemy(0x32, 0x16, p.area), Enemy(0x33, 0x17, p.area));
    case 0x0084 => Fill(gen, at, Enemy(0x08, 0x1C, p.area), 8);
    case 0x00A1 => PutPair(gen, at, Enemy(0x0B, 0x00, p.area), Enemy(0x0C, 0x00, p.area));
    case 0x00A7 => Fill(gen, at, Enemy(0x20, 0x26, p.area), 4);
    case 0x00C8 => PutFalz(gen, at, p);
    case 0x00DF => Fill(gen, at, Enemy(0x42, 0x44, p.area), r.clones);
    case _ => Skip(gen, at, Unused(r, p));
  }

  /** One turn of the loop: a record's enemies are written at `count`. */
  method PutRecord(gen: array<Enemy>, count: nat, r: Record, p: Place) returns (next: nat)
    requires count + Size(r, p) <= gen.Length && BlankFrom(gen, count)
    modifies gen
    ensures next == count + Size(r, p)
    ensures gen[..next] == old(gen[..count]) + Expand(r, p) && BlankFrom(gen, next)
  {
    ghost var before, leader := gen[..count], Leader(r, p);
    Put(gen, count, Enemy(Leader(r, p).0, Leader(r, p).1, p.area));
    var end := PutFollowers(gen, count + 1, r, p);
    assert gen[..end] == before + Body(r, p);
    var last := gen[end - 1];
    assert last == gen[..end][end - 1] == Body(r, p)[|Body(r, p)| - 1];
    Fill(gen, end, Enemy(last.bp, last.rt, p.area), Clones(r));
    next := end + Clones(r);
  }

  lemma OneMoreRecord(en: seq<Record>, p: Place, i: nat, next: nat)
    requires next == i + 1 <= |en|
    ensures ExpandAll(en[..next], p) == ExpandAll(en[..i], p) + Expand(en[i], p)
    ensures |ExpandAll(en[..i], p)| + Size(en[i], p) <= |ExpandAll(en, p)|
  {
    FlatMapStep(Expander(p), en, i);
    FlatMapGrows(Expander(p), en, next);
    ExpandSize(en[i], p);
  }

  /** The whole map. The original assumes that it fits. */
  method ParseMap(en: seq<Record>, p: Place) returns (gen: array<Enemy>, count: nat)
    requires |ExpandAll(en, p)| <= MAX_ENEMIES
    ensures fresh(gen) && count <= gen.Length && gen[..count] == ExpandAll(en, p)
  {
    gen := new Enemy[MAX_ENEMIES](_ => BLANK);
    count := 0;
    var i := 0;
    while i < |en|
      invariant 0 <= i <= |en| && count <= gen.Length
      invariant gen[..count] == ExpandAll(en[..i], p) && BlankFrom(gen, count)
    {
      ghost var next := i + 1;
      OneMoreRecord(en, p, i, next);
      count := PutRecord(gen, count, en[i], p);
      i := i + 1;
    }
    assert en[..i] == en;
  }
}
