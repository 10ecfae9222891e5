/**
  What the packets in a client's byte stream are (src/clients.c:436-579): decrypt the whole stream, cut the
  plain text into packets, and hand these on until one has a bad length or its handler objects.

  The cipher is known only as one that works on units of a header's length, one after the other: `dec(p, unit)`
  is the plain text of the unit at byte `p` of the stream.
 */
module Framing {
  import opened Bytes
  import opened Cutting
  import opened Sequences

  datatype Link = Link(hsz: nat, lenAt: nat, dec: (nat, seq<Byte>) -> seq<Byte>, handle: seq<seq<Byte>> -> int) {
    /** Blue Burst headers are 8 bytes long, all others 4; the length is in the first or the second two bytes.
        `handle` is what the handler of the last packet answers when those before it have been handled too. */
    ghost predicate Valid() {
      && (hsz == 4 || hsz == 8) && lenAt + 2 <= hsz
      && forall p: nat, unit: seq<Byte> :: |unit| == hsz ==> |dec(p, unit)| == hsz
    }
  }

  const BUFFER := 65536

  function Remainder(n: nat, hsz: nat): (r: nat)
    requires hsz == 4 || hsz == 8
    ensures r < hsz && r <= n
  {
    if hsz == 4 then n % 4 else n % 8
  }

  predicate Aligned(n: nat, hsz: nat) {
    (hsz == 4 || hsz == 8) && Remainder(n, hsz) == 0
  }

  lemma AlignedFacts(a: nat, b: nat, hsz: nat)
    requires Aligned(b, hsz)
    ensures Aligned(a + b, hsz) <==> Aligned(a, hsz)
    ensures b > 0 ==> b >= hsz
    ensures Aligned(0, hsz) && Aligned(hsz, hsz)
  {
  }

  /** Rounded up to a multiple of the header's length, in 16 bits: lengths above 0x10000 - hsz give 0. */
  function Rounded(len: nat, hsz: nat): (size: nat)
    requires (hsz == 4 || hsz == 8) && len < 0x10000
  {
    if Remainder(len, hsz) != 0 then (len - Remainder(len, hsz) + hsz) % 0x10000 else len
  }

  /** Rounding gives the least multiple that is large enough, except that the largest lengths wrap to 0. */
  lemma RoundedFits(len: nat, hsz: nat)
    requires (hsz == 4 || hsz == 8) && hsz <= len < 0x10000
    ensures Aligned(Rounded(len, hsz), hsz)
    ensures Rounded(len, hsz) == 0 <==> len > 0x10000 - hsz
    ensures len <= 0x10000 - hsz ==> len <= Rounded(len, hsz) < len + hsz && Rounded(len, hsz) <= 0x10000 - hsz
  {
  }

  // ---------------------------------------------------------------- the reference

  /** The plain text of the whole units of `s`, which starts at byte `p` of the stream. */
  function Plain(k: Link, p: nat, s: seq<Byte>): seq<Byte>
    requires k.Valid()
    decreases |s|
  {
    if |s| < k.hsz then [] else k.dec(p, s[..k.hsz]) + Plain(k, p + k.hsz, s[k.hsz..])
  }

  /** What the plain text begins with. */
  function FirstCut(k: Link, plain: seq<Byte>): (c: Cut)
    ensures c.Packet? ==> 0 < k.hsz <= c.size <= |plain| && Aligned(c.size, k.hsz)
  {
    if (k.hsz != 4 && k.hsz != 8) || k.lenAt + 2 > k.hsz || |plain| < k.hsz then Short
    else
      var len := Le16(plain, k.lenAt);
      if len < k.hsz then TooSmall
      else
        RoundedFits(len, k.hsz);
        var size := Rounded(len, k.hsz);
        if size == 0 then TooBig else if |plain| < size then Short else Packet(size)
  }

  ghost function Cutter(k: Link): seq<Byte> -> Cut {
    (plain: seq<Byte>) => FirstCut(k, plain)
  }

  lemma CutterIsSteady(k: Link)
    ensures Steady(Cutter(k))
  {
    forall s: seq<Byte>, more: seq<Byte> | Cutter(k)(s) != Short ensures Cutter(k)(s + more) == Cutter(k)(s) {
      assert Le16(s, k.lenAt) == Le16(s + more, k.lenAt);
    }
  }

  /** What a client that sends exactly `stream` gets handled. */
  ghost function Packets(k: Link, stream: seq<Byte>): Parsed<Byte>
    requires k.Valid()
  {
    Parse(Cutter(k), k.handle, Plain(k, 0, stream), 0, [])
  }

  // ---------------------------------------------------------------- plain text

  lemma {:induction false} PlainSplits(k: Link, p: nat, s: seq<Byte>, n: nat)
    requires k.Valid() && n <= |s| && Aligned(n, k.hsz)
    ensures Plain(k, p, s) == Plain(k, p, s[..n]) + Plain(k, p + n, s[n..])
    ensures |Plain(k, p, s[..n])| == n
    decreases n
  {
    if n == 0 {
      assert s[..0] == [] && s[0..] == s;
    } else {
      var h, m := k.hsz, n - k.hsz;
      AlignedFacts(m, h, h);
      PlainSplits(k, p + h, s[h..], m);
      PlainSplitsLater(k, p, s, n, m);
    }
  }

  lemma PlainSplitsLater(k: Link, p: nat, s: seq<Byte>, n: nat, m: nat)
    requires k.Valid() && n <= |s| && n == k.hsz + m
    requires var next, t := p + k.hsz, s[k.hsz..];
             Plain(k, next, t) == Plain(k, next, t[..m]) + Plain(k, next + m, t[m..]) && |Plain(k, next, t[..m])| == m
    ensures Plain(k, p, s) == Plain(k, p, s[..n]) + Plain(k, p + n, s[n..])
    ensures |Plain(k, p, s[..n])| == n
  {
    var h, next, t, whole := k.hsz, p + k.hsz, s[k.hsz..], s[..n];
    CutTwice(s, h, n, m);
    PlainUnit(k, p, s);
    PlainUnit(k, p, whole);
    Regroup(k.dec(p, s[..h]), Plain(k, next, t[..m]), Plain(k, p + n, s[n..]));
  }

  lemma PlainUnit(k: Link, p: nat, s: seq<Byte>)
    requires k.Valid() && |s| >= k.hsz
    ensures Plain(k, p, s) == k.dec(p, s[..k.hsz]) + Plain(k, p + k.hsz, s[k.hsz..])
    ensures |k.dec(p, s[..k.hsz])| == k.hsz
  {
  }

  /** The whole units of `n` bytes, in bytes. */
  function Whole(n: nat, hsz: nat): (w: nat)
    requires hsz == 4 || hsz == 8
    ensures w <= n < w + hsz && Aligned(w, hsz)
  {
    n - Remainder(n, hsz)
  }

  /** More ciphertext only lengthens the plain text. */
  lemma PlainExtends(k: Link, p: nat, s: seq<Byte>, more: seq<Byte>)
    requires k.Valid()
    ensures var w := Whole(|s|, k.hsz);
            Plain(k, p, s + more) == Plain(k, p, s) + Plain(k, p + w, (s + more)[w..])
    ensures |Plain(k, p, s)| == Whole(|s|, k.hsz)
  {
    var w := Whole(|s|, k.hsz);
    PlainSplits(k, p, s, w);
    PlainSplits(k, p, s + more, w);
    assert (s + more)[..w] == s[..w];
    assert Plain(k, p + w, s[w..]) == [];
  }

  // ---------------------------------------------------------------- parsing in instalments

  lemma {:induction false} UsedIsAligned(k: Link, plain: seq<Byte>, at: nat, done: seq<seq<Byte>>)
    requires at <= |plain| && Aligned(at, k.hsz)
    ensures Aligned(Parse(Cutter(k), k.handle, plain, at, done).used, k.hsz)
    decreases |plain| - at
  {
    var c := Cutter(k)(plain[at..]);
    assert c == FirstCut(k, plain[at..]);
    if c.Packet? {
      AlignedFacts(at, c.size, k.hsz);
      if k.handle(done + [plain[at..at + c.size]]) == 0 {
        UsedIsAligned(k, plain, at + c.size, done + [plain[at..at + c.size]]);
      }
    }
  }

  /** Parsing has got to byte `used` of a stream whose plain text is `plain`, and will come to `goal`. */
  ghost predicate Reached(k: Link, plain: seq<Byte>, packets: seq<seq<Byte>>, used: nat, goal: Parsed<Byte>) {
    used <= |plain| && Aligned(used, k.hsz) && goal == Parse(Cutter(k), k.handle, plain, used, packets)
  }

  lemma PlainIsPrefix(k: Link, stream: seq<Byte>, more: seq<Byte>)
    requires k.Valid()
    ensures Plain(k, 0, stream) <= Plain(k, 0, stream + more) && |Plain(k, 0, stream)| <= |stream|
  {
    PlainExtends(k, 0, stream, more);
  }

  /** A stream cut off anywhere: when parsing had stopped the rest of the stream makes no difference; otherwise
      it is taken up where it stopped. */
  lemma PacketsResume(k: Link, stream: seq<Byte>, more: seq<Byte>)
    requires k.Valid()
    ensures var r := Packets(k, stream);
            if r.status == Waiting
            then r.used <= |stream|
              && Reached(k, Plain(k, 0, stream + more), r.packets, r.used, Packets(k, stream + more))
            else Packets(k, stream + more) == r
  {
    CutterIsSteady(k);
    PlainIsPrefix(k, stream, more);
    var plain := Plain(k, 0, stream);
    ParseResumes(Cutter(k), k.handle, plain, Plain(k, 0, stream + more), 0, []);
    AlignedFacts(0, k.hsz, k.hsz);
    UsedIsAligned(k, plain, 0, []);
  }

  // ---------------------------------------------------------------- a header ahead

  /** What the first `n` bytes of a stream hold, told from their decrypted header alone. */
  function HeaderCut(k: Link, header: seq<Byte>, n: nat): (c: Cut)
    requires (k.hsz == 4 || k.hsz == 8) && k.lenAt + 2 <= k.hsz == |header|
  {
    var len := Le16(header, k.lenAt);
    var size := Rounded(len, k.hsz);
    if len < k.hsz then TooSmall else if size == 0 then TooBig else if n < size then Short else Packet(size)
  }

  lemma WholeFrom(n: nat, used: nat, hsz: nat)
    requires used <= n && Aligned(used, hsz)
    ensures used <= Whole(n, hsz) && Whole(n, hsz) - used == Whole(n - used, hsz)
  {
    SameRemainder(n, used, n - used, hsz);
  }

  lemma SameRemainder(n: nat, used: nat, m: nat, hsz: nat)
    requires n == used + m && Aligned(used, hsz)
    ensures Remainder(n, hsz) == Remainder(m, hsz)
  {
    if hsz == 4 {
      RemainderBy4(n, used / 4 + m / 4, m % 4);
    } else {
      RemainderBy8(n, used / 8 + m / 8, m % 8);
    }
  }

  lemma RemainderBy4(n: int, q: int, r: int)
    requires n == 4 * q + r && 0 <= r < 4
    ensures n % 4 == r
  {
  }

  lemma RemainderBy8(n: int, q: int, r: int)
    requires n == 8 * q + r && 0 <= r < 8
    ensures n % 8 == r
  {
  }

  /** Bytes that do not make up a whole unit never complete a packet. */
  lemma WholeHolds(n: nat, size: nat, hsz: nat)
    requires Aligned(size, hsz)
    ensures size <= n <==> size <= Whole(n, hsz)
  {
  }

  /** Any whole units of a stream can be decrypted by themselves, the keys being as far on as they are. */
  lemma PlainAt(k: Link, stream: seq<Byte>, p: nat, n: nat)
    requires k.Valid() && p + n <= |stream| && Aligned(p, k.hsz) && Aligned(n, k.hsz)
    ensures p + n <= |Plain(k, 0, stream)| && Plain(k, 0, stream)[p..p + n] == Plain(k, p, stream[p..p + n])
  {
    PlainSplits(k, 0, stream, p);
    PlainSplits(k, p, stream[p..], n);
    TailHead(stream, p, n);
    Middle(Plain(k, 0, stream[..p]), Plain(k, p, stream[p..p + n]), Plain(k, p + n, stream[p..][n..]), p, n);
  }

  /** Decrypting the header and then the body is decrypting the packet. */
  lemma PlainPacket(k: Link, stream: seq<Byte>, used: nat, size: nat)
    requires k.Valid() && used + size <= |stream| && Aligned(used, k.hsz) && Aligned(size, k.hsz) && k.hsz <= size
    ensures var plain := Plain(k, 0, stream);
            && used + size <= |plain|
            && plain[used..used + size] ==
              plain[used..used + k.hsz] + Plain(k, used + k.hsz, stream[used + k.hsz..used + size])
  {
    AlignedFacts(size - k.hsz, k.hsz, k.hsz);
    AlignedFacts(used, k.hsz, k.hsz);
    PlainAt(k, stream, used + k.hsz, size - k.hsz);
    Joined(Plain(k, 0, stream), used, used + k.hsz, used + size);
  }

  lemma Middle(a: seq<Byte>, b: seq<Byte>, c: seq<Byte>, p: nat, n: nat)
    requires |a| == p && |b| == n
    ensures |a + (b + c)| >= p + n && (a + (b + c))[p..p + n] == b
  {
  }

  lemma Joined(s: seq<Byte>, a: nat, b: nat, c: nat)
    requires a <= b <= c <= |s|
    ensures s[a..c] == s[a..b] + s[b..c]
  {
  }

  lemma PlainOfUnit(k: Link, p: nat, unit: seq<Byte>)
    requires k.Valid() && |unit| == k.hsz
    ensures Plain(k, p, unit) == k.dec(p, unit)
  {
    assert unit[..k.hsz] == unit;
  }

  lemma CutFacts(k: Link, header: seq<Byte>, n: nat)
    requires (k.hsz == 4 || k.hsz == 8) && k.lenAt + 2 <= k.hsz == |header| && HeaderCut(k, header, n).Packet?
    ensures var size := HeaderCut(k, header, n).size; k.hsz <= size <= n && Aligned(size, k.hsz)
  {
    RoundedFits(Le16(header, k.lenAt), k.hsz);
  }

  ghost predicate HeaderAt(k: Link, plain: seq<Byte>, used: nat, header: seq<Byte>) {
    k.lenAt + 2 <= k.hsz == |header| && used + k.hsz <= |plain| && header == plain[used..used + k.hsz]
  }

  /** More bytes arrive while parsing waits: it goes on where it was, with the header it may have. */
  lemma Arrives(k: Link, stream: seq<Byte>, more: seq<Byte>, packets: seq<seq<Byte>>, used: nat, header: seq<Byte>)
    requires k.Valid() && Packets(k, stream) == Parsed(packets, Waiting, used)
    ensures used <= |stream| && Reached(k, Plain(k, 0, stream + more), packets, used, Packets(k, stream + more))
    ensures HeaderAt(k, Plain(k, 0, stream), used, header) ==> HeaderAt(k, Plain(k, 0, stream + more), used, header)
    ensures (stream + more)[used..] == stream[used..] + more
  {
    PacketsResume(k, stream, more);
    PlainIsPrefix(k, stream, more);
  }

  /** After a connection has been given up, what else the client sends does not matter. */
  lemma PrefixDecides(k: Link, stream: seq<Byte>, n: nat)
    requires k.Valid() && n <= |stream| && (n < |stream| ==> Packets(k, stream[..n]).status != Waiting)
    ensures Packets(k, stream) == Packets(k, stream[..n])
  {
    assert stream == stream[..n] + stream[n..];
    if n < |stream| {
      PacketsResume(k, stream[..n], stream[n..]);
    } else {
      assert stream[..n] == stream;
    }
  }

  /** A header decides what the plain text begins with, once it is known how much has arrived. */
  lemma HeaderDecides(k: Link, plain: seq<Byte>, used: nat, header: seq<Byte>, n: nat)
    requires (k.hsz == 4 || k.hsz == 8) && HeaderAt(k, plain, used, header) && |plain| - used == Whole(n, k.hsz)
    ensures Cutter(k)(plain[used..]) == HeaderCut(k, header, n)
    ensures HeaderCut(k, header, n).Packet? ==> k.hsz <= HeaderCut(k, header, n).size <= |plain| - used
  {
    assert Le16(plain[used..], k.lenAt) == Le16(header, k.lenAt);
    var len := Le16(header, k.lenAt);
    if len >= k.hsz {
      RoundedFits(len, k.hsz);
      WholeHolds(n, Rounded(len, k.hsz), k.hsz);
    }
  }

  /** One step of the reference: handing on the next packet, stopping, or waiting. */
  lemma NextStep(k: Link, plain: seq<Byte>, packets: seq<seq<Byte>>, used: nat, goal: Parsed<Byte>, c: Cut)
    requires Reached(k, plain, packets, used, goal) && c == Cutter(k)(plain[used..])
    ensures c == Short ==> goal == Parsed(packets, Waiting, used)
    ensures c == TooSmall ==> goal == Parsed(packets, BadLength, used)
    ensures c == TooBig ==> goal == Parsed(packets, Wrapped, used)
    ensures c.Packet? ==> 0 < c.size <= |plain| - used && HandedOn(k, plain, packets, used, goal, c.size)
  {
    if c.Packet? {
      AlignedFacts(used, c.size, k.hsz);
    }
  }

  ghost predicate HandedOn(k: Link, plain: seq<Byte>, packets: seq<seq<Byte>>, used: nat, goal: Parsed<Byte>,
                           size: nat)
  {
    used + size <= |plain| &&
    var ps, next := packets + [plain[used..used + size]], used + size;
    if k.handle(ps) != 0 then goal == Parsed(ps, Refused(k.handle(ps)), next) else Reached(k, plain, ps, next, goal)
  }

  /** Less than a header is not enough for anything. */
  lemma WaitsForHeader(k: Link, plain: seq<Byte>, packets: seq<seq<Byte>>, used: nat, goal: Parsed<Byte>)
    requires Reached(k, plain, packets, used, goal) && |plain| - used < k.hsz
    ensures goal == Parsed(packets, Waiting, used)
  {
  }

  // ---------------------------------------------------------------- what the reference means

  /** A packet is as long as its own length field says, rounded up to a whole number of units. */
  ghost predicate Framed(k: Link, packet: seq<Byte>) {
    && (k.hsz == 4 || k.hsz == 8) && k.lenAt + 2 <= k.hsz <= |packet|
    && var len := Le16(packet, k.lenAt); len <= |packet| < len + k.hsz && Aligned(|packet|, k.hsz)
  }

  lemma CutIsFramed(k: Link, plain: seq<Byte>)
    requires FirstCut(k, plain).Packet?
    ensures Framed(k, plain[..FirstCut(k, plain).size])
  {
    var len := Le16(plain, k.lenAt);
    RoundedFits(len, k.hsz);
    var packet := plain[..FirstCut(k, plain).size];
    assert Le16(packet, k.lenAt) == len;
  }

  /** The packets handed on are, one after the other, the plain text used, and each is as long as it says. */
  lemma PacketsAreTheStream(k: Link, stream: seq<Byte>)
    requires k.Valid()
    ensures var r := Packets(k, stream);
            && r.used <= |Plain(k, 0, stream)| && Flat(r.packets) == Plain(k, 0, stream)[..r.used]
            && forall i :: 0 <= i < |r.packets| ==> Framed(k, r.packets[i])
  {
    forall t: seq<Byte> | Cutter(k)(t).Packet? ensures Framed(k, t[..Cutter(k)(t).size]) {
      CutIsFramed(k, t);
    }
    NothingLost(Cutter(k), k.handle, Plain(k, 0, stream), 0, []);
    AllCut(Cutter(k), k.handle, Plain(k, 0, stream), 0, [], p => Framed(k, p));
  }

  /** The first two bytes of a length field, the lower one first. */
  ghost predicate Stores(header: seq<Byte>, at: nat, n: nat) {
    at + 2 <= |header| && n < 0x10000 && header[at] == n % 0x100 && header[at + 1] == n / 0x100
  }

  lemma HeaderFirst(k: Link, stream: seq<Byte>)
    requires k.Valid() && k.hsz <= |stream|
    ensures |Plain(k, 0, stream)| >= k.hsz && Plain(k, 0, stream)[..k.hsz] == k.dec(0, stream[..k.hsz])
  {
    PlainUnit(k, 0, stream);
  }

  /** What the length stored in the first header, decrypted, means: too little for a header, and the connection is given
      up; otherwise, the length rounded up being `size`, the first packet has that many bytes, and is handed on as soon
      as they are there. */
  lemma FirstPacket(k: Link, stream: seq<Byte>, n: nat, size: nat)
    requires k.Valid() && k.hsz <= |stream| && Stores(k.dec(0, stream[..k.hsz]), k.lenAt, n)
    requires n <= size < n + k.hsz && (if k.hsz == 8 then size % 8 == 0 else size % 4 == 0) && n <= 0x10000 - k.hsz
    ensures var r := Packets(k, stream);
            && (n < k.hsz ==> r == Parsed([], BadLength, 0))
            && (k.hsz <= n && |stream| < size ==> r == Parsed([], Waiting, 0))
            && (k.hsz <= n && size <= |stream| ==>
                  |r.packets| > 0 && |Plain(k, 0, stream)| >= size && r.packets[0] == Plain(k, 0, stream)[..size])
  {
    var plain := Plain(k, 0, stream);
    HeaderFirst(k, stream);
    assert plain[..] == plain;
    assert plain[k.lenAt] == plain[..k.hsz][k.lenAt] && plain[k.lenAt + 1] == plain[..k.hsz][k.lenAt + 1];
    Stored16(plain, k.lenAt, n);
    PlainExtends(k, 0, stream, []);
    if k.hsz <= n {
      RoundedIs(n, size, k.hsz);
      WholeHolds(|stream|, size, k.hsz);
      if size <= |stream| {
        FirstCutPacket(k, plain, size);
      }
    }
  }

  lemma RoundedIs(n: nat, size: nat, hsz: nat)
    requires (hsz == 4 || hsz == 8) && hsz <= n <= 0x10000 - hsz && n <= size < n + hsz && Aligned(size, hsz)
    ensures Rounded(n, hsz) == size
  {
    RoundedFits(n, hsz);
    AlignedOnce(Rounded(n, hsz), size, hsz);
  }

  /** Two multiples less than a header apart are the same. */
  lemma AlignedOnce(a: nat, b: nat, hsz: nat)
    requires (hsz == 4 || hsz == 8) && Aligned(a, hsz) && Aligned(b, hsz)
    requires a < b + hsz && b < a + hsz
    ensures a == b
  {
    if hsz == 4 {
      assert a == 4 * (a / 4) && b == 4 * (b / 4);
    } else {
      assert a == 8 * (a / 8) && b == 8 * (b / 8);
    }
  }

  lemma FirstCutPacket(k: Link, plain: seq<Byte>, size: nat)
    requires FirstCut(k, plain) == Packet(size) && 0 < size <= |plain|
    ensures var r := Parse(Cutter(k), k.handle, plain, 0, []); |r.packets| > 0 && r.packets[0] == plain[..size]
  {
    assert plain[0..] == plain && plain[0..size] == plain[..size];
    var packets := [] + [plain[0..size]];
    ParseKeepsDone(Cutter(k), k.handle, plain, size, packets);
  }
}
