/**
  The receiving end of a client's connection (src/clients.c:436-579): bytes arrive in whatever portions `recv`
  delivers, headers are decrypted as soon as they are there, packets once they are complete.
 */
module Deframers {
  import opened Bytes
  import opened Cutting
  import opened Framing
  import opened Sequences

  class Deframer {
    const link: Link
    /** The receive buffer of the thread, and what it left over the last time. */
    const work: array<Byte>
    var recvbuf: array?<Byte>
    var recvbufCur: nat
    /** The decrypted header of the packet that is arriving, once `hdrRead` is set. */
    var header: seq<Byte>
    var hdrRead: bool
    /** How many bytes the cipher has decrypted. */
    var key: nat

    /** The packets handed on; whatever the handlers remember is a function of these. */
    var packets: seq<seq<Byte>>
    /** All that was received, and how many of the bytes the packets took up. */
    ghost var received: seq<Byte>
    ghost var used: nat

    /** The bytes buffered until more arrive. */
    ghost function Saved(): seq<Byte>
      reads this, recvbuf
    {
      if recvbuf == null || recvbufCur > recvbuf.Length then [] else recvbuf[..recvbufCur]
    }

    /** Between calls: the packets handed on are those of the stream so far, what is left of it is buffered as it
        came, the cipher is one header ahead of it exactly when `hdrRead` is set, and it is too short to be the
        packet whose header was read, or a header. */
    ghost predicate Valid()
      reads this, work, recvbuf
    {
      && link.Valid() && work.Length == BUFFER && recvbuf != work
      && (recvbuf == null ==> recvbufCur == 0) && (recvbuf != null ==> recvbufCur <= recvbuf.Length)
      && Packets(link, received) == Parsed(packets, Waiting, used)
      && used <= |received| && Saved() == received[used..]
      && KeyAhead() && (hdrRead ==> HeaderAt(link, Plain(link, 0, received), used, header))
      && recvbufCur < if hdrRead then Pending() else link.hsz
    }

    ghost predicate KeyAhead()
      reads this
    {
      key == used + if hdrRead then link.hsz else 0
    }

    /** How long the packet is whose header has been read. */
    ghost function Pending(): nat
      reads this
      requires link.Valid()
    {
      if |header| != link.hsz then 0 else Rounded(Le16(header, link.lenAt), link.hsz)
    }

    /** In the middle of a call: of the stream `whole`, with plain text `plain`, the `sz` bytes from `rbp` in the
        receive buffer on are left. */
    ghost predicate Window(whole: seq<Byte>, plain: seq<Byte>, rbp: nat, sz: nat)
      reads this, work
    {
      && link.Valid() && work.Length == BUFFER && rbp + sz <= BUFFER && Aligned(used, link.hsz)
      && plain == Plain(link, 0, whole) && used + sz == |whole| && work[rbp..rbp + sz] == whole[used..]
      && KeyAhead() && (hdrRead ==> HeaderAt(link, plain, used, header))
    }

    /** And parsing the stream from here on comes to `goal`. */
    ghost predicate At(whole: seq<Byte>, plain: seq<Byte>, goal: Parsed<Byte>, rbp: nat, sz: nat)
      reads this, work
    {
      Window(whole, plain, rbp, sz) && Reached(link, plain, packets, used, goal)
    }

    /** And what is left of the stream does not complete anything. */
    ghost predicate Rest(whole: seq<Byte>, plain: seq<Byte>, rbp: nat, sz: nat)
      reads this, work
    {
      Window(whole, plain, rbp, sz) && sz < if hdrRead then Pending() else link.hsz
    }

    /** Parsing has come to `goal`. */
    ghost predicate Done(goal: Parsed<Byte>, status: Status)
      reads this
    {
      goal == Parsed(packets, status, used) && status != Refused(0)
    }

    constructor (link: Link)
      requires link.Valid()
      ensures Valid() && this.link == link && received == [] && packets == []
    {
      this.link := link;
      work := new Byte[BUFFER](_ => 0);
      recvbuf, recvbufCur, header, hdrRead, key := null, 0, [], false, 0;
      received, packets, used := [], [], 0;
      new;
      CutterIsSteady(link);
      AlignedFacts(0, link.hsz, link.hsz);
    }

    /** There is always room in the receive buffer for another byte. */
    lemma Room()
      requires Valid()
      ensures recvbufCur < BUFFER
    {
    }

    /** `memcpy` */
    static method Copy(from: array<Byte>, at: nat, to: array<Byte>, start: nat, n: nat)
      requires from != to && at + n <= from.Length && start + n <= to.Length
      modifies to
      ensures to[..] == old(to[..start]) + from[at..at + n] + old(to[start + n..])
    {
      forall i | 0 <= i < n {
        to[start + i] := from[at + i];
      }
    }

    /** The cipher decrypts `n` bytes in place, from `at` on. */
    method CryptData(at: nat, n: nat)
      requires link.Valid() && Aligned(n, link.hsz) && at + n <= work.Length
      modifies work, this`key
      ensures key == old(key) + n
      ensures |Plain(link, old(key), old(work[at..at + n]))| == n
      ensures work[..] == old(work[..at]) + Plain(link, old(key), old(work[at..at + n])) + old(work[at + n..])
    {
      PlainSplits(link, key, work[at..at + n], n);
      assert work[at..at + n][..n] == work[at..at + n];
      var plain := Plain(link, key, work[at..at + n]);
      forall i | 0 <= i < n {
        work[at + i] := plain[i];
      }
      key := key + n;
    }

    /** Decrypt the header of the next packet unless that has been done. */
    method ReadHeader(ghost whole: seq<Byte>, ghost plain: seq<Byte>, rbp: nat, sz: nat)
      requires Window(whole, plain, rbp, sz) && sz >= link.hsz
      modifies this`header, this`hdrRead, this`key
      ensures Window(whole, plain, rbp, sz) && hdrRead
    {
      if !hdrRead {
        AlignedFacts(0, link.hsz, link.hsz);
        PlainAt(link, whole, used, link.hsz);
        var unit := work[rbp..rbp + link.hsz];
        Head(whole, rbp, sz);
        PlainOfUnit(link, used, unit);
        header := link.dec(key, unit);
        key := key + link.hsz;
        hdrRead := true;
      }
    }

    /** Put the packet that starts at `rbp` together in the receive buffer. */
    method Assemble(rbp: nat, size: nat)
      requires link.Valid() && Aligned(size, link.hsz) && link.hsz <= size && rbp + size <= work.Length
      requires |header| == link.hsz
      modifies work, this`key
      ensures key == old(key) + (size - link.hsz)
      ensures work[rbp..rbp + size] == header + Plain(link, old(key), old(work[rbp + link.hsz..rbp + size]))
      ensures forall i :: rbp + size <= i < work.Length ==> work[i] == old(work[i])
    {
      var h, body := link.hsz, size - link.hsz;
      AlignedFacts(body, h, h);
      ghost var plain := Plain(link, key, work[rbp + h..rbp + size]);
      CryptData(rbp + h, body);
      assert work[rbp + h..rbp + size] == plain;
      forall i | 0 <= i < h {
        work[rbp + i] := header[i];
      }
      assert work[rbp..rbp + h] == header && work[rbp + h..rbp + size] == plain;
      assert work[rbp..rbp + size] == work[rbp..rbp + h] + work[rbp + h..rbp + size];
    }

    /** The packet at `rbp`, all of which has arrived. */
    method Extract(ghost whole: seq<Byte>, ghost plain: seq<Byte>, rbp: nat, sz: nat, size: nat)
      returns (packet: seq<Byte>)
      requires Window(whole, plain, rbp, sz) && hdrRead && link.hsz <= size <= sz && Aligned(size, link.hsz)
      modifies work, this`key
      ensures used + size <= |plain| && packet == plain[used..used + size] && key == used + size
      ensures work[rbp + size..rbp + sz] == whole[used + size..]
    {
      PlainPacket(link, whole, used, size);
      Body(whole, rbp, sz, size);
      ghost var tail := work[rbp + size..rbp + sz];
      Assemble(rbp, size);
      assert work[rbp + size..rbp + sz] == tail;
      packet := work[rbp..rbp + size];
    }

    /** Hand it on. */
    method TakePacket(ghost whole: seq<Byte>, ghost plain: seq<Byte>, rbp: nat, sz: nat, size: nat) returns (rv: int)
      requires Window(whole, plain, rbp, sz) && hdrRead && link.hsz <= size <= sz && Aligned(size, link.hsz)
      modifies work, this`key, this`hdrRead, this`packets, this`used
      ensures used == old(used) + size <= |plain| && packets == old(packets) + [plain[old(used)..old(used) + size]]
      ensures rv == link.handle(packets) && Window(whole, plain, rbp + size, sz - size)
    {
      AlignedFacts(used, size, link.hsz);
      var packet := Extract(whole, plain, rbp, sz, size);
      packets := packets + [packet];
      rv := link.handle(packets);
      used := used + size;
      hdrRead := false;
    }

    /** The same, in terms of what parsing comes to. */
    method Deliver(ghost whole: seq<Byte>, ghost plain: seq<Byte>, ghost goal: Parsed<Byte>, rbp: nat, sz: nat,
                   size: nat)
      returns (rv: int)
      requires Window(whole, plain, rbp, sz) && hdrRead && link.hsz <= size <= sz && Aligned(size, link.hsz)
      requires HandedOn(link, plain, packets, used, goal, size)
      modifies work, this`key, this`hdrRead, this`packets, this`used
      ensures if rv == 0 then At(whole, plain, goal, rbp + size, sz - size)
              else goal == Parsed(packets, Refused(rv), used)
    {
      rv := TakePacket(whole, plain, rbp, sz, size);
    }

    lemma Head(whole: seq<Byte>, rbp: nat, sz: nat)
      requires rbp + sz <= work.Length && used + sz == |whole| && work[rbp..rbp + sz] == whole[used..]
      requires link.hsz <= sz
      ensures work[rbp..rbp + link.hsz] == whole[used..used + link.hsz]
    {
      SameWindow(work[..], rbp, whole, used, sz, 0, link.hsz);
    }

    /** Where the packet's body and what follows it are in the receive buffer. */
    lemma Body(whole: seq<Byte>, rbp: nat, sz: nat, size: nat)
      requires rbp + sz <= work.Length && used + sz == |whole| && work[rbp..rbp + sz] == whole[used..]
      requires link.hsz <= size <= sz
      ensures work[rbp + link.hsz..rbp + size] == whole[used + link.hsz..used + size]
      ensures work[rbp + size..rbp + sz] == whole[used + size..]
    {
      SameWindow(work[..], rbp, whole, used, sz, link.hsz, size);
      SameWindow(work[..], rbp, whole, used, sz, size, sz);
    }

    /** What the packet that starts at `rbp` comes to, as far as it has arrived. */
    method Look(ghost whole: seq<Byte>, ghost plain: seq<Byte>, rbp: nat, sz: nat) returns (c: Cut)
      requires Window(whole, plain, rbp, sz) && sz >= link.hsz
      modifies this`header, this`hdrRead, this`key
      ensures Window(whole, plain, rbp, sz) && hdrRead && used <= |plain|
      ensures c == Cutter(link)(plain[used..])
      ensures c.Packet? ==> link.hsz <= c.size <= sz && Aligned(c.size, link.hsz)
      ensures c == Short ==> sz < Pending()
    {
      ReadHeader(whole, plain, rbp, sz);
      PlainExtends(link, 0, whole, []);
      WholeFrom(|whole|, used, link.hsz);
      HeaderDecides(link, plain, used, header, sz);
      var len := Le16(header, link.lenAt);
      if len < link.hsz {
        return TooSmall;
      }
      var size := Rounded(len, link.hsz);
      if size == 0 {
        return TooBig;
      }
      if sz < size {
        return Short;
      }
      CutFacts(link, header, sz);
      return Packet(size);
    }

    /** One turn of the loop over what is in the receive buffer. `size` bytes are dealt with; or else the loop is
        over, because the rest of the packet is yet to come or because the connection is to be closed. */
    method Turn(ghost whole: seq<Byte>, ghost plain: seq<Byte>, ghost goal: Parsed<Byte>, rbp: nat, sz: nat)
      returns (size: nat, status: Status)
      requires At(whole, plain, goal, rbp, sz) && sz >= link.hsz
      modifies work, this`key, this`header, this`hdrRead, this`packets, this`used
      ensures size != 0 ==> status == Waiting && link.hsz <= size <= sz && At(whole, plain, goal, rbp + size, sz - size)
      ensures size == 0 ==> Done(goal, status)
      ensures size == 0 && status == Waiting ==> Rest(whole, plain, rbp, sz)
    {
      var c := Look(whole, plain, rbp, sz);
      NextStep(link, plain, packets, used, goal, c);
      match c
      case TooSmall => return 0, BadLength;
      case TooBig => return 0, Wrapped;
      case Short => return 0, Waiting;
      case Packet(n) =>
        var rv := Deliver(whole, plain, goal, rbp, sz, n);
        if rv != 0 {
          return 0, Refused(rv);
        }
        return n, Waiting;
    }

    /** What was left over and what has just been received, at the beginning of the receive buffer. */
    method Fill(chunk: seq<Byte>)
      requires work.Length == BUFFER && recvbuf != work && recvbufCur + |chunk| <= BUFFER
      requires (recvbuf == null ==> recvbufCur == 0) && (recvbuf != null ==> recvbufCur <= recvbuf.Length)
      modifies work
      ensures work[..recvbufCur + |chunk|] == Saved() + chunk
    {
      if recvbufCur != 0 {
        Copy(recvbuf, 0, work, 0, recvbufCur);
      }
      ghost var saved := Saved();
      assert work[..recvbufCur] == saved;
      forall i | 0 <= i < |chunk| {
        work[recvbufCur + i] := chunk[i];
      }
      assert work[..recvbufCur] == saved;
    }

    /** Buffer `sz` bytes from `rbp` on until more arrive. */
    method Save(rbp: nat, sz: nat)
      requires rbp + sz <= work.Length && recvbuf != work
      modifies this`recvbuf, this`recvbufCur, recvbuf
      ensures recvbuf != work && (recvbuf != old(recvbuf) ==> recvbuf == null || fresh(recvbuf))
      ensures recvbufCur == sz && (recvbuf == null ==> sz == 0) && (recvbuf != null ==> sz <= recvbuf.Length)
      ensures Saved() == work[rbp..rbp + sz]
    {
      recvbufCur := sz;
      if sz != 0 {
        if recvbuf == null || recvbuf.Length < sz {
          recvbuf := new Byte[sz];
        }
        Copy(work, rbp, recvbuf, 0, sz);
        assert Saved() == work[rbp..rbp + sz];
      } else {
        recvbuf := null;
      }
    }

    /** What the caller is told. After `Wrapped` the original runs off the end of its buffer. */
    function Code(status: Status): int {
      match status
      case Waiting => 0
      case Refused(code) => code
      case _ => -1
    }

    /** The loop over `n` bytes in the receive buffer: everything complete is handed on. */
    method Work(ghost whole: seq<Byte>, ghost plain: seq<Byte>, ghost goal: Parsed<Byte>, n: nat)
      returns (rbp: nat, sz: nat, status: Status)
      requires At(whole, plain, goal, 0, n)
      modifies work, this`key, this`header, this`hdrRead, this`packets, this`used
      ensures Done(goal, status)
      ensures status == Waiting ==> Rest(whole, plain, rbp, sz)
    {
      rbp, sz, status := 0, n, Waiting;
      while sz >= link.hsz
        invariant At(whole, plain, goal, rbp, sz) && status == Waiting
        decreases sz
      {
        var size, s := Turn(whole, plain, goal, rbp, sz);
        status := s;
        if size == 0 {
          return;
        }
        rbp, sz := rbp + size, sz - size;
      }
      Leftover(whole, plain, goal, rbp, sz);
    }

    lemma Leftover(whole: seq<Byte>, plain: seq<Byte>, goal: Parsed<Byte>, rbp: nat, sz: nat)
      requires At(whole, plain, goal, rbp, sz) && sz < link.hsz
      ensures Done(goal, Waiting) && Rest(whole, plain, rbp, sz)
    {
      PlainExtends(link, 0, whole, []);
      WaitsForHeader(link, plain, packets, used, goal);
    }

    /** Bytes have arrived: the stream is longer, and parsing is where it was. */
    method Begin(ghost whole: seq<Byte>, ghost plain: seq<Byte>, ghost goal: Parsed<Byte>, chunk: seq<Byte>)
      requires Valid() && recvbufCur + |chunk| <= BUFFER && whole == received + chunk
      requires plain == Plain(link, 0, whole) && goal == Packets(link, whole)
      modifies work, this`received, this`recvbufCur
      ensures received == whole && recvbufCur == 0
      ensures At(whole, plain, goal, 0, old(recvbufCur) + |chunk|)
    {
      Arrives(link, received, chunk, packets, used, header);
      Fill(chunk);
      received := whole;
      recvbufCur := 0;
    }

    /** One call: `chunk` is what `recv` delivers, nothing if it fails or the connection is closed. Whatever had
        arrived before and however it was divided, the packets handed on are those of the whole stream so far. */
    method ProcessPkt(chunk: seq<Byte>) returns (rv: int, ghost r: Parsed<Byte>)
      requires Valid() && recvbufCur + |chunk| <= BUFFER
      modifies this, work, recvbuf
      ensures received == old(received) + chunk && r == Packets(link, received) && packets == r.packets
      ensures chunk == [] ==> rv == -1 && unchanged(this)
      ensures chunk != [] ==> rv == Code(r.status) && (rv == 0 <==> r.status == Waiting)
      ensures chunk != [] && rv == 0 ==> Valid()
      ensures recvbuf != old(recvbuf) ==> recvbuf == null || fresh(recvbuf)
    {
      ghost var whole := received + chunk;
      ghost var plain := Plain(link, 0, whole);
      r := Packets(link, whole);
      if chunk == [] {
        assert whole == received;
        return -1, r;
      }
      var n := recvbufCur + |chunk|;
      Begin(whole, plain, r, chunk);
      var status := Handle(whole, plain, r, n);
      rv := Code(status);
    }

    /** Hand on what is complete and buffer the rest. */
    method Handle(ghost whole: seq<Byte>, ghost plain: seq<Byte>, ghost goal: Parsed<Byte>, n: nat)
      returns (status: Status)
      requires At(whole, plain, goal, 0, n) && received == whole && recvbuf != work && goal == Packets(link, whole)
      modifies work, this`key, this`header, this`hdrRead, this`packets, this`used
      modifies this`recvbuf, this`recvbufCur, recvbuf
      ensures goal == Parsed(packets, status, used) && status != Refused(0)
      ensures status == Waiting ==> Valid()
      ensures recvbuf != old(recvbuf) ==> recvbuf == null || fresh(recvbuf)
    {
      var rbp, sz, s := Work(whole, plain, goal, n);
      status := s;
      if status == Waiting {
        Save(rbp, sz);
      } else {
        recvbuf := null;
      }
    }

    /** A whole connection: as long as nothing goes wrong, `recv` is called again, and delivers as many bytes of
        `stream` as it pleases, at least one and at most as many as there is room for. */
    method Serve(stream: seq<Byte>, want: nat -> nat) returns (rv: int)
      requires Valid() && received == [] && packets == []
      modifies this, work, recvbuf
      ensures packets == Packets(link, stream).packets
      ensures stream != [] ==> rv == Code(Packets(link, stream).status)
    {
      rv := 0;
      var at := 0;
      while at < |stream| && rv == 0
        invariant at <= |stream| && received == stream[..at] && packets == Packets(link, received).packets
        invariant if rv == 0 then Valid() else Packets(link, received).status != Waiting
        invariant at != 0 ==> rv == Code(Packets(link, received).status)
        invariant recvbuf != old(recvbuf) ==> recvbuf == null || fresh(recvbuf)
        decreases |stream| - at
      {
        var n := want(at);
        if n > |stream| - at {
          n := |stream| - at;
        }
        if n > BUFFER - recvbufCur {
          n := BUFFER - recvbufCur;
        }
        Room();
        if n == 0 {
          n := 1;
        }
        assert stream[..at + n] == stream[..at] + stream[at..at + n];
        ghost var r;
        rv, r := ProcessPkt(stream[at..at + n]);
        at := at + n;
      }
      PrefixDecides(link, stream, at);
    }
  }
}