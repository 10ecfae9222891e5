/**
  Cutting a growing sequence into packets: what arrives later continues the cutting where it stopped.
 */
module Cutting {
  import opened Sequences

  /** What a sequence begins with: not enough to tell, something unusable, or a packet of a given size. */
  datatype Cut = Short | TooSmall | TooBig | Packet(size: nat)

  datatype Status = Waiting | BadLength | Wrapped | Refused(code: int)

  /** The packets handed on, why no more were, and how many elements they took up. */
  datatype Parsed<T> = Parsed(packets: seq<seq<T>>, status: Status, used: nat)

  /** A way of cutting takes something, takes only what is there, and once it has decided does not care what
      comes later. */
  ghost predicate Steady<T(!new)>(cut: seq<T> -> Cut) {
    && (forall s :: cut(s).Packet? ==> 0 < cut(s).size <= |s|)
    && (forall s, more {:trigger cut(s + more)} :: cut(s) != Short ==> cut(s + more) == cut(s))
  }

  /** Parse `s` from position `at` on, `done` being the packets before that. `handle` is what the handler of the
      last packet answers when those before it have been handled too. */
  ghost function Parse<T(!new)>(cut: seq<T> -> Cut, handle: seq<seq<T>> -> int, s: seq<T>, at: nat, done: seq<seq<T>>):
    Parsed<T>
    requires at <= |s|
    decreases |s| - at
  {
    match cut(s[at..])
    case Short => Parsed(done, Waiting, at)
    case TooSmall => Parsed(done, BadLength, at)
    case TooBig => Parsed(done, Wrapped, at)
    case Packet(size) =>
      if size == 0 || at + size > |s| then Parsed(done, Wrapped, at) else
      var packets := done + [s[at..at + size]];
      if handle(packets) != 0 then Parsed(packets, Refused(handle(packets)), at + size)
      else Parse(cut, handle, s, at + size, packets)
  }

  lemma CutPersists<T(!new)>(cut: seq<T> -> Cut, s: seq<T>, all: seq<T>, at: nat)
    requires Steady(cut) && s <= all && at <= |s| && cut(s[at..]) != Short
    ensures cut(all[at..]) == cut(s[at..])
  {
    assert all[at..] == s[at..] + all[|s|..];
  }

  /** Once parsing has stopped, more input changes nothing; as long as it is waiting, it goes on with what has not
      been used yet. */
  lemma {:induction false} ParseResumes<T(!new)>(cut: seq<T> -> Cut, handle: seq<seq<T>> -> int, s: seq<T>, all: seq<T>,
                                                 at: nat, done: seq<seq<T>>)
    requires Steady(cut) && s <= all && at <= |s|
    ensures var r := Parse(cut, handle, s, at, done);
            && r.used <= |s|
            && Parse(cut, handle, all, at, done) ==
               if r.status == Waiting then Parse(cut, handle, all, r.used, r.packets) else r
    decreases |s| - at
  {
    var c := cut(s[at..]);
    if c != Short {
      CutPersists(cut, s, all, at);
      if c.Packet? {
        var next := at + c.size;
        var packets := done + [s[at..next]];
        assert all[at..next] == s[at..next];
        if handle(packets) == 0 {
          ParseResumes(cut, handle, s, all, next, packets);
        }
      }
    }
  }

  /** What has been handed on stays handed on. */
  lemma {:induction false} ParseKeepsDone<T(!new)>(cut: seq<T> -> Cut, handle: seq<seq<T>> -> int, s: seq<T>, at: nat,
                                                   done: seq<seq<T>>)
    requires at <= |s|
    ensures done <= Parse(cut, handle, s, at, done).packets
    decreases |s| - at
  {
    var c := cut(s[at..]);
    if c.Packet? && 0 < c.size <= |s| - at {
      var next := at + c.size;
      var packets := done + [s[at..next]];
      if handle(packets) == 0 {
        ParseKeepsDone(cut, handle, s, next, packets);
      }
    }
  }

  /** Packets one after the other make up exactly what was used: nothing is lost, repeated or reordered. */
  lemma {:induction false} NothingLost<T(!new)>(cut: seq<T> -> Cut, handle: seq<seq<T>> -> int, s: seq<T>, at: nat,
                                                done: seq<seq<T>>)
    requires at <= |s| && Flat(done) == s[..at]
    ensures var r := Parse(cut, handle, s, at, done); at <= r.used <= |s| && Flat(r.packets) == s[..r.used]
    decreases |s| - at
  {
    var c := cut(s[at..]);
    if c.Packet? && 0 < c.size <= |s| - at {
      var next := at + c.size;
      var packet := s[at..next];
      FlatAppend(done, packet);
      assert s[..at] + packet == s[..next];
      if handle(done + [packet]) == 0 {
        NothingLost(cut, handle, s, next, done + [packet]);
      }
    }
  }

  /** Whatever is true of every packet that can be cut is true of each packet handed on. */
  lemma {:induction false} AllCut<T(!new)>(cut: seq<T> -> Cut, handle: seq<seq<T>> -> int, s: seq<T>, at: nat,
                                           done: seq<seq<T>>, good: seq<T> -> bool)
    requires at <= |s| && (forall i :: 0 <= i < |done| ==> good(done[i]))
    requires forall t :: cut(t).Packet? && cut(t).size <= |t| ==> good(t[..cut(t).size])
    ensures var r := Parse(cut, handle, s, at, done); forall i :: 0 <= i < |r.packets| ==> good(r.packets[i])
    decreases |s| - at
  {
    var c := cut(s[at..]);
    if c.Packet? && 0 < c.size <= |s| - at {
      var next := at + c.size;
      var packets := done + [s[at..next]];
      assert s[at..next] == s[at..][..c.size] && good(s[at..next]);
      var r := Parse(cut, handle, s, at, done);
      if handle(packets) == 0 {
        AllCut(cut, handle, s, next, packets, good);
        assert r == Parse(cut, handle, s, next, packets);
      } else {
        assert r.packets == packets;
      }
    }
  }
}
