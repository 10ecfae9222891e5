/** Concatenating sequences, and mapping a sequence to a concatenation, piece by piece. */
module Sequences {
  lemma Subslice<T>(s: seq<T>, a: nat, b: nat, i: nat, j: nat)
    requires a <= b <= |s| && i <= j <= b - a
    ensures s[a..b][i..j] == s[a + i..a + j]
  {
    var t, u := s[a..b][i..j], s[a + i..a + j];
    assert |t| == |u| && forall x :: 0 <= x < |t| ==> t[x] == u[x];
  }

  /** Cutting at two places, in either order. */
  lemma CutTwice<T>(s: seq<T>, h: nat, n: nat, m: nat)
    requires h <= n <= |s| && m == n - h
    ensures s[..n][..h] == s[..h] && s[..n][h..] == s[h..][..m] && s[h..][m..] == s[n..]
  {
    Subslice(s, 0, n, 0, h);
    Subslice(s, 0, n, h, n);
    Subslice(s, h, |s|, 0, m);
    Subslice(s, h, |s|, m, |s| - h);
  }

  /** If two sequences agree over a stretch, they agree over any part of it. */
  lemma SameWindow<T>(s: seq<T>, a: nat, t: seq<T>, b: nat, n: nat, i: nat, j: nat)
    requires a + n <= |s| && b + n <= |t| && s[a..a + n] == t[b..b + n] && i <= j <= n
    ensures s[a + i..a + j] == t[b + i..b + j]
  {
    Subslice(s, a, a + n, i, j);
    Subslice(t, b, b + n, i, j);
  }

  lemma TailHead<T>(s: seq<T>, p: nat, n: nat)
    requires p + n <= |s|
    ensures s[p..][..n] == s[p..p + n]
  {
  }

  lemma Regroup<T>(a: seq<T>, b: seq<T>, c: seq<T>)
    ensures a + (b + c) == a + b + c
  {
  }

  ghost function Flat<T>(chunks: seq<seq<T>>): seq<T> {
    if chunks == [] then [] else Flat(chunks[..|chunks| - 1]) + chunks[|chunks| - 1]
  }

  lemma FlatAppend<T>(chunks: seq<seq<T>>, chunk: seq<T>)
    ensures Flat(chunks + [chunk]) == Flat(chunks) + chunk
  {
    assert (chunks + [chunk])[..|chunks|] == chunks;
  }

  lemma FlatStep<T>(chunks: seq<seq<T>>, n: nat)
    requires n < |chunks|
    ensures Flat(chunks[..n + 1]) == Flat(chunks[..n]) + chunks[n]
  {
    assert chunks[..n + 1][..n] == chunks[..n];
  }

  lemma {:induction false} FlatPrefix<T>(chunks: seq<seq<T>>, n: nat)
    requires n <= |chunks|
    ensures |Flat(chunks[..n])| <= |Flat(chunks)|
    decreases |chunks|
  {
    if n == |chunks| {
      assert chunks[..n] == chunks;
    } else {
      FlatPrefix(chunks[..|chunks| - 1], n);
      assert chunks[..|chunks| - 1][..n] == chunks[..n];
    }
  }

  lemma {:induction false} FlatSum<T>(a: seq<seq<T>>, b: seq<seq<T>>)
    ensures Flat(a + b) == Flat(a) + Flat(b)
  {
    if b == [] {
      assert a + b == a;
    } else {
      var init, last := b[..|b| - 1], b[|b| - 1];
      FlatSum(a, init);
      assert a + b == (a + init) + [last];
      FlatAppend(a + init, last);
      Regroup(Flat(a), Flat(init), last);
    }
  }

  ghost function FlatMap<A, B>(f: A -> seq<B>, s: seq<A>): seq<B> {
    if s == [] then [] else FlatMap(f, s[..|s| - 1]) + f(s[|s| - 1])
  }

  lemma {:induction false} FlatMapConcat<A, B>(f: A -> seq<B>, a: seq<A>, b: seq<A>)
    ensures FlatMap(f, a + b) == FlatMap(f, a) + FlatMap(f, b)
  {
    if b == [] {
      assert a + b == a;
    } else {
      var init, last := b[..|b| - 1], b[|b| - 1];
      FlatMapConcat(f, a, init);
      assert (a + b)[..|a + b| - 1] == a + init && (a + b)[|a + b| - 1] == last;
      assert FlatMap(f, a) + FlatMap(f, init) + f(last) == FlatMap(f, a) + (FlatMap(f, init) + f(last));
    }
  }

  lemma FlatMapStep<A, B>(f: A -> seq<B>, s: seq<A>, n: nat)
    requires n < |s|
    ensures FlatMap(f, s[..n + 1]) == FlatMap(f, s[..n]) + f(s[n])
  {
    assert s[..n + 1][..n] == s[..n];
  }

  function Sum<A>(size: A -> nat, s: seq<A>): nat {
    if s == [] then 0 else Sum(size, s[..|s| - 1]) + size(s[|s| - 1])
  }

  lemma {:induction false} FlatMapSize<A, B>(f: A -> seq<B>, size: A -> nat, s: seq<A>)
    requires forall i :: 0 <= i < |s| ==> |f(s[i])| == size(s[i])
    ensures |FlatMap(f, s)| == Sum(size, s)
  {
    if s != [] {
      FlatMapSize(f, size, s[..|s| - 1]);
    }
  }

  lemma {:induction false} FlatMapGrows<A, B>(f: A -> seq<B>, s: seq<A>, n: nat)
    requires n <= |s|
    ensures FlatMap(f, s[..n]) <= FlatMap(f, s)
  {
    FlatMapConcat(f, s[..n], s[n..]);
    assert s[..n] + s[n..] == s;
  }

  /** What holds of every element of every piece holds of every element of the concatenation. */
  lemma {:induction false} FlatMapAll<A, B>(f: A -> seq<B>, s: seq<A>, good: B -> bool)
    requires forall i, k :: 0 <= i < |s| && 0 <= k < |f(s[i])| ==> good(f(s[i])[k])
    ensures forall k :: 0 <= k < |FlatMap(f, s)| ==> good(FlatMap(f, s)[k])
  {
    if s != [] {
      var init, last := s[..|s| - 1], s[|s| - 1];
      FlatMapAll(f, init, good);
      forall k | 0 <= k < |FlatMap(f, s)| ensures good(FlatMap(f, s)[k]) {
        if k >= |FlatMap(f, init)| {
          assert FlatMap(f, s)[k] == f(last)[k - |FlatMap(f, init)|];
        }
      }
    }
  }
}
