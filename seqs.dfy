/** The sequence operations the client's bulk calls are built from:
    `[...new Set(xs)]` (Dedupe), lodash's `chunk` (Chunk) and the
    concatenation done by `flatMap` (Flatten). */
module Seqs {

  predicate NoDuplicates<T(==)>(s: seq<T>) {
    forall i, j :: 0 <= i < j < |s| ==> s[i] != s[j]
  }

  /** The position of the first occurrence of `x` in `s`. */
  function FirstIndex<T(==)>(s: seq<T>, x: T): (i: nat)
    requires x in s
    ensures i < |s| && s[i] == x
    ensures forall j :: 0 <= j < i ==> s[j] != x
  {
    if s[0] == x then 0 else 1 + FirstIndex(s[1..], x)
  }

  /** `[...new Set(s)]`: a Set is filled by walking `s` from left to right and
      only a value it does not hold yet is added, at the end of its insertion
      order; spreading it yields that order. */
  function Dedupe<T(==)>(s: seq<T>): (r: seq<T>)
    ensures |r| <= |s|
    ensures NoDuplicates(r)
    ensures forall i :: 0 <= i < |r| ==> r[i] in s
    ensures forall i :: 0 <= i < |s| ==> s[i] in r
  {
    if s == [] then []
    else
      var d := Dedupe(s[..|s| - 1]);
      var x := s[|s| - 1];
      assert s == s[..|s| - 1] + [x];
      if x in d then d else d + [x]
  }

  /** The values of the result keep the order of their first occurrences. */
  lemma {:induction false} DedupeKeepsFirstOccurrenceOrder<T>(s: seq<T>)
    ensures forall i, j :: 0 <= i < j < |Dedupe(s)| ==>
              FirstIndex(s, Dedupe(s)[i]) < FirstIndex(s, Dedupe(s)[j])
  {
    if s != [] {
      var p, x := s[..|s| - 1], s[|s| - 1];
      assert s == p + [x];
      DedupeKeepsFirstOccurrenceOrder(p);
      var d := Dedupe(p);
      forall y | y in p ensures FirstIndex(s, y) == FirstIndex(p, y) {
        FirstIndexOfPrefix(p, x, y);
      }
      if x !in d {
        assert FirstIndex(s, x) == |p|;
        assert Dedupe(s) == d + [x];
      }
    }
  }

  lemma FirstIndexOfPrefix<T>(p: seq<T>, x: T, y: T)
    requires y in p
    ensures FirstIndex(p + [x], y) == FirstIndex(p, y)
  {
    var k, m := FirstIndex(p + [x], y), FirstIndex(p, y);
    assert (p + [x])[m] == y;
  }

  /** A sequence without repeated values passes through unchanged. */
  lemma {:induction false} DedupeOfDistinct<T>(s: seq<T>)
    requires NoDuplicates(s)
    ensures Dedupe(s) == s
  {
    if s != [] {
      var p, x := s[..|s| - 1], s[|s| - 1];
      assert NoDuplicates(p);
      DedupeOfDistinct(p);
      assert x !in p;
    }
  }

  /** Deduplicating twice is the same as deduplicating once. */
  lemma DedupeIdempotent<T>(s: seq<T>)
    ensures Dedupe(Dedupe(s)) == Dedupe(s)
  {
    DedupeOfDistinct(Dedupe(s));
  }

  /** lodash `chunk(s, size)`: consecutive slices of `size` elements, the last
      one holding what is left; a size below 1 gives no chunks at all. */
  function Chunk<T>(s: seq<T>, size: nat): (r: seq<seq<T>>)
    ensures size == 0 || s == [] <==> r == []
    ensures forall i :: 0 <= i < |r| ==> 1 <= |r[i]| <= size
    ensures forall i :: 0 <= i < |r| - 1 ==> |r[i]| == size
    decreases |s|
  {
    if |s| == 0 || size == 0 then []
    else if |s| <= size then [s]
    else [s[..size]] + Chunk(s[size..], size)
  }

  /** Concatenation of a sequence of sequences, in order. */
  function Flatten<T>(ss: seq<seq<T>>): seq<T> {
    if ss == [] then [] else ss[0] + Flatten(ss[1..])
  }

  /** Joining the chunks back together gives the input: nothing is lost,
      repeated or reordered. */
  lemma {:induction false} FlattenChunk<T>(s: seq<T>, size: nat)
    requires size > 0
    ensures Flatten(Chunk(s, size)) == s
  {
    if |s| > size {
      FlattenChunk(s[size..], size);
      assert s == s[..size] + s[size..];
      assert ([s[..size]] + Chunk(s[size..], size))[1..] == Chunk(s[size..], size);
    } else if s != [] {
      assert [s][1..] == [];
    }
  }

  /** The number of chunks is the least one that can hold `s`:
      ceil(|s| / size). */
  lemma {:induction false} ChunkCount<T>(s: seq<T>, size: nat)
    requires size > 0
    ensures |Chunk(s, size)| == (|s| + size - 1) / size
  {
    if |s| > size {
      ChunkCount(s[size..], size);
      DivShift(|s| - size + size - 1, size);
    } else if s != [] {
      DivOne(|s| + size - 1, size);
    } else {
      DivSmall(size - 1, size);
    }
  }

  lemma DivUnique(x: int, n: int, q: int, r: int)
    requires n > 0 && 0 <= r < n && x == q * n + r
    ensures x / n == q
  {
    var q', r' := x / n, x % n;
    assert x == q' * n + r';
    assert (q - q') * n == r' - r;
    MulSmall(q - q', n, r' - r);
  }
  lemma MulSmall(k: int, n: int, d: int)
    requires n > 0 && -n < d < n && k * n == d
    ensures k == 0
  {
    if k >= 1 {
      MulAtLeast(k, n);
    } else if k <= -1 {
      MulAtLeast(-k, n);
    }
  }
  lemma MulAtLeast(k: int, n: int)
    requires k >= 1 && n > 0
    ensures k * n >= n
  {}
  lemma DivShift(a: nat, n: nat)
    requires n > 0
    ensures (a + n) / n == a / n + 1
  {
    var q, r := a / n, a % n;
    assert a == q * n + r;
    assert a + n == (q + 1) * n + r;
    DivUnique(a + n, n, q + 1, r);
  }
  lemma DivOne(a: nat, n: nat)
    requires n <= a < 2 * n
    ensures a / n == 1
  {
    DivUnique(a, n, 1, a - n);
  }

  lemma DivSmall(a: nat, n: nat)
    requires a < n
    ensures a / n == 0
  {
  }

  /** A value of any part is in the concatenation ... */
  lemma {:induction false} FlattenMember<T>(ss: seq<seq<T>>, i: nat, x: T)
    requires i < |ss| && x in ss[i]
    ensures x in Flatten(ss)
  {
    if i > 0 {
      FlattenMember(ss[1..], i - 1, x);
    }
  }

  /** ... and every value of the concatenation comes from some part. */
  lemma {:induction false} MemberOfFlatten<T>(ss: seq<seq<T>>, x: T)
    requires x in Flatten(ss)
    ensures exists i :: 0 <= i < |ss| && x in ss[i]
  {
    if x !in ss[0] {
      MemberOfFlatten(ss[1..], x);
      var i :| 0 <= i < |ss[1..]| && x in ss[1..][i];
      assert x in ss[i + 1];
    }
  }

  /** Parts that join into the deduplicated `s` hold every value of `s` and
      nothing else. */
  lemma FlattenOfDedupe<T>(s: seq<T>, ss: seq<seq<T>>)
    requires Flatten(ss) == Dedupe(s)
    ensures forall x :: x in s ==> exists i :: 0 <= i < |ss| && x in ss[i]
    ensures forall i, x :: 0 <= i < |ss| && x in ss[i] ==> x in s
  {
    forall x | x in s ensures exists i :: 0 <= i < |ss| && x in ss[i] {
      var k :| 0 <= k < |s| && s[k] == x;
      MemberOfFlatten(ss, x);
    }
    forall i, x | 0 <= i < |ss| && x in ss[i] ensures x in s {
      FlattenMember(ss, i, x);
      var k :| 0 <= k < |Dedupe(s)| && Dedupe(s)[k] == x;
    }
  }

  lemma NoDuplicatesSplit<T>(a: seq<T>, b: seq<T>)
    requires NoDuplicates(a + b)
    ensures NoDuplicates(a) && NoDuplicates(b)
    ensures forall x :: x in a ==> x !in b
  {
    assert forall i :: 0 <= i < |a| ==> (a + b)[i] == a[i];
    assert forall i :: 0 <= i < |b| ==> (a + b)[|a| + i] == b[i];
    assert forall i, j :: 0 <= i < |a| && 0 <= j < |b| ==> a[i] != b[j];
  }

  /** When the concatenation has no repeated value, every part has none and no
      value sits in two parts. */
  lemma {:induction false} FlattenDistinctParts<T>(ss: seq<seq<T>>)
    requires NoDuplicates(Flatten(ss))
    ensures forall i :: 0 <= i < |ss| ==> NoDuplicates(ss[i])
    ensures forall i, j, x :: 0 <= i < j < |ss| && x in ss[i] ==> x !in ss[j]
  {
    if ss != [] {
      NoDuplicatesSplit(ss[0], Flatten(ss[1..]));
      FlattenDistinctParts(ss[1..]);
      forall j, x | 0 < j < |ss| && x in ss[0] ensures x !in ss[j] {
        if x in ss[j] {
          FlattenMember(ss[1..], j - 1, x);
        }
      }
      forall i, j, x | 0 < i < j < |ss| && x in ss[i] ensures x !in ss[j] {
        assert ss[i] == ss[1..][i - 1] && ss[j] == ss[1..][j - 1];
      }
    }
  }
}
