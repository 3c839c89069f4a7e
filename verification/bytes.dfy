/** Octets and byte sequences, shared by every component. */
module Bytes {
  /** An unsigned char. */
  type byte = x: int | 0 <= x < 256

  /** A gboolean field. */
  datatype Flag = Off | On

  datatype Option<+T> = None | Some(value: T)

  /** The concatenation of a list of byte strings, first one first. */
  function Flatten<T>(parts: seq<seq<T>>): (all: seq<T>)
  {
    if parts == [] then [] else parts[0] + Flatten(parts[1..])
  }

  lemma {:induction false} FlattenAppend<T>(a: seq<seq<T>>, b: seq<seq<T>>)
    ensures Flatten(a + b) == Flatten(a) + Flatten(b)
  {
    if a == [] {
      assert a + b == b;
    } else {
      assert (a + b)[1..] == a[1..] + b;
      FlattenAppend(a[1..], b);
    }
  }

  /** Adding one part at the back adds its bytes at the back. */
  lemma FlattenSnoc<T>(a: seq<seq<T>>, last: seq<T>)
    ensures Flatten(a + [last]) == Flatten(a) + last
  {
    FlattenAppend(a, [last]);
    assert Flatten([last]) == last;
  }

  lemma {:induction false} FlattenLength<T>(parts: seq<seq<T>>, bound: nat)
    requires forall i :: 0 <= i < |parts| ==> |parts[i]| <= bound
    ensures |Flatten(parts)| <= |parts| * bound
  {
    if parts != [] {
      FlattenLength(parts[1..], bound);
    }
  }

  lemma Associates<T>(a: seq<T>, b: seq<T>, c: seq<T>)
    ensures a + (b + c) == (a + b) + c
  {
  }

  lemma Middle<T>(a: seq<T>, b: seq<T>, c: seq<T>, d: seq<T>)
    ensures (a + b + c + d)[|a|..|a| + |b| + |c|] == b + c
  {
  }

  /** a with b written over it from index at: what a loop that stores b leaves of an array. */
  function Overlaid<T>(a: seq<T>, at: nat, b: seq<T>): (r: seq<T>)
    requires at + |b| <= |a|
    ensures |r| == |a|
  {
    a[..at] + b + a[at + |b|..]
  }

  lemma OverlaidTwice<T>(a: seq<T>, at: nat, b: seq<T>, c: seq<T>)
    requires at + |b| + |c| <= |a|
    ensures Overlaid(Overlaid(a, at, b), at + |b|, c) == Overlaid(a, at, b + c)
  {
  }

  lemma OverlaidBackwards<T>(a: seq<T>, at: nat, b: seq<T>, c: seq<T>)
    requires at + |b| + |c| <= |a|
    ensures Overlaid(Overlaid(a, at + |b|, c), at, b) == Overlaid(a, at, b + c)
  {
  }

  lemma OverlaidSwap<T>(a: seq<T>, at: nat, b: seq<T>, behind: nat, c: seq<T>)
    requires at + |b| <= behind && behind + |c| <= |a|
    ensures Overlaid(Overlaid(a, at, b), behind, c) == Overlaid(Overlaid(a, behind, c), at, b)
  {
  }

  lemma OverlaidNothing<T>(a: seq<T>, at: nat)
    requires at <= |a|
    ensures Overlaid(a, at, []) == a
  {
  }

  lemma OverlaidSelf<T>(a: seq<T>, i: nat, j: nat)
    requires i <= j <= |a|
    ensures Overlaid(a, i, a[i..j]) == a
  {
  }

  lemma OverlaidPart<T>(a: seq<T>, at: nat, b: seq<T>)
    requires at + |b| <= |a|
    ensures Overlaid(a, at, b)[at..at + |b|] == b
  {
  }

  lemma OverlaidElsewhere<T>(a: seq<T>, at: nat, b: seq<T>, i: nat, j: nat)
    requires at + |b| <= |a| && i <= j <= |a| && (j <= at || at + |b| <= i)
    ensures Overlaid(a, at, b)[i..j] == a[i..j]
  {
  }

  lemma SlicedBehind<T>(a: seq<T>, n: nat, i: nat, j: nat)
    requires i <= j && n + j <= |a|
    ensures a[n..][i..j] == a[n + i..n + j]
  {
    forall k | 0 <= k < j - i ensures a[n..][i..j][k] == a[n + i..n + j][k] {
      assert a[n..][i + k] == a[n + (i + k)];
    }
  }

  lemma SlicedBefore<T>(a: seq<T>, n: nat, i: nat, j: nat)
    requires i <= j <= n <= |a|
    ensures a[..n][i..j] == a[i..j]
  {
    forall k | 0 <= k < j - i ensures a[..n][i..j][k] == a[i..j][k] {
      assert a[..n][i + k] == a[i + k];
    }
  }

  lemma SlicedSecond<T>(a: seq<T>, b: seq<T>, i: nat, j: nat)
    requires i <= j <= |b|
    ensures (a + b)[|a| + i..|a| + j] == b[i..j]
  {
    assert (a + b)[|a|..] == b;
    SlicedBehind(a + b, |a|, i, j);
  }

  lemma SlicedFirst<T>(a: seq<T>, b: seq<T>, i: nat, j: nat)
    requires i <= j <= |a|
    ensures (a + b)[i..j] == a[i..j]
  {
    assert (a + b)[..|a|] == a;
    SlicedBefore(a + b, |a|, i, j);
  }

  lemma SlicedTwice<T>(a: seq<T>, start: nat, size: nat, i: nat, j: nat)
    requires start + size <= |a| && i <= j <= size
    ensures a[start..start + size][i..j] == a[start + i..start + j]
  {
    var front := a[..start + size];
    assert a[start..start + size] == front[start..];
    SlicedBehind(front, start, i, j);
    SlicedBefore(a, start + size, start + i, start + j);
  }
}
