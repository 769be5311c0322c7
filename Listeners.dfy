/** What `CustomEvent.removeListener` does to the listener array: it finds every
    index holding the listener, then splices those indexes out one after the
    other, in ascending order, from the array the earlier splices already
    shortened. */
module Listeners {
  /** The indexes at which `x` occurs, ascending (`findListenerIndexes`). */
  function IndexesOf<T(==)>(s: seq<T>, x: T): (r: seq<nat>)
    ensures forall k :: 0 <= k < |r| ==> r[k] < |s| && s[r[k]] == x
    ensures forall i :: 0 <= i < |s| && s[i] == x ==> i in r
    ensures forall j, k :: 0 <= j < k < |r| ==> r[j] < r[k]
  {
    if s == [] then []
    else
      var front := s[..|s| - 1];
      var r := IndexesOf(front, x) + (if s[|s| - 1] == x then [|s| - 1] else []);
      assert forall i :: 0 <= i < |s| - 1 ==> s[i] == front[i];
      r
  }

  /** `splice(k, 1)`: removes the element at `k`; an index past the end removes
      nothing. */
  function Splice<T>(s: seq<T>, k: nat): (r: seq<T>)
    ensures k < |s| ==> |r| == |s| - 1
    ensures k < |s| ==> (forall i :: 0 <= i < k ==> r[i] == s[i]) && (forall i :: k <= i < |r| ==> r[i] == s[i + 1])
    ensures k >= |s| ==> r == s
  {
    if k < |s| then s[..k] + s[k + 1..] else s
  }

  /** The splices of `ks`, applied in order. */
  function SpliceAll<T>(s: seq<T>, ks: seq<nat>): seq<T>
  {
    if ks == [] then s else Splice(SpliceAll(s, ks[..|ks| - 1]), ks[|ks| - 1])
  }

  /** The splice of index `ks[i]` applies after those of the earlier indexes. */
  lemma SpliceAllStep<T>(s: seq<T>, ks: seq<nat>, i: nat)
    requires i < |ks|
    ensures SpliceAll(s, ks[..i + 1]) == Splice(SpliceAll(s, ks[..i]), ks[i])
  {
    assert ks[..i + 1][..i] == ks[..i];
  }

  /** `removeListener(x)` on a listener array `s`. */
  function RemoveListener<T(==)>(s: seq<T>, x: T): seq<T>
  {
    SpliceAll(s, IndexesOf(s, x))
  }

  /** Every element except `x`, in order: what removing a listener means. */
  function Without<T(==)>(s: seq<T>, x: T): (r: seq<T>)
    ensures |r| <= |s|
  {
    if s == [] then []
    else Without(s[..|s| - 1], x) + (if s[|s| - 1] == x then [] else [s[|s| - 1]])
  }

  lemma {:induction false} WithoutConcat<T>(a: seq<T>, b: seq<T>, x: T)
    ensures Without(a + b, x) == Without(a, x) + Without(b, x)
    decreases |b|
  {
    if b == [] {
      assert a + b == a;
    } else {
      var b' := b[..|b| - 1];
      assert (a + b)[..|a + b| - 1] == a + b';
      WithoutConcat(a, b', x);
    }
  }

  lemma {:induction false} WithoutAbsent<T>(s: seq<T>, x: T)
    requires x !in s
    ensures Without(s, x) == s
    decreases |s|
  {
    if s != [] {
      var front := s[..|s| - 1];
      assert x !in front by {
        forall i | 0 <= i < |front| ensures front[i] != x {
          assert front[i] == s[i];
        }
      }
      WithoutAbsent(front, x);
      assert front + [s[|s| - 1]] == s;
    }
  }

  /** `Without` drops every copy of `x` and keeps, for every other value, every
      copy it had. */
  lemma {:induction false} WithoutRemovesAll<T>(s: seq<T>, x: T)
    ensures x !in Without(s, x)
    ensures forall y :: y != x ==> multiset(Without(s, x))[y] == multiset(s)[y]
    ensures |Without(s, x)| == |s| - |IndexesOf(s, x)|
    decreases |s|
  {
    if s != [] {
      var front := s[..|s| - 1];
      WithoutRemovesAll(front, x);
      assert s == front + [s[|s| - 1]];
    }
  }

  lemma WithoutAround<T>(a: seq<T>, x: T, b: seq<T>)
    requires x !in a && x !in b
    ensures Without(a + [x] + b, x) == a + b
  {
    WithoutConcat(a + [x], b, x);
    assert Without(a + [x], x) == a by {
      WithoutConcat(a, [x], x);
      WithoutAbsent(a, x);
      assert [x][..0] == [];
    }
    assert Without(b, x) == b by {
      WithoutAbsent(b, x);
    }
  }

  lemma AbsentFromSlice<T>(s: seq<T>, x: T, lo: nat, hi: nat)
    requires lo <= hi <= |s|
    requires forall i :: lo <= i < hi ==> s[i] != x
    ensures x !in s[lo..hi]
  {
    forall j | 0 <= j < hi - lo
      ensures s[lo..hi][j] != x
    {
      assert s[lo..hi][j] == s[lo + j];
    }
  }

  lemma SplitAt<T>(s: seq<T>, k: nat)
    requires k < |s|
    ensures s == s[..k] + [s[k]] + s[k + 1..]
  {
  }

  lemma OnlyIndex<T>(s: seq<T>, x: T, k: nat)
    requires IndexesOf(s, x) == [k]
    ensures k < |s| && s[k] == x
    ensures forall i :: 0 <= i < |s| && i != k ==> s[i] != x
  {
    assert IndexesOf(s, x)[0] == k;
  }

  /** The only index of a unique `x` splits `s` around it. */
  lemma UniqueIndex<T>(s: seq<T>, x: T, k: nat)
    requires IndexesOf(s, x) == [k]
    ensures k < |s| && s == s[..k] + [x] + s[k + 1..]
    ensures x !in s[..k] && x !in s[k + 1..]
  {
    OnlyIndex(s, x, k);
    SplitAt(s, k);
    AbsentFromSlice(s, x, 0, k);
    AbsentFromSlice(s, x, k + 1, |s|);
  }

  lemma RemoveAbsent<T>(s: seq<T>, x: T)
    requires IndexesOf(s, x) == []
    ensures RemoveListener(s, x) == Without(s, x) == s
  {
    assert x !in s;
    WithoutAbsent(s, x);
  }

  lemma RemoveOnly<T>(s: seq<T>, x: T, k: nat)
    requires IndexesOf(s, x) == [k]
    ensures RemoveListener(s, x) == Without(s, x)
  {
    UniqueIndex(s, x, k);
    assert Without(s, x) == s[..k] + s[k + 1..] by {
      WithoutAround(s[..k], x, s[k + 1..]);
    }
    assert RemoveListener(s, x) == s[..k] + s[k + 1..] by {
      assert [k][..0] == [];
      assert RemoveListener(s, x) == SpliceAll(s, [k]) == Splice(SpliceAll(s, []), k);
    }
  }

  /** When the listener occurs at most once, `removeListener` removes exactly it
      and keeps the others in order. */
  lemma RemoveListenerOfUnique<T>(s: seq<T>, x: T)
    requires |IndexesOf(s, x)| <= 1
    ensures RemoveListener(s, x) == Without(s, x)
  {
    var ks := IndexesOf(s, x);
    if ks == [] {
      RemoveAbsent(s, x);
    } else {
      assert ks == [ks[0]];
      RemoveOnly(s, x, ks[0]);
    }
  }

  /** A listener registered twice, followed by another one: `removeListener`
      removes one copy and then the other listener, which sits where the
      second copy was before the first splice. */
  lemma RemoveDuplicateRemovesNeighbour<T>(x: T, y: T)
    requires x != y
    ensures IndexesOf([x, x, y], x) == [0, 1]
    ensures RemoveListener([x, x, y], x) == [x]
    ensures Without([x, x, y], x) == [y]
  {
    IndexesOfSample(x, y);
    var s := [x, x, y];
    assert [0, 1][..1] == [0] && [0][..0] == [];
    assert SpliceAll(s, [0]) == Splice(s, 0) == [x, y];
    assert SpliceAll(s, [0, 1]) == Splice([x, y], 1) == [x];
    WithoutSample(x, y);
  }

  lemma IndexesOfSample<T>(x: T, y: T)
    requires x != y
    ensures IndexesOf([x, x, y], x) == [0, 1]
  {
    assert [x, x, y][..2] == [x, x];
    assert [x, x][..1] == [x];
    assert [x][..0] == [];
    assert IndexesOf([x], x) == [0];
    assert IndexesOf([x, x], x) == [0, 1];
  }

  lemma WithoutSample<T>(x: T, y: T)
    requires x != y
    ensures Without([x, x, y], x) == [y]
  {
    assert [x, x, y][..2] == [x, x];
    assert [x, x][..1] == [x];
    assert [x][..0] == [];
    assert Without([x], x) == [];
    assert Without([x, x], x) == [];
  }
}
