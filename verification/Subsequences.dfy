/** Lists with some elements left out, the others in their order. */
module Subsequences {
  import opened Wrappers
  import GapFill

  /** xs is ys with some elements left out. */
  predicate IsSubsequence<T(==)>(xs: seq<T>, ys: seq<T>) {
    xs == [] || (ys != [] &&
      var n, m := |xs| - 1, |ys| - 1;
      (xs[n] == ys[m] && IsSubsequence(xs[..n], ys[..m])) || IsSubsequence(xs, ys[..m]))
  }

  lemma SkipLast<T>(xs: seq<T>, ys: seq<T>, y: T)
    requires IsSubsequence(xs, ys)
    ensures IsSubsequence(xs, ys + [y])
  {
    assert (ys + [y])[..|ys|] == ys;
  }

  lemma KeepLast<T>(xs: seq<T>, ys: seq<T>, y: T)
    requires IsSubsequence(xs, ys)
    ensures IsSubsequence(xs + [y], ys + [y])
  {
    assert (ys + [y])[..|ys|] == ys && (xs + [y])[..|xs|] == xs;
  }

  lemma {:induction false} WholeList<T>(xs: seq<T>)
    ensures IsSubsequence(xs, xs)
  {
    if xs != [] {
      WholeList(xs[..|xs| - 1]);
    }
  }

  lemma {:induction false} Prefix<T>(xs: seq<T>, more: seq<T>)
    ensures IsSubsequence(xs, xs + more)
  {
    if more == [] {
      WholeList(xs);
      assert xs + more == xs;
    } else {
      var n := |more| - 1;
      Prefix(xs, more[..n]);
      SkipLast(xs, xs + more[..n], more[n]);
      assert xs + more == xs + more[..n] + [more[n]];
    }
  }

  /** Leaving out the middle part. */
  lemma {:induction false} WithoutMiddle<T>(a: seq<T>, b: seq<T>, c: seq<T>)
    ensures IsSubsequence(a + c, a + b + c)
  {
    if c == [] {
      Prefix(a, b);
      assert a + c == a && a + b + c == a + b;
    } else {
      var n := |c| - 1;
      WithoutMiddle(a, b, c[..n]);
      KeepLast(a + c[..n], a + b + c[..n], c[n]);
      assert a + c == a + c[..n] + [c[n]] && a + b + c == a + b + c[..n] + [c[n]];
    }
  }

  lemma {:induction false} Transitive<T>(xs: seq<T>, ys: seq<T>, zs: seq<T>)
    requires IsSubsequence(xs, ys) && IsSubsequence(ys, zs)
    ensures IsSubsequence(xs, zs)
    decreases |ys| + |zs|
  {
    if xs != [] {
      var n, m, k := |xs| - 1, |ys| - 1, |zs| - 1;
      if IsSubsequence(ys, zs[..k]) {
        Transitive(xs, ys, zs[..k]);
      } else if IsSubsequence(xs, ys[..m]) {
        Transitive(xs, ys[..m], zs[..k]);
      } else {
        Transitive(xs[..n], ys[..m], zs[..k]);
      }
    }
  }

  /** Picking at most one thing from each element keeps the relation. */
  lemma {:induction false} Picked<A, B>(f: A -> seq<B>, xs: seq<A>, ys: seq<A>)
    requires IsSubsequence(xs, ys) && forall x :: |f(x)| <= 1
    ensures IsSubsequence(FlatMap(f, xs), FlatMap(f, ys))
  {
    if xs != [] {
      var n, m := |xs| - 1, |ys| - 1;
      if xs[n] == ys[m] && IsSubsequence(xs[..n], ys[..m]) {
        Picked(f, xs[..n], ys[..m]);
        Extended(FlatMap(f, xs[..n]), FlatMap(f, ys[..m]), f(xs[n]), f(xs[n]));
      } else {
        Picked(f, xs, ys[..m]);
        Extended(FlatMap(f, xs), FlatMap(f, ys[..m]), [], f(ys[m]));
        assert FlatMap(f, xs) + [] == FlatMap(f, xs);
      }
    }
  }

  lemma Extended<T>(xs: seq<T>, ys: seq<T>, x: seq<T>, y: seq<T>)
    requires IsSubsequence(xs, ys) && |y| <= 1 && (x == y || x == [])
    ensures IsSubsequence(xs + x, ys + y)
  {
    assert x == [] ==> xs + x == xs;
    assert y == [] ==> ys + y == ys;
    if |y| == 1 {
      assert y == [y[0]];
      KeepLast(xs, ys, y[0]);
      SkipLast(xs, ys, y[0]);
    }
  }

  lemma {:induction false} Mapped<A, B>(f: A -> B, xs: seq<A>, ys: seq<A>)
    requires IsSubsequence(xs, ys)
    ensures IsSubsequence(MapSeq(f, xs), MapSeq(f, ys))
  {
    if xs != [] {
      var n, m := |xs| - 1, |ys| - 1;
      assert MapSeq(f, ys) == MapSeq(f, ys[..m]) + [f(ys[m])];
      if xs[n] == ys[m] && IsSubsequence(xs[..n], ys[..m]) {
        Mapped(f, xs[..n], ys[..m]);
        assert MapSeq(f, xs) == MapSeq(f, xs[..n]) + [f(xs[n])];
        KeepLast(MapSeq(f, xs[..n]), MapSeq(f, ys[..m]), f(xs[n]));
      } else {
        Mapped(f, xs, ys[..m]);
        SkipLast(MapSeq(f, xs), MapSeq(f, ys[..m]), f(ys[m]));
      }
    }
  }

  /** Every element of xs occurs in ys. */
  lemma {:induction false} Members<T>(xs: seq<T>, ys: seq<T>, x: T)
    requires IsSubsequence(xs, ys) && x in xs
    ensures x in ys
  {
    var n, m := |xs| - 1, |ys| - 1;
    if IsSubsequence(xs, ys[..m]) {
      Members(xs, ys[..m], x);
    } else if x != xs[n] {
      assert xs == xs[..n] + [xs[n]];
      Members(xs[..n], ys[..m], x);
    }
  }

  /** A subsequence of numbers in order is in order. */
  lemma {:induction false} StaysInOrder(xs: seq<nat>, ys: seq<nat>)
    requires IsSubsequence(xs, ys) && GapFill.NonDecreasing(ys)
    ensures GapFill.NonDecreasing(xs)
  {
    if xs != [] {
      var n, m := |xs| - 1, |ys| - 1;
      if IsSubsequence(xs, ys[..m]) {
        StaysInOrder(xs, ys[..m]);
      } else {
        StaysInOrder(xs[..n], ys[..m]);
        forall i | 0 <= i < n ensures xs[i] <= xs[n] {
          assert xs[i] == xs[..n][i];
          Members(xs[..n], ys[..m], xs[i]);
        }
        assert forall i, j :: 0 <= i < j < n ==> xs[..n][i] <= xs[..n][j];
      }
    }
  }

  lemma DropMiddle<T>(a: seq<T>, b: seq<T>, c: seq<T>, whole: seq<T>)
    requires IsSubsequence(a + b + c, whole)
    ensures IsSubsequence(a + c, whole)
  {
    WithoutMiddle(a, b, c);
    Transitive(a + c, a + b + c, whole);
  }

  lemma DropFront<T>(a: seq<T>, c: seq<T>, whole: seq<T>)
    requires IsSubsequence(a + c, whole)
    ensures IsSubsequence(c, whole)
  {
    assert [] + a + c == a + c;
    DropMiddle([], a, c, whole);
    assert [] + c == c;
  }

  lemma Associate<T>(a: seq<T>, b: seq<T>, c: seq<T>)
    ensures a + (b + c) == a + b + c
  {
  }

  // ---- moving the middle of a list to its front part ----

  /** What became of the front part: it took the middle over, did not, or is gone. */
  datatype Fate = Grown | Kept | Gone

  function Front<T>(a: seq<T>, b: seq<T>, f: Fate): seq<T> {
    match f
    case Grown => a + b
    case Kept => a
    case Gone => []
  }

  lemma WithMiddle<T>(a: seq<T>, b: seq<T>, c: seq<T>, whole: seq<T>)
    requires IsSubsequence(a + (b + c), whole)
    ensures IsSubsequence(a + b + c, whole)
  {
    Associate(a, b, c);
  }

  lemma OnlyRest<T>(a: seq<T>, b: seq<T>, c: seq<T>, whole: seq<T>)
    requires IsSubsequence(a + b + c, whole)
    ensures IsSubsequence([] + c, whole)
  {
    DropFront(a + b, c, whole);
    assert [] + c == c;
  }

  lemma MiddleMoved<T>(a: seq<T>, b: seq<T>, c: seq<T>, whole: seq<T>, f: Fate)
    requires IsSubsequence(a + (b + c), whole)
    ensures IsSubsequence(Front(a, b, f) + c, whole)
  {
    WithMiddle(a, b, c, whole);
    match f
    case Grown =>
    case Kept => DropMiddle(a, b, c, whole);
    case Gone => OnlyRest(a, b, c, whole);
  }
}
