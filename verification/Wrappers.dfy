/** Values that may be missing. */
module Wrappers {
  datatype Option<+T> = None | Some(value: T)
}

/** Counting in finite sets. */
module Sets {
  /** A proper subset is strictly smaller. */
  lemma {:induction false} SubsetSize<T>(a: set<T>, b: set<T>)
    requires a <= b
    ensures |a| <= |b|
    ensures a != b ==> |a| < |b|
  {
    if a != {} {
      var x :| x in a;
      SubsetSize(a - {x}, b - {x});
    } else if b != {} {
      var x :| x in b;
      assert |b - {x}| == |b| - 1;
    }
  }
}

/** Sums over lists. */
module Sums {
  ghost function Sum<T>(xs: seq<T>, f: T -> nat): nat {
    if xs == [] then 0 else f(xs[0]) + Sum(xs[1..], f)
  }

  /** Replacing one element. */
  lemma {:induction false} SumUpdate<T>(xs: seq<T>, i: nat, x: T, f: T -> nat)
    requires i < |xs|
    ensures Sum(xs[i := x], f) == Sum(xs, f) - f(xs[i]) + f(x)
  {
    if i == 0 {
      assert xs[i := x][1..] == xs[1..];
    } else {
      SumUpdate(xs[1..], i - 1, x, f);
      assert xs[i := x][1..] == xs[1..][i - 1 := x];
    }
  }

  lemma {:induction false} SumOfOnes<T>(n: nat, x: T, f: T -> nat)
    requires f(x) == 1
    ensures Sum(seq(n, _ => x), f) == n
  {
    if n > 0 {
      assert seq(n, _ => x)[1..] == seq(n - 1, _ => x);
      SumOfOnes(n - 1, x, f);
    }
  }
}

/** Lists that are permutations of each other. */
module Permutations {
  /** Taking the same element out of two permutations of each other. */
  lemma PermutationTail<T>(a: seq<T>, b: seq<T>, j: nat)
    requires multiset(a) == multiset(b) && a != [] && j < |b| && b[j] == a[0]
    ensures multiset(a[1..]) == multiset(b[..j] + b[j + 1..])
  {
    var e, front, back := a[0], b[..j], b[j + 1..];
    assert a == [e] + a[1..];
    assert b == front + [e] + back;
    assert multiset(a[1..]) == multiset(a) - multiset{e};
    assert multiset(front + back) == multiset(front) + multiset(back);
    assert multiset(b) == multiset(front) + multiset{e} + multiset(back);
    assert multiset(front + back) == multiset(b) - multiset{e};
  }

  /** The images of a list under `f`. */
  ghost function Each<T, R>(es: seq<T>, f: T -> R): seq<R> {
    if es == [] then [] else [f(es[0])] + Each(es[1..], f)
  }

  lemma {:induction false} EachConcat<T, R>(a: seq<T>, b: seq<T>, f: T -> R)
    ensures Each(a + b, f) == Each(a, f) + Each(b, f)
    decreases |a|
  {
    if a == [] {
      assert a + b == b;
    } else {
      assert (a + b)[1..] == a[1..] + b;
      EachConcat(a[1..], b, f);
    }
  }

  lemma EachAt<T, R>(b: seq<T>, j: nat, f: T -> R)
    requires j < |b|
    ensures Each(b, f) == Each(b[..j], f) + ([f(b[j])] + Each(b[j + 1..], f))
  {
    EachConcat(b[..j], [b[j]] + b[j + 1..], f);
    assert b == b[..j] + ([b[j]] + b[j + 1..]);
    assert ([b[j]] + b[j + 1..])[1..] == b[j + 1..];
  }

  lemma {:induction false} EachPermutes<T, R>(a: seq<T>, b: seq<T>, f: T -> R)
    requires multiset(a) == multiset(b)
    ensures multiset(Each(a, f)) == multiset(Each(b, f))
    decreases |a|
  {
    if a == [] {
      assert |multiset(b)| == 0;
    } else {
      hide Each;
      assert a[0] in multiset(b);
      var j :| 0 <= j < |b| && b[j] == a[0];
      var front, back := b[..j], b[j + 1..];
      PermutationTail(a, b, j);
      EachPermutes(a[1..], front + back, f);
      EachConcat(front, back, f);
      EachAt(b, j, f);
      EachAt(a, 0, f);
      InsertedOnce(f(a[0]), Each(a[..0], f), Each(a[1..], f));
      EachConcat(a[..0], a[1..], f);
      assert a[..0] + a[1..] == a[1..];
      InsertedOnce(f(a[0]), Each(front, f), Each(back, f));
    }
  }

  lemma InsertedOnce<T>(x: T, xs: seq<T>, ys: seq<T>)
    ensures multiset(xs + ([x] + ys)) == multiset{x} + multiset(xs + ys)
  {
  }
}
