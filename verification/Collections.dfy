/** Facts about sequences and finite sets that several modules lean on. */
module Collections {
  lemma Associate<T>(x: seq<T>, y: seq<T>, z: seq<T>)
    ensures x + y + z == x + (y + z)
  {
  }

  lemma SplitLast<T>(s: seq<T>)
    requires s != []
    ensures s == s[..|s| - 1] + [s[|s| - 1]]
  {
  }

  /** The last element of one order, found in the other; both go on without it. */
  lemma Elsewhere<T>(a: seq<T>, b: seq<T>) returns (i: nat)
    requires a != [] && multiset(a) == multiset(b)
    ensures i < |b| && b[i] == a[|a| - 1]
    ensures multiset(a[..|a| - 1]) == multiset(b[..i] + b[i + 1..])
  {
    var n := |a| - 1;
    assert a == a[..n] + [a[n]];
    assert multiset(a) == multiset(a[..n]) + multiset{a[n]};
    assert a[n] in multiset(b);
    i :| 0 <= i < |b| && b[i] == a[n];
    assert b == b[..i] + [b[i]] + b[i + 1..];
    assert multiset(b) == multiset(b[..i]) + multiset{b[i]} + multiset(b[i + 1..]);
    assert multiset(b[..i] + b[i + 1..]) == multiset(b) - multiset{b[i]};
    assert multiset(a[..n]) == multiset(a) - multiset{a[n]};
  }

  lemma {:induction false} SameSize<T, U>(xs: set<T>, ys: set<U>, f: T -> U)
    requires forall x, y | x in xs && y in xs :: f(x) == f(y) ==> x == y
    requires forall x | x in xs :: f(x) in ys
    requires forall y | y in ys :: exists x :: x in xs && f(x) == y
    ensures |xs| == |ys|
  {
    if xs != {} {
      var x :| x in xs;
      forall y | y in ys - {f(x)}
        ensures exists z :: z in xs - {x} && f(z) == y
      {
        var z :| z in xs && f(z) == y;
      }
      SameSize(xs - {x}, ys - {f(x)}, f);
    }
  }

  lemma {:induction false} SubsetSize<T>(a: set<T>, b: set<T>)
    requires a <= b
    ensures |a| <= |b|
  {
    if a != {} {
      var x :| x in a;
      SubsetSize(a - {x}, b - {x});
    }
  }

  lemma TakeOne<T>(s: seq<T>, j: nat)
    requires j < |s|
    ensures s[..j + 1] == s[..j] + [s[j]]
  {
  }

  lemma TakeAll<T>(s: seq<T>)
    ensures s[..|s|] == s && s[..0] == []
  {
  }

  lemma RemoveAt<T>(xs: seq<T>, i: nat)
    requires i < |xs|
    ensures multiset(xs) == multiset(xs[..i] + xs[i + 1..]) + multiset{xs[i]}
  {
    assert xs == xs[..i] + [xs[i]] + xs[i + 1..];
  }

  lemma Pair<T>(s: set<T>, x: T, y: T)
    requires x in s && y in s && x != y
    ensures |s| > 1
  {
    assert |s - {x}| > 0 by {
      assert y in s - {x};
    }
  }

  lemma PlusNothing<T>(s: seq<T>)
    ensures s + [] == s && [] + s == s
  {
  }

  lemma Extend<T>(s: seq<T>, from: nat, end: nat)
    requires from <= end <= |s|
    ensures s[..from] + s[from..end] == s[..end]
  {
  }

  lemma TakeFront<T>(front: seq<T>, last: T)
    ensures (front + [last])[..|front|] == front
  {
  }

  lemma FrontAt<T>(s: seq<T>)
    requires s != []
    ensures forall i: nat | i < |s| - 1 :: s[..|s| - 1][i] == s[i]
  {
  }

  /** How many elements meet the condition. */
  ghost function Count<T(!new)>(s: seq<T>, p: T -> bool): nat {
    if s == [] then 0 else Count(s[..|s| - 1], p) + if p(s[|s| - 1]) then 1 else 0
  }

  lemma {:induction false} CountConcat<T(!new)>(a: seq<T>, b: seq<T>, p: T -> bool)
    ensures Count(a + b, p) == Count(a, p) + Count(b, p)
  {
    if b == [] {
      PlusNothing(a);
    } else {
      var front, last := b[..|b| - 1], b[|b| - 1];
      SplitLast(b);
      Associate(a, front, [last]);
      TakeFront(a + front, last);
      CountConcat(a, front, p);
    }
  }

  lemma {:induction false} CountSame<T(!new)>(s: seq<T>, p: T -> bool, q: T -> bool)
    requires forall x | x in s :: p(x) == q(x)
    ensures Count(s, p) == Count(s, q)
  {
    if s != [] {
      CountSame(s[..|s| - 1], p, q);
    }
  }

  lemma {:induction false} CountNone<T(!new)>(s: seq<T>, p: T -> bool)
    ensures Count(s, p) > 0 <==> exists x :: x in s && p(x)
  {
    if s != [] {
      CountNone(s[..|s| - 1], p);
      SplitLast(s);
    }
  }

  lemma SameMap<K, V>(a: map<K, V>, b: map<K, V>)
    requires forall k :: k in a <==> k in b
    requires forall k | k in a :: a[k] == b[k]
    ensures a == b
  {
  }

  lemma CountFirst<T(!new)>(s: seq<T>, p: T -> bool)
    requires s != []
    ensures Count(s, p) == (if p(s[0]) then 1 else 0) + Count(s[1..], p)
  {
    var first := s[..1];
    assert s == first + s[1..] && first[..0] == [];
    CountConcat(first, s[1..], p);
  }
}
