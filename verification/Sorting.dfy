/** Sorting by a strict order, and the order of texts code point by code point. */
module Sorting {
  import opened Options

  ghost predicate StrictOrder<T(!new)>(less: (T, T) -> bool) {
    && (forall a :: !less(a, a))
    && (forall a, b, c :: less(a, b) && less(b, c) ==> less(a, c))
  }

  // Different elements of the sequence are never tied.
  ghost predicate TotalOn<T(!new)>(less: (T, T) -> bool, s: seq<T>) {
    forall a, b :: a in s && b in s && a != b ==> less(a, b) || less(b, a)
  }

  ghost predicate Sorted<T(!new)>(less: (T, T) -> bool, s: seq<T>) {
    forall i, j :: 0 <= i < j < |s| ==> !less(s[j], s[i])
  }

  // Behind every element that is not greater, as a stable sort does.
  function Insert<T>(less: (T, T) -> bool, x: T, s: seq<T>): (r: seq<T>)
    ensures multiset(r) == multiset(s) + multiset{x}
  {
    if s == [] then [x]
    else
      var n := |s| - 1;
      assert s == s[..n] + [s[n]];
      if less(x, s[n]) then Insert(less, x, s[..n]) + [s[n]] else s + [x]
  }

  function Sort<T>(less: (T, T) -> bool, s: seq<T>): (r: seq<T>)
    ensures multiset(r) == multiset(s)
  {
    if s == [] then []
    else
      var n := |s| - 1;
      assert s == s[..n] + [s[n]];
      Insert(less, s[n], Sort(less, s[..n]))
  }

  lemma SameElements<T>(s: seq<T>, t: seq<T>)
    requires multiset(s) == multiset(t)
    ensures |s| == |t| && forall x :: x in s <==> x in t
  {
    assert |multiset(s)| == |s| && |multiset(t)| == |t|;
    forall x
      ensures x in s <==> x in t
    {
      assert x in s <==> x in multiset(s);
    }
  }

  lemma WithoutOne<T>(t: seq<T>, i: nat)
    requires i < |t|
    ensures t == t[..i] + [t[i]] + t[i + 1..]
    ensures multiset(t[..i] + t[i + 1..]) == multiset(t) - multiset{t[i]}
  {
    var a, b := t[..i], t[i + 1..];
    assert t == a + [t[i]] + b;
    assert multiset(t) == multiset(a) + multiset{t[i]} + multiset(b);
  }

  // Where the last element of s stands in t, and that the rests agree.
  lemma FindLast<T>(s: seq<T>, t: seq<T>) returns (i: nat)
    requires s != [] && multiset(s) == multiset(t)
    ensures i < |t| && t[i] == s[|s| - 1] && t == t[..i] + [t[i]] + t[i + 1..]
    ensures multiset(s[..|s| - 1]) == multiset(t[..i] + t[i + 1..])
  {
    var n := |s| - 1;
    SameElements(s, t);
    assert s[n] in t;
    i :| 0 <= i < |t| && t[i] == s[n];
    WithoutOne(t, i);
    WithoutOne(s, n);
    assert s[..n] + s[n + 1..] == s[..n];
  }

  lemma {:induction false} InsertKeepsSorted<T(!new)>(less: (T, T) -> bool, x: T, s: seq<T>)
    requires StrictOrder(less) && TotalOn(less, s + [x]) && Sorted(less, s)
    ensures Sorted(less, Insert(less, x, s))
  {
    if s != [] {
      var n := |s| - 1;
      var front, last := s[..n], s[n];
      assert forall a :: a in front + [x] ==> a in s + [x];
      if less(x, last) {
        InsertKeepsSorted(less, x, front);
        var r := Insert(less, x, front);
        forall i | 0 <= i < |r|
          ensures !less(last, r[i])
        {
          assert r[i] in multiset(r);
          if r[i] != x {
            assert r[i] in front;
          }
        }
      } else {
        forall i | 0 <= i < |s|
          ensures !less(x, s[i])
        {
          assert s[i] in s + [x] && last in s + [x];
          assert s[i] == last || less(s[i], last);
        }
      }
    }
  }

  lemma {:induction false} SortSorts<T(!new)>(less: (T, T) -> bool, s: seq<T>)
    requires StrictOrder(less) && TotalOn(less, s)
    ensures Sorted(less, Sort(less, s))
  {
    if s != [] {
      var n := |s| - 1;
      var front := s[..n];
      assert forall a :: a in front ==> a in s;
      SortSorts(less, front);
      SameElements(front, Sort(less, front));
      assert forall a :: a in Sort(less, front) + [s[n]] ==> a in s;
      InsertKeepsSorted(less, s[n], Sort(less, front));
    }
  }

  lemma FirstsAgree<T(!new)>(less: (T, T) -> bool, s: seq<T>, t: seq<T>)
    requires TotalOn(less, s) && Sorted(less, s) && Sorted(less, t) && s != []
    requires multiset(s) == multiset(t)
    ensures t != [] && s[0] == t[0]
  {
    SameElements(s, t);
    assert s[0] in t && t[0] in s;
    var i :| 0 <= i < |t| && t[i] == s[0];
    var j :| 0 <= j < |s| && s[j] == t[0];
    assert i > 0 ==> !less(t[i], t[0]);
    assert j > 0 ==> !less(s[j], s[0]);
  }

  lemma TailsAgree<T>(s: seq<T>, t: seq<T>)
    requires s != [] && t != [] && s[0] == t[0] && multiset(s) == multiset(t)
    ensures multiset(s[1..]) == multiset(t[1..])
  {
    assert s == [s[0]] + s[1..] && t == [t[0]] + t[1..];
    assert multiset(s[1..]) == multiset(s) - multiset{s[0]};
    assert multiset(t[1..]) == multiset(t) - multiset{t[0]};
  }

  /** There is one way to sort elements that are never tied. */
  lemma {:induction false} SortedIsUnique<T(!new)>(less: (T, T) -> bool, s: seq<T>, t: seq<T>)
    requires TotalOn(less, s) && Sorted(less, s) && Sorted(less, t)
    requires multiset(s) == multiset(t)
    ensures s == t
  {
    SameElements(s, t);
    if s != [] {
      FirstsAgree(less, s, t);
      TailsAgree(s, t);
      assert forall a :: a in s[1..] ==> a in s;
      SortedIsUnique(less, s[1..], t[1..]);
      assert s == [s[0]] + s[1..] && t == [t[0]] + t[1..];
    }
  }

  /** Sorting forgets the order in which untied elements came. */
  lemma SortForgetsOrder<T(!new)>(less: (T, T) -> bool, s: seq<T>, t: seq<T>)
    requires StrictOrder(less) && TotalOn(less, s) && multiset(s) == multiset(t)
    ensures Sort(less, s) == Sort(less, t)
  {
    SameElements(s, t);
    SortSorts(less, s);
    SortSorts(less, t);
    SameElements(s, Sort(less, s));
    SortedIsUnique(less, Sort(less, s), Sort(less, t));
  }

  // -------------------------------------------------------------- collecting

  // What a function makes of the elements it accepts, in order.
  function Collect<T, U>(f: T -> Option<U>, s: seq<T>): seq<U> {
    if s == [] then []
    else
      var n := |s| - 1;
      Collect(f, s[..n]) + if f(s[n]).Some? then [f(s[n]).value] else []
  }

  lemma {:induction false} CollectParts<T, U>(f: T -> Option<U>, a: seq<T>, b: seq<T>)
    ensures Collect(f, a + b) == Collect(f, a) + Collect(f, b)
  {
    if b == [] {
      assert a + b == a;
    } else {
      var n := |b| - 1;
      assert (a + b)[..|a + b| - 1] == a + b[..n];
      CollectParts(f, a, b[..n]);
    }
  }

  lemma CollectAround<T, U>(f: T -> Option<U>, s: seq<T>, a: seq<T>, x: T, b: seq<T>)
    requires s == a + [x] + b
    ensures multiset(Collect(f, s)) == multiset(Collect(f, a + b)) + multiset(Collect(f, [x]))
  {
    CollectParts(f, a, b);
    CollectParts(f, a, [x]);
    CollectParts(f, a + [x], b);
  }

  lemma CollectLast<T, U>(f: T -> Option<U>, s: seq<T>, front: seq<T>, x: T)
    requires s == front + [x]
    ensures multiset(Collect(f, s)) == multiset(Collect(f, front)) + multiset(Collect(f, [x]))
  {
    CollectParts(f, front, [x]);
  }

  lemma CollectWithOneMore<T, U>(f: T -> Option<U>, s: seq<T>, front: seq<T>, x: T, t: seq<T>, a: seq<T>, b: seq<T>)
    requires s == front + [x] && t == a + [x] + b
    requires multiset(Collect(f, front)) == multiset(Collect(f, a + b))
    ensures multiset(Collect(f, s)) == multiset(Collect(f, t))
  {
    CollectAround(f, t, a, x, b);
    CollectLast(f, s, front, x);
  }

  /** Collecting from a permutation gives a permutation. */
  lemma {:induction false} CollectPermuted<T, U>(f: T -> Option<U>, s: seq<T>, t: seq<T>)
    requires multiset(s) == multiset(t)
    ensures multiset(Collect(f, s)) == multiset(Collect(f, t))
    decreases |s|
  {
    if s == [] {
      SameElements(s, t);
    } else {
      var i := FindLast(s, t);
      var front, a, b := s[..|s| - 1], t[..i], t[i + 1..];
      CollectPermuted(f, front, a + b);
      CollectWithOneMore(f, s, front, t[i], t, a, b);
    }
  }

  lemma {:induction false} CollectHolds<T, U>(f: T -> Option<U>, s: seq<T>, y: U)
    ensures y in Collect(f, s) <==> exists x :: x in s && f(x) == Some(y)
  {
    if s != [] {
      var n := |s| - 1;
      CollectHolds(f, s[..n], y);
      assert s == s[..n] + [s[n]];
    }
  }

  // -------------------------------------------------------------- repetition

  ghost predicate NoRepeats<T(!new)>(s: seq<T>) {
    forall x :: multiset(s)[x] <= 1
  }

  lemma NoRepeatsByIndex<T(!new)>(s: seq<T>, i: nat, j: nat)
    requires NoRepeats(s) && i < j < |s|
    ensures s[i] != s[j]
  {
    assert s == s[..j] + [s[j]] + s[j + 1..];
    assert s[i] in s[..j];
    assert multiset(s)[s[j]] == multiset(s[..j])[s[j]] + 1 + multiset(s[j + 1..])[s[j]];
  }

  lemma {:induction false} DistinctHasNoRepeats<T(!new)>(s: seq<T>)
    requires forall i, j :: 0 <= i < j < |s| ==> s[i] != s[j]
    ensures NoRepeats(s)
  {
    if s != [] {
      var n := |s| - 1;
      DistinctHasNoRepeats(s[..n]);
      assert s == s[..n] + [s[n]];
      assert s[n] !in s[..n];
    }
  }

  // ------------------------------------------------------------------- texts

  predicate LexLess(a: seq<int>, b: seq<int>) {
    if b == [] then false
    else if a == [] then true
    else a[0] < b[0] || (a[0] == b[0] && LexLess(a[1..], b[1..]))
  }

  // The first place where two sequences differ tells, and a shorter one comes first.
  ghost predicate ComesFirst(a: seq<int>, b: seq<int>, n: nat) {
    n <= |a| && n < |b| && a[..n] == b[..n] && (n == |a| || a[n] < b[n])
  }

  lemma {:induction false} LexMeans(a: seq<int>, b: seq<int>)
    ensures LexLess(a, b) <==> exists n: nat :: ComesFirst(a, b, n)
  {
    if a != [] && b != [] && a[0] == b[0] {
      LexMeans(a[1..], b[1..]);
      if n: nat :| ComesFirst(a[1..], b[1..], n) {
        SameFirst(a, b, n);
      }
      if n: nat :| ComesFirst(a, b, n) {
        assert n != 0;
        SameFirst(a, b, n - 1);
      }
    } else if b != [] && (a == [] || a[0] < b[0]) {
      assert ComesFirst(a, b, 0);
    } else {
      forall n: nat
        ensures !ComesFirst(a, b, n)
      {
        if 0 < n <= |a| && n < |b| {
          assert a[..n][0] == a[0] && b[..n][0] == b[0];
        }
      }
    }
  }

  lemma SameFirst(a: seq<int>, b: seq<int>, n: nat)
    requires a != [] && b != [] && a[0] == b[0]
    ensures ComesFirst(a, b, n + 1) <==> ComesFirst(a[1..], b[1..], n)
  {
    if n + 1 <= |a| && n + 1 <= |b| {
      assert a[..n + 1] == [a[0]] + a[1..][..n] && b[..n + 1] == [b[0]] + b[1..][..n];
      assert a[..n + 1] == b[..n + 1] ==> a[1..][..n] == a[..n + 1][1..] && b[1..][..n] == b[..n + 1][1..];
    }
  }

  lemma {:induction false} LexIrreflexive(a: seq<int>)
    ensures !LexLess(a, a)
  {
    if a != [] {
      LexIrreflexive(a[1..]);
    }
  }

  lemma {:induction false} LexTransitive(a: seq<int>, b: seq<int>, c: seq<int>)
    requires LexLess(a, b) && LexLess(b, c)
    ensures LexLess(a, c)
  {
    if a != [] && a[0] == b[0] == c[0] {
      LexTransitive(a[1..], b[1..], c[1..]);
    }
  }

  lemma {:induction false} LexTotal(a: seq<int>, b: seq<int>)
    ensures LexLess(a, b) || LexLess(b, a) || a == b
  {
    if a != [] && b != [] && a[0] == b[0] {
      LexTotal(a[1..], b[1..]);
      assert a == [a[0]] + a[1..] && b == [b[0]] + b[1..];
    }
  }

  function Codes(s: string): seq<int> {
    seq(|s|, i requires 0 <= i < |s| => s[i] as int)
  }

  lemma CodesTell(a: string, b: string)
    requires Codes(a) == Codes(b)
    ensures a == b
  {
    assert |a| == |b|;
    forall i | 0 <= i < |a|
      ensures a[i] == b[i]
    {
      assert Codes(a)[i] == a[i] as int && Codes(b)[i] == b[i] as int;
    }
  }
}
