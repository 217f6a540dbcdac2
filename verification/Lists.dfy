/** Facts about duplicate-free lists, list removal and membership counts that several components share. */
module Lists {
  predicate NoDup<T(==)>(s: seq<T>) {
    forall i, j | 0 <= i < j < |s| :: s[i] != s[j]
  }

  function ToSet<T>(s: seq<T>): set<T> {
    set x | x in s
  }

  /** Python's `list.remove` on a list that holds `x`; a list without `x` is left alone. */
  function RemoveFirst<T(==)>(s: seq<T>, x: T): seq<T> {
    if s == [] then []
    else if s[0] == x then s[1..]
    else [s[0]] + RemoveFirst(s[1..], x)
  }

  /** Repeated `list.remove` until no `x` is left. */
  function RemoveAll<T(==)>(s: seq<T>, x: T): seq<T> {
    if s == [] then []
    else if s[0] == x then RemoveAll(s[1..], x)
    else [s[0]] + RemoveAll(s[1..], x)
  }

  lemma {:induction false} RemoveAllMembers<T>(s: seq<T>, x: T)
    ensures forall y :: y in RemoveAll(s, x) <==> y in s && y != x
  {
    if s != [] {
      RemoveAllMembers(s[1..], x);
      assert s == [s[0]] + s[1..];
    }
  }

  lemma {:induction false} RemoveFirstMembers<T>(s: seq<T>, x: T)
    requires NoDup(s)
    ensures NoDup(RemoveFirst(s, x))
    ensures forall y :: y in RemoveFirst(s, x) <==> y in s && y != x
  {
    if s != [] {
      assert s == [s[0]] + s[1..];
      assert s[0] !in s[1..];
      RemoveFirstMembers(s[1..], x);
    }
  }

  /** Removing from the front: each `remove` drops one occurrence, so the loop that repeats it reaches `RemoveAll`. */
  lemma {:induction false} RemoveFirstThenAll<T>(s: seq<T>, x: T)
    ensures RemoveAll(RemoveFirst(s, x), x) == RemoveAll(s, x)
    ensures x !in s ==> RemoveAll(s, x) == s && RemoveFirst(s, x) == s
    ensures x in s ==> |RemoveFirst(s, x)| == |s| - 1
  {
    if s != [] {
      RemoveFirstThenAll(s[1..], x);
      assert s == [s[0]] + s[1..];
      if s[0] != x {
        assert RemoveFirst(s, x)[1..] == RemoveFirst(s[1..], x);
      }
    }
  }

  lemma {:induction false} NoDupCard<T>(s: seq<T>)
    requires NoDup(s)
    ensures |ToSet(s)| == |s|
  {
    if s != [] {
      var init, last := s[..|s| - 1], s[|s| - 1];
      NoDupCard(init);
      assert s == init + [last];
      assert ToSet(s) == ToSet(init) + {last};
    }
  }

  /** A duplicate-free list inside `b` is no longer than `b`, and as long only when it covers all of `b`. */
  lemma {:induction false} NoDupWithin<T>(a: seq<T>, b: seq<T>)
    requires NoDup(a) && NoDup(b)
    requires forall x :: x in a ==> x in b
    ensures |a| <= |b|
    ensures |a| == |b| <==> (forall x :: x in b ==> x in a)
  {
    NoDupCard(a);
    NoDupCard(b);
    SubsetCard(ToSet(a), ToSet(b));
    if |a| == |b| {
      assert ToSet(a) == ToSet(b);
      forall x | x in b ensures x in a {
        assert x in ToSet(b);
      }
    } else if forall x :: x in b ==> x in a {
      assert ToSet(b) <= ToSet(a);
      SubsetCard(ToSet(b), ToSet(a));
    }
  }

  lemma {:induction false} SubsetCard<T>(a: set<T>, b: set<T>)
    requires a <= b
    ensures |a| <= |b|
    ensures |a| == |b| ==> a == b
    decreases |a|
  {
    if a != {} {
      var x :| x in a;
      SubsetCard(a - {x}, b - {x});
      assert a == (a - {x}) + {x} && b == (b - {x}) + {x};
    } else {
      assert b != {} ==> |b| > 0;
    }
  }

  lemma {:induction false} CountNoDup<T>(s: seq<T>, x: T)
    requires NoDup(s)
    ensures multiset(s)[x] == if x in s then 1 else 0
  {
    if s != [] {
      CountNoDup(s[1..], x);
      assert s == [s[0]] + s[1..];
      assert s[0] !in s[1..];
    }
  }

  lemma TwoOccurrences<T>(s: seq<T>, i: nat, j: nat)
    requires i < j < |s|
    ensures multiset(s) >= multiset{s[i], s[j]}
  {
    assert s == s[..i] + [s[i]] + s[i + 1..j] + [s[j]] + s[j + 1..];
  }

  lemma NoDupFromCount<T>(s: seq<T>)
    requires forall x :: multiset(s)[x] <= 1
    ensures NoDup(s)
  {
    forall i, j | 0 <= i < j < |s| ensures s[i] != s[j] {
      TwoOccurrences(s, i, j);
      assert multiset(s)[s[i]] >= multiset{s[i], s[j]}[s[i]];
    }
  }
}
