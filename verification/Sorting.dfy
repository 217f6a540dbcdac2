/** Emulated sorting of list responses: several keys, each with its own direction. */
module Sorting {
  import opened Lists
  import opened Text

  /** The attributes of a listed object that can be sorted by, as ranks in Python's order of their values. */
  type Item = map<string, int>

  /** A key, and whether its direction is ascending. */
  type Sorts = seq<(string, bool)>

  /** An object without the key would raise; `update_fields` sees to it that the sort keys are there. */
  function At(item: Item, key: string): int {
    if key in item then item[key] else 0
  }

  function Cmp(x: int, y: int): int {
    if x < y then -1 else if x > y then 1 else 0
  }

  function Compare(sorts: Sorts, a: Item, b: Item): int {
    if sorts == [] then 0
    else
      var ret := Cmp(At(a, sorts[0].0), At(b, sorts[0].0));
      if ret != 0 then (if sorts[0].1 then ret else -ret) else Compare(sorts[1..], a, b)
  }

  /** The objects agree on the first `k` keys. */
  predicate AgreeBefore(sorts: Sorts, a: Item, b: Item, k: nat)
    requires k <= |sorts|
  {
    forall j :: 0 <= j < k ==> At(a, sorts[j].0) == At(b, sorts[j].0)
  }

  /** At the first key they differ in, which is number `k`, `a` comes before `b`: it has the lower value if the key is
      ascending, and the higher one if not. */
  predicate BeforeAt(sorts: Sorts, a: Item, b: Item, k: nat) {
    && k < |sorts| && AgreeBefore(sorts, a, b, k)
    && if sorts[k].1 then At(a, sorts[k].0) < At(b, sorts[k].0) else At(b, sorts[k].0) < At(a, sorts[k].0)
  }

  lemma {:induction false} CompareSign(sorts: Sorts, a: Item, b: Item)
    ensures Compare(sorts, a, b) < 0 <==> exists k: nat :: BeforeAt(sorts, a, b, k)
    ensures Compare(sorts, a, b) == 0 <==> AgreeBefore(sorts, a, b, |sorts|)
  {
    if sorts != [] {
      var rest, differ := sorts[1..], At(a, sorts[0].0) != At(b, sorts[0].0);
      CompareSign(rest, a, b);
      assert forall j :: 0 <= j < |rest| ==> rest[j] == sorts[j + 1];
      if k: nat :| BeforeAt(sorts, a, b, k) {
        assert k == 0 <==> differ;
        if k > 0 { assert BeforeAt(rest, a, b, k - 1); }
      }
      if !differ {
        assert AgreeBefore(sorts, a, b, |sorts|) <==> AgreeBefore(rest, a, b, |rest|);
        if k: nat :| BeforeAt(rest, a, b, k) {
          assert BeforeAt(sorts, a, b, k + 1);
        }
      } else if Compare(sorts, a, b) < 0 {
        assert BeforeAt(sorts, a, b, 0);
      }
    }
  }

  lemma {:induction false} CompareOpposite(sorts: Sorts, a: Item, b: Item)
    ensures Compare(sorts, a, b) == -Compare(sorts, b, a)
  {
    if sorts != [] { CompareOpposite(sorts[1..], a, b); }
  }

  /** The comparison function handed to `sorted`: negative when `a` comes first, positive when `b` does, and 0 when they
      agree on all keys. */
  method CmpFunc(sorts: Sorts, a: Item, b: Item) returns (r: int)
    ensures r < 0 <==> exists k: nat :: BeforeAt(sorts, a, b, k)
    ensures r > 0 <==> exists k: nat :: BeforeAt(sorts, b, a, k)
    ensures r == 0 <==> AgreeBefore(sorts, a, b, |sorts|)
    ensures r == Compare(sorts, a, b)
  {
    hide AgreeBefore, BeforeAt;
    CompareSign(sorts, a, b);
    CompareSign(sorts, b, a);
    CompareOpposite(sorts, a, b);
    assert sorts[0..] == sorts;
    for i := 0 to |sorts|
      invariant Compare(sorts, a, b) == Compare(sorts[i..], a, b)
    {
      assert sorts[i..][0] == sorts[i] && sorts[i..][1..] == sorts[i + 1..];
      var ret := Cmp(At(a, sorts[i].0), At(b, sorts[i].0));
      if ret != 0 {
        return ret * if sorts[i].1 then 1 else -1;
      }
    }
    r := 0;
  }

  /** The comparison is a total preorder: any two objects compare, oppositely when swapped, and consistently. */
  lemma {:induction false} TotalPreorder(sorts: Sorts, a: Item, b: Item, c: Item)
    ensures Compare(sorts, a, a) == 0
    ensures Compare(sorts, a, b) == -Compare(sorts, b, a)
    ensures Compare(sorts, a, b) <= 0 && Compare(sorts, b, c) <= 0 ==> Compare(sorts, a, c) <= 0
    ensures Compare(sorts, a, b) == 0 ==> Compare(sorts, a, c) == Compare(sorts, b, c)
  {
    if sorts != [] { TotalPreorder(sorts[1..], a, b, c); }
  }

  // ---------- Stable sorting ----------

  predicate Sorted(sorts: Sorts, s: seq<Item>) {
    s == [] || ((forall y :: y in s[1..] ==> Compare(sorts, s[0], y) <= 0) && Sorted(sorts, s[1..]))
  }

  /** The objects of a list that compare equal to `x`, in the list's order. */
  function Class(sorts: Sorts, x: Item, s: seq<Item>): seq<Item> {
    if s == [] then []
    else (if Compare(sorts, x, s[0]) == 0 then [s[0]] else []) + Class(sorts, x, s[1..])
  }

  /** Python's `sorted` promises: in order, and equal objects as they were. */
  ghost predicate IsStableSort(sorts: Sorts, s: seq<Item>, t: seq<Item>) {
    Sorted(sorts, t) && forall x :: Class(sorts, x, t) == Class(sorts, x, s)
  }

  lemma {:induction false} ClassMembers(sorts: Sorts, x: Item, s: seq<Item>)
    ensures forall y :: y in Class(sorts, x, s) <==> y in s && Compare(sorts, x, y) == 0
  {
    if s != [] {
      ClassMembers(sorts, x, s[1..]);
      assert s == [s[0]] + s[1..];
    }
  }

  lemma ClassCons(sorts: Sorts, x: Item, s: seq<Item>)
    requires s != []
    ensures Compare(sorts, x, s[0]) == 0 ==> Class(sorts, x, s) != [] && Class(sorts, x, s)[0] == s[0]
                                             && Class(sorts, x, s)[1..] == Class(sorts, x, s[1..])
    ensures Compare(sorts, x, s[0]) != 0 ==> Class(sorts, x, s) == Class(sorts, x, s[1..])
  {
    var rest := Class(sorts, x, s[1..]);
    assert ([s[0]] + rest)[1..] == rest && [] + rest == rest;
  }

  /** There is only one way to sort stably. */
  lemma {:induction false} StableSortUnique(sorts: Sorts, t: seq<Item>, u: seq<Item>)
    requires Sorted(sorts, t) && Sorted(sorts, u) && forall x :: Class(sorts, x, t) == Class(sorts, x, u)
    ensures t == u
    decreases |t|
  {
    if t == [] {
      if u != [] { SameHead(sorts, u, t); }
    } else {
      SameHead(sorts, t, u);
      forall x ensures Class(sorts, x, t[1..]) == Class(sorts, x, u[1..]) {
        assert Class(sorts, x, t) == Class(sorts, x, u);
        ClassCons(sorts, x, t);
        ClassCons(sorts, x, u);
      }
      StableSortUnique(sorts, t[1..], u[1..]);
    }
  }

  lemma SameHead(sorts: Sorts, t: seq<Item>, u: seq<Item>)
    requires Sorted(sorts, t) && Sorted(sorts, u) && t != [] && forall x :: Class(sorts, x, t) == Class(sorts, x, u)
    ensures u != [] && t[0] == u[0]
  {
    var x := t[0];
    TotalPreorder(sorts, x, x, x);
    ClassMembers(sorts, x, t);
    ClassMembers(sorts, x, u);
    assert x in Class(sorts, x, t) && x in u;
    var y := u[0];
    ClassMembers(sorts, y, u);
    ClassMembers(sorts, y, t);
    TotalPreorder(sorts, y, y, y);
    assert y in Class(sorts, y, u) && y in t;
    TotalPreorder(sorts, x, y, x);
    assert x == y || (Compare(sorts, x, y) <= 0 && Compare(sorts, y, x) <= 0);
    assert Class(sorts, x, t)[0] == x && Class(sorts, x, u)[0] == y;
  }

  // ---------- `sorted` by insertion ----------

  function Insert(sorts: Sorts, x: Item, s: seq<Item>): seq<Item> {
    if s == [] then [x]
    else if Compare(sorts, x, s[0]) <= 0 then [x] + s
    else [s[0]] + Insert(sorts, x, s[1..])
  }

  function StableSort(sorts: Sorts, s: seq<Item>): seq<Item> {
    if s == [] then [] else Insert(sorts, s[0], StableSort(sorts, s[1..]))
  }

  lemma {:induction false} InsertMembers(sorts: Sorts, x: Item, s: seq<Item>)
    ensures forall y :: y in Insert(sorts, x, s) <==> y == x || y in s
    ensures multiset(Insert(sorts, x, s)) == multiset(s) + multiset{x}
  {
    if s != [] {
      InsertMembers(sorts, x, s[1..]);
      assert s == [s[0]] + s[1..];
    }
  }

  lemma {:induction false} InsertSorted(sorts: Sorts, x: Item, s: seq<Item>)
    requires Sorted(sorts, s)
    ensures Sorted(sorts, Insert(sorts, x, s))
  {
    if s != [] {
      if Compare(sorts, x, s[0]) <= 0 {
        assert ([x] + s)[1..] == s;
        forall y | y in s ensures Compare(sorts, x, y) <= 0 {
          TotalPreorder(sorts, x, s[0], y);
          assert s == [s[0]] + s[1..];
        }
      } else {
        InsertSorted(sorts, x, s[1..]);
        InsertMembers(sorts, x, s[1..]);
        TotalPreorder(sorts, x, s[0], x);
        assert Insert(sorts, x, s)[1..] == Insert(sorts, x, s[1..]);
      }
    }
  }

  /** Inserting puts the object before its equals. */
  lemma {:induction false} InsertStable(sorts: Sorts, x: Item, s: seq<Item>, y: Item)
    requires Sorted(sorts, s)
    ensures Class(sorts, y, Insert(sorts, x, s)) == (if Compare(sorts, y, x) == 0 then [x] else []) + Class(sorts, y, s)
  {
    if s == [] {
      assert [x][1..] == [];
    } else if Compare(sorts, x, s[0]) <= 0 {
      assert ([x] + s)[1..] == s;
    } else {
      InsertStable(sorts, x, s[1..], y);
      assert Insert(sorts, x, s)[1..] == Insert(sorts, x, s[1..]);
      TotalPreorder(sorts, y, x, s[0]);
    }
  }

  lemma {:induction false} StableSortIsStable(sorts: Sorts, s: seq<Item>)
    ensures IsStableSort(sorts, s, StableSort(sorts, s))
    ensures multiset(StableSort(sorts, s)) == multiset(s)
  {
    if s != [] {
      StableSortIsStable(sorts, s[1..]);
      var rest := StableSort(sorts, s[1..]);
      InsertSorted(sorts, s[0], rest);
      InsertMembers(sorts, s[0], rest);
      assert s == [s[0]] + s[1..];
      forall x ensures Class(sorts, x, StableSort(sorts, s)) == Class(sorts, x, s) {
        InsertStable(sorts, s[0], rest, x);
        assert Class(sorts, x, rest) == Class(sorts, x, s[1..]);
      }
    }
  }

  lemma {:induction false} SortedPairs(sorts: Sorts, t: seq<Item>, i: nat, j: nat)
    requires Sorted(sorts, t) && i < j < |t|
    ensures Compare(sorts, t[i], t[j]) <= 0
  {
    if i > 0 { SortedPairs(sorts, t[1..], i - 1, j - 1); }
  }

  /** The sorted list: of any two objects the earlier one agrees with the later on all keys, or comes before it at the
      first key they differ in, ascending keys ascending. */
  lemma SortsAsAsked(sorts: Sorts, s: seq<Item>, i: nat, j: nat)
    requires i < j < |s|
    ensures var t := StableSort(sorts, s);
            && |t| == |s|
            && (AgreeBefore(sorts, t[i], t[j], |sorts|) || exists k: nat :: BeforeAt(sorts, t[i], t[j], k))
  {
    hide AgreeBefore, BeforeAt;
    var t := StableSort(sorts, s);
    StableSortIsStable(sorts, s);
    assert |t| == |multiset(t)| == |multiset(s)| == |s|;
    SortedPairs(sorts, t, i, j);
    CompareSign(sorts, t[i], t[j]);
  }

  // ---------- One key after the other ----------

  /** Sorting by the last key first, then by the one before it, and so on. */
  function SortSuccessively(sorts: Sorts, s: seq<Item>): seq<Item> {
    if sorts == [] then s else StableSort([sorts[0]], SortSuccessively(sorts[1..], s))
  }

  lemma {:induction false} ClassesCommute(a: Sorts, b: Sorts, x: Item, s: seq<Item>)
    ensures Class(a, x, Class(b, x, s)) == Class(b, x, Class(a, x, s))
  {
    if s != [] {
      ClassesCommute(a, b, x, s[1..]);
      var rest, y := s[1..], s[0];
      if Compare(a, x, y) == 0 {
        assert Class(a, x, s) == [y] + Class(a, x, rest);
        assert ([y] + Class(a, x, rest))[1..] == Class(a, x, rest);
      } else {
        assert Class(a, x, s) == Class(a, x, rest);
      }
      if Compare(b, x, y) == 0 {
        assert Class(b, x, s) == [y] + Class(b, x, rest);
        assert ([y] + Class(b, x, rest))[1..] == Class(b, x, rest);
      } else {
        assert Class(b, x, s) == Class(b, x, rest);
      }
    }
  }

  lemma HeadKey(sorts: Sorts, a: Item, b: Item)
    requires sorts != []
    ensures Compare([sorts[0]], a, b) == 0 ==> Compare(sorts, a, b) == Compare(sorts[1..], a, b)
    ensures Compare([sorts[0]], a, b) != 0 ==> Compare(sorts, a, b) == Compare([sorts[0]], a, b)
  {
    assert [sorts[0]][1..] == [];
  }

  /** Equal on all keys is equal on the first and on the others. */
  lemma {:induction false} ClassSplits(sorts: Sorts, x: Item, s: seq<Item>)
    requires sorts != []
    ensures Class(sorts, x, s) == Class(sorts[1..], x, Class([sorts[0]], x, s))
  {
    if s != [] {
      var first := [sorts[0]];
      ClassSplits(sorts, x, s[1..]);
      HeadKey(sorts, x, s[0]);
      ClassCons(first, x, s);
      ClassCons(sorts, x, s);
      if Compare(first, x, s[0]) == 0 {
        assert Class(first, x, s) == [s[0]] + Class(first, x, s[1..]);
        ClassCons(sorts[1..], x, Class(first, x, s));
      }
    }
  }

  lemma {:induction false} ClassSorted(sorts: Sorts, order: Sorts, x: Item, s: seq<Item>)
    requires Sorted(order, s)
    ensures Sorted(order, Class(sorts, x, s))
  {
    if s != [] {
      ClassSorted(sorts, order, x, s[1..]);
      ClassMembers(sorts, x, s[1..]);
      ClassCons(sorts, x, s);
    }
  }

  /** In order by the first key, and each group of equals in order by the others, is in order by all. */
  lemma {:induction false} SortedByAll(sorts: Sorts, t: seq<Item>)
    requires sorts != [] && Sorted([sorts[0]], t) && forall x :: Sorted(sorts[1..], Class([sorts[0]], x, t))
    ensures Sorted(sorts, t)
  {
    if t != [] {
      var first := [sorts[0]];
      forall x ensures Sorted(sorts[1..], Class(first, x, t[1..])) {
        assert Sorted(sorts[1..], Class(first, x, t));
        ClassCons(first, x, t);
      }
      SortedByAll(sorts, t[1..]);
      TotalPreorder(first, t[0], t[0], t[0]);
      var group := Class(first, t[0], t);
      assert Sorted(sorts[1..], group) && group[0] == t[0] && group[1..] == Class(first, t[0], t[1..]);
      ClassMembers(first, t[0], t[1..]);
      forall y | y in t[1..] ensures Compare(sorts, t[0], y) <= 0 {
        HeadKey(sorts, t[0], y);
        if Compare(first, t[0], y) == 0 { assert y in group[1..]; }
      }
    }
  }

  /** Sorting stably by all keys at once is sorting stably by one key after the other, from the last to the first. */
  lemma {:induction false} MultiKeyIsSuccessive(sorts: Sorts, s: seq<Item>)
    ensures StableSort(sorts, s) == SortSuccessively(sorts, s)
  {
    StableSortIsStable(sorts, s);
    if sorts == [] {
      NoKeys(s);
      StableSortUnique([], StableSort([], s), s);
    } else {
      var first, others := [sorts[0]], sorts[1..];
      MultiKeyIsSuccessive(others, s);
      var u := SortSuccessively(others, s);
      var t := StableSort(first, u);
      StableSortIsStable(others, s);
      StableSortIsStable(first, u);
      forall x ensures Sorted(others, Class(first, x, t)) && Class(sorts, x, t) == Class(sorts, x, s) {
        assert Class(first, x, t) == Class(first, x, u) && Class(others, x, u) == Class(others, x, s);
        ClassSorted(first, others, x, u);
        ClassSplits(sorts, x, t);
        ClassSplits(sorts, x, s);
        ClassesCommute(others, first, x, u);
        ClassesCommute(others, first, x, s);
      }
      SortedByAll(sorts, t);
      forall x ensures Class(sorts, x, StableSort(sorts, s)) == Class(sorts, x, t) {
        assert Class(sorts, x, StableSort(sorts, s)) == Class(sorts, x, s);
      }
      StableSortUnique(sorts, StableSort(sorts, s), t);
    }
  }

  lemma {:induction false} NoKeys(s: seq<Item>)
    ensures Sorted([], s)
  {
    if s != [] { NoKeys(s[1..]); }
  }

  // ---------- The request's sort parameters ----------

  datatype SortsResult = Ok(sorts: Sorts) | BadRequest

  function NonEmpty(values: seq<string>): seq<string> {
    if values == [] then [] else (if values[0] == "" then [] else [values[0]]) + NonEmpty(values[1..])
  }

  /** Exactly the empty values are left out, and the others keep their order. */
  lemma {:induction false} NonEmptyIs(a: seq<string>, b: seq<string>)
    ensures "" !in a ==> NonEmpty(a) == a
    ensures NonEmpty(a + [""] + b) == NonEmpty(a + b)
  {
    if a == [] {
      assert [] + [""] + b == [""] + b && ([""] + b)[1..] == b && [] + b == b;
      assert [] + NonEmpty(b) == NonEmpty(b);
    } else {
      NonEmptyIs(a[1..], b);
      assert (a + [""] + b)[1..] == a[1..] + [""] + b && (a + b)[1..] == a[1..] + b;
      if "" !in a {
        assert a[0] in a && a == [a[0]] + a[1..];
      }
    }
  }

  /** The request is answered exactly when keys and directions pair up, every key is an attribute and every direction
      is `asc` or `desc`; then the pairs are those of the request, in its order. */
  method GetSorts(sortKey: seq<string>, sortDir: seq<string>, attrInfo: set<string>) returns (r: SortsResult)
    ensures var keys, dirs := NonEmpty(sortKey), NonEmpty(sortDir);
            && (r.Ok? <==> |keys| == |dirs| && (forall k :: k in keys ==> k in attrInfo)
                           && (forall d :: d in dirs ==> d in {"asc", "desc"}))
            && (r.Ok? ==> |r.sorts| == |keys|
                          && forall i :: 0 <= i < |keys| ==> r.sorts[i] == (keys[i], dirs[i] == "asc"))
  {
    var keys, dirs := NonEmpty(sortKey), NonEmpty(sortDir);
    if |keys| != |dirs| { return BadRequest; }
    if exists k :: k in keys && k !in attrInfo { return BadRequest; }
    if exists d :: d in dirs && d !in {"asc", "desc"} { return BadRequest; }
    var sorts := [];
    for i := 0 to |keys|
      invariant |sorts| == i && forall j :: 0 <= j < i ==> sorts[j] == (keys[j], dirs[j] == "asc")
    {
      sorts := sorts + [(keys[i], dirs[i] == "asc")];
    }
    r := Ok(sorts);
  }
}
