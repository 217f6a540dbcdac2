/** Strings, decimal numbers and association lists, as the components below use them. */
module Text {
  import opened Lists

  datatype Option<T> = None | Some(value: T)

  // ---------- Splitting ----------

  /** The position of the first `c`, or the length of `s`. */
  function Find(s: string, c: char): (i: nat)
    ensures i <= |s| && (i < |s| ==> s[i] == c) && forall j :: 0 <= j < i ==> s[j] != c
  {
    if s == [] then 0 else if s[0] == c then 0 else 1 + Find(s[1..], c)
  }

  lemma FindIn(a: string, c: char, b: string)
    requires c !in a
    ensures Find(a + [c] + b, c) == |a|
    ensures (a + [c] + b)[..|a|] == a && (a + [c] + b)[|a| + 1..] == b
  {
    var s := a + [c] + b;
    assert s[|a|] == c;
    assert forall j :: 0 <= j < |a| ==> s[j] == a[j];
  }

  lemma NotFound(s: string, c: char)
    requires c !in s
    ensures Find(s, c) == |s|
  {
  }

  predicate EndsWith(s: string, suffix: string) {
    |suffix| <= |s| && s[|s| - |suffix|..] == suffix
  }

  function Lower(c: char): char {
    if 'A' <= c <= 'Z' then (c as int + 32) as char else c
  }

  function LowerCase(s: string): string {
    seq(|s|, i requires 0 <= i < |s| => Lower(s[i]))
  }

  // ---------- Decimal numbers ----------

  function Digit(d: nat): char
    requires d < 10
  {
    "0123456789"[d]
  }

  function DigitValue(c: char): Option<nat> {
    if '0' <= c <= '9' then Some((c as int - '0' as int) as nat) else None
  }

  function Digits(n: nat): string {
    if n < 10 then [Digit(n)] else Digits(n / 10) + [Digit(n % 10)]
  }

  /** Python's `unicode(i)` of an integer. */
  function Decimal(i: int): string {
    if i < 0 then "-" + Digits(-i) else Digits(i)
  }

  function ParseDigits(s: string): Option<nat> {
    if s == [] then None
    else
      var d := DigitValue(s[|s| - 1]);
      if d.None? then None
      else if |s| == 1 then d
      else
        var rest := ParseDigits(s[..|s| - 1]);
        if rest.None? then None else Some(10 * rest.value + d.value)
  }

  /** Python's `int(s)`, without the blanks and the `+` it also accepts; no value is its ValueError. */
  function ParseInt(s: string): Option<int> {
    if s != [] && s[0] == '-' then
      var n := ParseDigits(s[1..]);
      if n.None? then None else Some(-(n.value as int))
    else
      var n := ParseDigits(s);
      if n.None? then None else Some(n.value)
  }

  lemma DigitParses(d: nat)
    requires d < 10
    ensures DigitValue(Digit(d)) == Some(d) && '0' <= Digit(d) <= '9'
  {
  }

  /** One more digit at the end. */
  lemma ParseMore(s: string, d: nat)
    requires d < 10 && ParseDigits(s).Some?
    ensures ParseDigits(s + [Digit(d)]) == Some(10 * ParseDigits(s).value + d)
  {
    DigitParses(d);
    var longer := s + [Digit(d)];
    assert longer[..|longer| - 1] == s && longer[|longer| - 1] == Digit(d);
    hide Digit, DigitValue;
  }

  lemma {:induction false} DigitsParse(n: nat)
    ensures ParseDigits(Digits(n)) == Some(n)
    ensures Digits(n) != [] && '0' <= Digits(n)[0] <= '9'
    ensures forall c :: c in Digits(n) ==> '0' <= c <= '9'
    decreases n
  {
    hide Digit, DigitValue;
    DigitParses(n % 10);
    if n >= 10 {
      DigitsParse(n / 10);
      ParseMore(Digits(n / 10), n % 10);
      assert Digits(n) == Digits(n / 10) + [Digit(n % 10)];
      assert Digits(n)[0] == Digits(n / 10)[0];
    } else {
      assert Digits(n) == [Digit(n)];
      assert ParseDigits([Digit(n)]) == DigitValue(Digit(n));
    }
  }

  /** Reading a printed integer gives it back; so different integers print differently. */
  lemma DecimalRoundTrip(i: int)
    ensures ParseInt(Decimal(i)) == Some(i) && Decimal(i) != []
  {
    hide Digits, ParseDigits;
    if i < 0 {
      DigitsParse(-i);
      assert ("-" + Digits(-i))[1..] == Digits(-i);
    } else {
      DigitsParse(i);
    }
  }

  // ---------- Association lists: a dict as the list of its items, in iteration order ----------

  function Get<K(==), V>(list: seq<(K, V)>, k: K): Option<V> {
    if list == [] then None else if list[0].0 == k then Some(list[0].1) else Get(list[1..], k)
  }

  /** Assignment to a key: an existing one keeps its place. */
  function Put<K(==), V>(list: seq<(K, V)>, k: K, v: V): seq<(K, V)> {
    if list == [] then [(k, v)]
    else if list[0].0 == k then [(k, v)] + list[1..]
    else [list[0]] + Put(list[1..], k, v)
  }

  predicate HasKey<K(==), V>(list: seq<(K, V)>, k: K) {
    exists i :: 0 <= i < |list| && list[i].0 == k
  }

  predicate UniqueKeys<K(==), V>(list: seq<(K, V)>) {
    forall i, j | 0 <= i < j < |list| :: list[i].0 != list[j].0
  }

  lemma {:induction false} GetPut<K, V>(list: seq<(K, V)>, k: K, v: V, other: K)
    ensures Get(Put(list, k, v), other) == if other == k then Some(v) else Get(list, other)
  {
    if list != [] && list[0].0 != k {
      GetPut(list[1..], k, v, other);
    }
  }

  lemma {:induction false} GetHas<K, V>(list: seq<(K, V)>, k: K)
    ensures Get(list, k).Some? <==> HasKey(list, k)
  {
    if list != [] {
      GetHas(list[1..], k);
      if HasKey(list[1..], k) {
        var i :| 0 <= i < |list[1..]| && list[1..][i].0 == k;
        assert list[i + 1].0 == k;
      }
      if HasKey(list, k) && list[0].0 != k {
        var i :| 0 <= i < |list| && list[i].0 == k;
        assert list[1..][i - 1].0 == k;
      }
    }
  }
}
