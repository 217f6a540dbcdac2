/** Renaming the keys of a nested description, key by key in place: whatever the order of the keys, the result is the
    description with all mapped keys renamed at once. */
module Rename {
  /** What a description holds: text and the like, or a dict again. */
  datatype Info = Leaf(text: string) | Dict(m: map<string, Info>)

  type Mapping = map<string, string>

  /** Different names get different names, and a name that changes does not become one that is mapped itself. */
  predicate GoodMapping(mp: Mapping) {
    && (forall a, b | a in mp && b in mp && a != b :: mp[a] != mp[b])
    && (forall a | a in mp && mp[a] != a :: mp[a] !in mp)
  }

  /** No name that changes becomes a key that is there already. */
  predicate Fresh(mp: Mapping, m: map<string, Info>) {
    forall a | a in mp && mp[a] != a :: mp[a] !in m
  }

  /** ... here and in every dict the renaming goes into: those under mapped keys. */
  predicate Clean(mp: Mapping, info: Info) {
    info.Dict? ==> Fresh(mp, info.m) && forall k | k in info.m && k in mp :: Clean(mp, info.m[k])
  }

  function NewKey(mp: Mapping, k: string): string {
    if k in mp then mp[k] else k
  }

  function NewKeys(mp: Mapping, m: map<string, Info>): set<string> {
    set k | k in m :: NewKey(mp, k)
  }

  function Inverse(mp: Mapping): Mapping
    requires GoodMapping(mp)
  {
    map k | k in mp :: mp[k] := k
  }

  /** The key a renamed key comes from. */
  function OldKey(mp: Mapping, m: map<string, Info>, n: string): (k: string)
    requires GoodMapping(mp) && n in NewKeys(mp, m)
    ensures k in m && NewKey(mp, k) == n
  {
    if n in Inverse(mp) && Inverse(mp)[n] in m then Inverse(mp)[n] else n
  }

  /** All mapped keys renamed at once, and so on below them. */
  function Renamed(mp: Mapping, info: Info): (r: Info)
    requires GoodMapping(mp) && Clean(mp, info)
    ensures r.Dict? == info.Dict?
  {
    match info
    case Leaf(_) => info
    case Dict(m) => Dict(map n | n in NewKeys(mp, m) ::
                           var k := OldKey(mp, m, n); if k in mp then Renamed(mp, m[k]) else m[k])
  }

  /** The value an entry of a renamed dict comes with. */
  function Below(mp: Mapping, info: Info, k: string): Info
    requires GoodMapping(mp) && Clean(mp, info) && info.Dict? && k in info.m
  {
    if k in mp then Renamed(mp, info.m[k]) else info.m[k]
  }

  lemma NewKeysDiffer(mp: Mapping, m: map<string, Info>, a: string, b: string)
    requires GoodMapping(mp) && Fresh(mp, m) && a in m && b in m && a != b
    ensures NewKey(mp, a) != NewKey(mp, b)
  {
  }

  lemma RenamedAt(mp: Mapping, info: Info, k: string)
    requires GoodMapping(mp) && Clean(mp, info) && info.Dict? && k in info.m
    ensures NewKey(mp, k) in Renamed(mp, info).m && Renamed(mp, info).m[NewKey(mp, k)] == Below(mp, info, k)
  {
    var n := NewKey(mp, k);
    assert n in NewKeys(mp, info.m);
    assert Fresh(mp, info.m);
    if OldKey(mp, info.m, n) != k { NewKeysDiffer(mp, info.m, OldKey(mp, info.m, n), k); }
  }

  lemma RenamedOnly(mp: Mapping, info: Info, n: string)
    requires GoodMapping(mp) && Clean(mp, info) && info.Dict? && n in Renamed(mp, info).m
    ensures exists k :: k in info.m && NewKey(mp, k) == n
  {
    assert n in NewKeys(mp, info.m);
  }

  lemma RenamedEntries(mp: Mapping, info: Info, r: map<string, Info>)
    requires GoodMapping(mp) && Clean(mp, info) && info.Dict?
    requires forall k :: k in info.m ==> NewKey(mp, k) in r && r[NewKey(mp, k)] == Below(mp, info, k)
    requires forall n :: n in r ==> exists k :: k in info.m && NewKey(mp, k) == n
    ensures Dict(r) == Renamed(mp, info)
  {
    hide *;
    assert Renamed(mp, info).Dict?;
    var all := Renamed(mp, info).m;
    forall n | n in r ensures n in all && all[n] == r[n] {
      var k :| k in info.m && NewKey(mp, k) == n;
      RenamedAt(mp, info, k);
    }
    forall n | n in all ensures n in r {
      RenamedOnly(mp, info, n);
    }
    assert all == r;
  }

  /** Entries of the dict being rewritten: those not processed yet, and the renamed ones. */
  ghost predicate Halfway(mp: Mapping, info: Info, left: set<string>, now: map<string, Info>)
    requires GoodMapping(mp) && Clean(mp, info) && info.Dict?
  {
    && (forall k :: k in info.m && (k in left || k !in mp) ==> k in now && now[k] == info.m[k])
    && (forall k :: k in info.m && k in mp && k !in left ==> mp[k] in now && now[mp[k]] == Renamed(mp, info.m[k]))
    && (forall n :: n in now ==>
          (n in info.m && (n in left || n !in mp)) || exists k :: k in info.m && k in mp && k !in left && mp[k] == n)
  }

  /** The loop over the mapping's keys, in any order; the dict is rewritten entry by entry. */
  method NsInfoMap(mp: Mapping, original: Info) returns (info: Info)
    requires GoodMapping(mp) && Clean(mp, original) && original.Dict?
    ensures info == Renamed(mp, original)
    decreases original
  {
    hide Clean, GoodMapping, NewKey, NewKeys, OldKey;
    var now := original.m;
    var left := mp.Keys;
    assert Halfway(mp, original, left, now);
    while left != {}
      invariant left <= mp.Keys && Halfway(mp, original, left, now)
      decreases |left|
    {
      var key :| key in left;
      if key in now {
        KeyIsOriginal(mp, original, left, now, key);
        ghost var before := now;
        var value := now[key];
        var newKey := mp[key];
        if newKey != key {
          now := now[newKey := value] - {key};
        }
        if value.Dict? {
          var below := NsInfoMap(mp, value);
          now := now[newKey := below];
        }
        assert now == (before - {key})[newKey := Renamed(mp, value)];
        OneRenamed(mp, original, left, before, key);
      } else {
        OneAbsent(mp, original, left, now, key);
      }
      left := left - {key};
    }
    AllRenamed(mp, original, now);
    info := Dict(now);
  }

  /** A mapped key that is present and not processed yet is still the original one. */
  lemma KeyIsOriginal(mp: Mapping, info: Info, left: set<string>, now: map<string, Info>, key: string)
    requires GoodMapping(mp) && Clean(mp, info) && info.Dict? && key in left && left <= mp.Keys && key in now
    requires Halfway(mp, info, left, now)
    ensures key in info.m && now[key] == info.m[key] && Clean(mp, info.m[key])
  {
    assert forall k :: k in mp && mp[k] == key ==> mp[k] == k;
  }

  /** The new key of an entry is no key of another entry, processed or not. */
  lemma NewKeyFree(mp: Mapping, info: Info, left: set<string>, now: map<string, Info>, key: string)
    requires GoodMapping(mp) && Clean(mp, info) && info.Dict? && key in left && left <= mp.Keys
    requires Halfway(mp, info, left, now) && key in info.m
    ensures mp[key] == key || mp[key] !in info.m
    ensures forall k :: k in mp && k != key ==> mp[k] != mp[key] && mp[k] != key
  {
    assert Fresh(mp, info.m);
  }

  lemma OneRenamed(mp: Mapping, info: Info, left: set<string>, now: map<string, Info>, key: string)
    requires GoodMapping(mp) && Clean(mp, info) && info.Dict? && key in left && left <= mp.Keys
    requires Halfway(mp, info, left, now) && key in info.m && Clean(mp, info.m[key])
    ensures Halfway(mp, info, left - {key}, (now - {key})[mp[key] := Renamed(mp, info.m[key])])
  {
    hide Clean, GoodMapping, Renamed;
    assert mp[key] == NewKey(mp, key);
    var left', now' := left - {key}, (now - {key})[mp[key] := Renamed(mp, info.m[key])];
    NewKeyFree(mp, info, left, now, key);
    forall n | n in now'
      ensures (n in info.m && (n in left' || n !in mp)) || exists k :: k in info.m && k in mp && k !in left' && mp[k] == n
    {
      if n == mp[key] {
        assert key !in left';
      } else if !(n in info.m && (n in left || n !in mp)) {
        var k :| k in info.m && k in mp && k !in left && mp[k] == n;
        assert k !in left';
      }
    }
  }

  lemma OneAbsent(mp: Mapping, info: Info, left: set<string>, now: map<string, Info>, key: string)
    requires GoodMapping(mp) && Clean(mp, info) && info.Dict? && key in left && left <= mp.Keys
    requires Halfway(mp, info, left, now) && key !in now
    ensures Halfway(mp, info, left - {key}, now)
  {
    assert key !in info.m;
    forall n | n in now && !(n in info.m && (n in left || n !in mp))
      ensures exists k :: k in info.m && k in mp && k !in left - {key} && mp[k] == n
    {
      var k :| k in info.m && k in mp && k !in left && mp[k] == n;
      assert k !in left - {key};
    }
  }

  lemma AllRenamed(mp: Mapping, info: Info, now: map<string, Info>)
    requires GoodMapping(mp) && Clean(mp, info) && info.Dict? && Halfway(mp, info, {}, now)
    ensures Dict(now) == Renamed(mp, info)
  {
    forall n | n in now ensures exists k :: k in info.m && NewKey(mp, k) == n {
      if n in info.m && n !in mp {
        assert NewKey(mp, n) == n;
      } else {
        var k :| k in info.m && k in mp && mp[k] == n;
        assert NewKey(mp, k) == n;
      }
    }
    RenamedEntries(mp, info, now);
  }

  // ---------- Nothing is lost, and the inverse undoes it ----------

  /** No entry is lost or made. One under a mapped key is found under what the key is mapped to, renamed below; any other
      is found where it was, as it was. */
  lemma RenamedKeepsEntries(mp: Mapping, info: Info)
    requires GoodMapping(mp) && Clean(mp, info) && info.Dict?
    ensures |Renamed(mp, info).m| == |info.m|
    ensures forall k :: k in info.m && k in mp ==>
              mp[k] in Renamed(mp, info).m && Renamed(mp, info).m[mp[k]] == Renamed(mp, info.m[k])
    ensures forall k :: k in info.m && k !in mp ==> k in Renamed(mp, info).m && Renamed(mp, info).m[k] == info.m[k]
    ensures forall k :: k in info.m ==> NewKey(mp, k) in Renamed(mp, info).m
                                        && Renamed(mp, info).m[NewKey(mp, k)] == Below(mp, info, k)
  {
    assert Fresh(mp, info.m);
    ImageCount(mp, info.m, info.m.Keys);
    hide *;
    var r := Renamed(mp, info).m;
    forall k | k in info.m ensures NewKey(mp, k) in r && r[NewKey(mp, k)] == Below(mp, info, k) {
      RenamedAt(mp, info, k);
    }
    NewKeyIs(mp, info);
    forall n | n in r.Keys ensures n in (set k | k in info.m.Keys :: NewKey(mp, k)) {
      RenamedOnly(mp, info, n);
    }
    assert r.Keys == set k | k in info.m.Keys :: NewKey(mp, k);
    assert |r| == |r.Keys| && |info.m| == |info.m.Keys|;
  }

  lemma NewKeyIs(mp: Mapping, info: Info)
    requires GoodMapping(mp) && Clean(mp, info) && info.Dict?
    ensures forall k :: k in info.m && k in mp ==> NewKey(mp, k) == mp[k] && Below(mp, info, k) == Renamed(mp, info.m[k])
    ensures forall k :: k in info.m && k !in mp ==> NewKey(mp, k) == k && Below(mp, info, k) == info.m[k]
  {
    hide Renamed;
  }

  lemma {:induction false} ImageCount(mp: Mapping, m: map<string, Info>, keys: set<string>)
    requires GoodMapping(mp) && Fresh(mp, m) && keys <= m.Keys
    ensures |set k | k in keys :: NewKey(mp, k)| == |keys|
    decreases |keys|
  {
    var image := set k | k in keys :: NewKey(mp, k);
    if keys == {} {
      assert image == {};
    } else {
      var x :| x in keys;
      ImageCount(mp, m, keys - {x});
      var rest := set k | k in keys - {x} :: NewKey(mp, k);
      forall k | k in keys - {x} ensures NewKey(mp, k) != NewKey(mp, x) { NewKeysDiffer(mp, m, k, x); }
      assert image == rest + {NewKey(mp, x)};
    }
  }

  lemma InverseGood(mp: Mapping)
    requires GoodMapping(mp)
    ensures GoodMapping(Inverse(mp))
    ensures forall k :: k in mp ==> mp[k] in Inverse(mp) && Inverse(mp)[mp[k]] == k
    ensures forall n :: n in Inverse(mp) ==> Inverse(mp)[n] in mp && mp[Inverse(mp)[n]] == n
  {
  }

  /** Renaming back with the inverse mapping is possible, and restores the description. */
  lemma {:induction false} RenamingUndone(mp: Mapping, info: Info)
    requires GoodMapping(mp) && Clean(mp, info)
    ensures GoodMapping(Inverse(mp)) && Clean(Inverse(mp), Renamed(mp, info))
    ensures Renamed(Inverse(mp), Renamed(mp, info)) == info
    decreases info
  {
    InverseGood(mp);
    if info.Dict? {
      forall k | k in info.m && k in mp
        ensures Clean(Inverse(mp), Renamed(mp, info.m[k])) && Renamed(Inverse(mp), Renamed(mp, info.m[k])) == info.m[k]
      {
        RenamingUndone(mp, info.m[k]);
      }
      BackIsClean(mp, info);
      BackAgain(mp, info);
    }
  }

  /** Going back, a key of the renamed dict is mapped exactly when its original was. */
  lemma BackKey(mp: Mapping, info: Info, k: string)
    requires GoodMapping(mp) && Clean(mp, info) && info.Dict? && k in info.m
    ensures NewKey(mp, k) in Inverse(mp) <==> k in mp
    ensures NewKey(Inverse(mp), NewKey(mp, k)) == k
  {
    InverseGood(mp);
    assert Fresh(mp, info.m);
  }

  lemma BackIsClean(mp: Mapping, info: Info)
    requires GoodMapping(mp) && Clean(mp, info) && info.Dict? && GoodMapping(Inverse(mp))
    requires forall k :: k in info.m && k in mp ==> Clean(Inverse(mp), Renamed(mp, info.m[k]))
    ensures Clean(Inverse(mp), Renamed(mp, info))
  {
    var inv, r := Inverse(mp), Renamed(mp, info);
    InverseGood(mp);
    forall n | n in r.m && n in inv ensures Clean(inv, r.m[n]) {
      RenamedOnly(mp, info, n);
      var k :| k in info.m && NewKey(mp, k) == n;
      BackKey(mp, info, k);
      RenamedAt(mp, info, k);
    }
    BackIsFresh(mp, info);
  }

  lemma BackIsFresh(mp: Mapping, info: Info)
    requires GoodMapping(mp) && Clean(mp, info) && info.Dict?
    ensures Fresh(Inverse(mp), Renamed(mp, info).m)
  {
    var inv, r := Inverse(mp), Renamed(mp, info);
    InverseGood(mp);
    forall a | a in inv && inv[a] != a ensures inv[a] !in r.m {
      var source := inv[a];
      forall k | k in info.m ensures NewKey(mp, k) != source {
      }
      if source in r.m { RenamedOnly(mp, info, source); }
    }
  }

  lemma BackAgain(mp: Mapping, info: Info)
    requires GoodMapping(mp) && Clean(mp, info) && info.Dict?
    requires GoodMapping(Inverse(mp)) && Clean(Inverse(mp), Renamed(mp, info))
    requires forall k :: k in info.m && k in mp ==>
               Clean(Inverse(mp), Renamed(mp, info.m[k])) && Renamed(Inverse(mp), Renamed(mp, info.m[k])) == info.m[k]
    ensures Renamed(Inverse(mp), Renamed(mp, info)) == info
  {
    var inv, r := Inverse(mp), Renamed(mp, info);
    RenamedKeepsEntries(mp, info);
    forall n | n in r.m ensures NewKey(inv, n) in info.m && info.m[NewKey(inv, n)] == Below(inv, r, n) {
      RenamedOnly(mp, info, n);
      var k :| k in info.m && NewKey(mp, k) == n;
      BackKey(mp, info, k);
    }
    forall k | k in info.m ensures exists n :: n in r.m && NewKey(inv, n) == k {
      BackKey(mp, info, k);
      assert NewKey(mp, k) in r.m;
    }
    RenamedEntries(inv, r, info.m);
  }
}
