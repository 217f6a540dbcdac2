/** The dependency graph of a service: each VDU names the VDUs it takes updates from. */
module DependencyGraph {
  import opened Lists

  /** A VDU is addressed as `vnfd:name`; the two halves are kept apart here. */
  datatype Vdu = Vdu(vnfd: string, name: string)

  /** `updatesFrom` of every VDU of the template; a list may name VDUs the template does not hold. */
  type Graph = map<Vdu, seq<Vdu>>

  /** What can be configured within `k` rounds when each round takes every VDU whose dependencies are configured. */
  function Closure(g: Graph, k: nat): set<Vdu> {
    if k == 0 then {} else set v | v in g && forall d :: d in g[v] ==> d in Closure(g, k - 1)
  }

  /** The VDUs launched in round `k`. */
  function Wave(g: Graph, k: nat): set<Vdu> {
    Closure(g, k + 1) - Closure(g, k)
  }

  /** The list a scheduling round builds: template order, not yet configured, all dependencies configured. */
  function Ready(g: Graph, order: seq<Vdu>, done: seq<Vdu>): seq<Vdu> {
    if order == [] then []
    else (if order[0] !in done && order[0] in g && forall d :: d in g[order[0]] ==> d in done then [order[0]] else [])
         + Ready(g, order[1..], done)
  }

  lemma {:induction false} ReadyMembers(g: Graph, order: seq<Vdu>, done: seq<Vdu>)
    ensures forall v :: v in Ready(g, order, done) <==>
                        v in order && v !in done && v in g && forall d :: d in g[v] ==> d in done
    ensures NoDup(order) ==> NoDup(Ready(g, order, done))
  {
    if order != [] {
      ReadyMembers(g, order[1..], done);
      assert order == [order[0]] + order[1..];
    }
  }

  lemma {:induction false} ClosureGrows(g: Graph, k: nat)
    ensures Closure(g, k) <= Closure(g, k + 1)
  {
    if k > 0 {
      ClosureGrows(g, k - 1);
    }
  }

  lemma {:induction false} ClosureMonotone(g: Graph, j: nat, k: nat)
    requires j <= k
    ensures Closure(g, j) <= Closure(g, k)
    decreases k - j
  {
    if j < k {
      ClosureGrows(g, j);
      ClosureMonotone(g, j + 1, k);
    }
  }

  /** Once a round adds nothing, no later round does. */
  lemma {:induction false} ClosureSettles(g: Graph, j: nat, k: nat)
    requires j <= k && Closure(g, j + 1) == Closure(g, j)
    ensures Closure(g, k) == Closure(g, j)
    decreases k
  {
    if j < k {
      ClosureSettles(g, j, k - 1);
    }
  }

  /** With the configured VDUs being those of `k` rounds, the list built is a listing of wave `k`. */
  lemma ReadyIsWave(g: Graph, order: seq<Vdu>, done: seq<Vdu>, k: nat)
    requires NoDup(order) && ToSet(order) == g.Keys
    requires ToSet(done) == Closure(g, k)
    ensures ToSet(Ready(g, order, done)) == Wave(g, k) && NoDup(Ready(g, order, done))
  {
    ReadyMembers(g, order, done);
    forall v ensures v in Ready(g, order, done) <==> v in Wave(g, k) {
      if v in g {
        assert forall d :: d in g[v] ==> (d in done <==> d in ToSet(done));
      }
      assert v in done <==> v in ToSet(done);
      assert v in order <==> v in ToSet(order);
    }
  }

  // ---------- Reference notions: dependency chains ----------

  /** A path `p[0] -> p[1] -> ...` along `updatesFrom`; only its last VDU may be missing from the template. */
  predicate IsChain(g: Graph, p: seq<Vdu>) {
    |p| > 0 && forall i | 0 <= i < |p| - 1 :: p[i] in g && p[i + 1] in g[p[i]]
  }

  ghost predicate ChainFrom(g: Graph, v: Vdu, p: seq<Vdu>) {
    IsChain(g, p) && p[0] == v
  }

  /** The longest chain from `v` has exactly `k` edges, and no chain leaves the template. */
  ghost predicate HeightIs(g: Graph, v: Vdu, k: nat) {
    && (exists p :: ChainFrom(g, v, p) && |p| == k + 1)
    && (forall p :: ChainFrom(g, v, p) ==> |p| <= k + 1 && p[|p| - 1] in g)
  }

  /** `v` depends, directly or not, on a VDU that is missing from the template or on a cycle. */
  ghost predicate Unresolvable(g: Graph, v: Vdu) {
    exists p :: ChainFrom(g, v, p) && (p[|p| - 1] !in g || !NoDup(p))
  }

  lemma {:induction false} ChainsBounded(g: Graph, v: Vdu, k: nat, p: seq<Vdu>)
    requires v in Closure(g, k) && ChainFrom(g, v, p)
    ensures |p| <= k && p[|p| - 1] in g
    decreases k
  {
    if |p| > 1 {
      assert p[0] in g && p[1] in g[p[0]];
      assert IsChain(g, p[1..]);
      ChainsBounded(g, p[1], k - 1, p[1..]);
    }
  }

  lemma {:induction false} EscapingChain(g: Graph, v: Vdu, k: nat) returns (p: seq<Vdu>)
    requires v !in Closure(g, k)
    ensures ChainFrom(g, v, p) && (|p| == k + 1 || p[|p| - 1] !in g)
    decreases k
  {
    p := [v];
    if k > 0 && v in g {
      var d :| d in g[v] && d !in Closure(g, k - 1);
      var q := EscapingChain(g, d, k - 1);
      p := [v] + q;
      assert forall i | 0 <= i < |p| - 1 :: p[i] in g && p[i + 1] in g[p[i]] by {
        forall i | 0 <= i < |p| - 1 ensures p[i] in g && p[i + 1] in g[p[i]] {
          if i > 0 { assert p[i] == q[i - 1] && p[i + 1] == q[i]; }
        }
      }
    }
  }

  /** A VDU belongs to round `k` exactly when its longest dependency chain has `k` edges. */
  lemma WaveIsHeight(g: Graph, v: Vdu, k: nat)
    ensures v in Wave(g, k) <==> HeightIs(g, v, k)
  {
    if v in Wave(g, k) {
      forall p | ChainFrom(g, v, p) ensures |p| <= k + 1 && p[|p| - 1] in g {
        ChainsBounded(g, v, k + 1, p);
      }
      var p := EscapingChain(g, v, k);
      assert ChainFrom(g, v, p) && |p| == k + 1;
    }
    if HeightIs(g, v, k) {
      if v !in Closure(g, k + 1) {
        var p := EscapingChain(g, v, k + 1);
      }
      var q :| ChainFrom(g, v, q) && |q| == k + 1;
      if v in Closure(g, k) {
        ChainsBounded(g, v, k, q);
      }
    }
  }

  lemma {:induction false} ClosureAlongChain(g: Graph, p: seq<Vdu>, k: nat, i: nat)
    requires IsChain(g, p) && i < |p| && p[0] in Closure(g, k)
    ensures i <= k && p[i] in Closure(g, k - i)
  {
    if i > 0 {
      ClosureAlongChain(g, p, k, i - 1);
      assert p[i - 1] in g && p[i] in g[p[i - 1]];
    }
  }

  lemma {:induction false} NoCycleInClosure(g: Graph, q: seq<Vdu>, k: nat)
    requires IsChain(g, q) && |q| > 1 && q[0] == q[|q| - 1]
    ensures q[0] !in Closure(g, k)
    decreases k
  {
    if q[0] in Closure(g, k) {
      ClosureAlongChain(g, q, k, |q| - 1);
      NoCycleInClosure(g, q, k - (|q| - 1));
    }
  }

  lemma UnresolvableNeverReady(g: Graph, v: Vdu, k: nat)
    requires Unresolvable(g, v)
    ensures v !in Closure(g, k)
  {
    var p :| ChainFrom(g, v, p) && (p[|p| - 1] !in g || !NoDup(p));
    if v in Closure(g, k) {
      ChainsBounded(g, v, k, p);
      var i, j :| 0 <= i < j < |p| && p[i] == p[j];
      ClosureAlongChain(g, p, k, i);
      var q := p[i..j + 1];
      assert IsChain(g, q) by {
        forall a | 0 <= a < |q| - 1 ensures q[a] in g && q[a + 1] in g[q[a]] {
          assert q[a] == p[i + a] && q[a + 1] == p[i + a + 1];
        }
      }
      NoCycleInClosure(g, q, k - i);
    }
  }

  /** A VDU can be configured in some number of rounds exactly when it reaches no cycle and no unknown name,
      and then as many rounds as there are VDUs are enough. */
  lemma ResolvableIffConfigurable(g: Graph, v: Vdu)
    ensures v in Closure(g, |g|) <==> !Unresolvable(g, v)
    ensures (exists k: nat :: v in Closure(g, k)) <==> v in Closure(g, |g|)
  {
    if v !in Closure(g, |g|) {
      var p := EscapingChain(g, v, |g|);
      if p[|p| - 1] in g {
        forall x | x in p ensures x in g.Keys {
          var i :| 0 <= i < |p| && p[i] == x;
        }
        if NoDup(p) {
          NoDupCard(p);
          SubsetCard(ToSet(p), g.Keys);
        }
      }
      assert Unresolvable(g, v);
    }
    if Unresolvable(g, v) {
      forall k: nat ensures v !in Closure(g, k) {
        UnresolvableNeverReady(g, v, k);
      }
    }
  }
}
