/** The VNF manager's handlers, worker threads and daemon as methods that update its tables in place, each against
    the protocol's account of it. */
module VnfManager {
  import opened Lists
  import opened DependencyGraph
  import opened Protocol
  import opened ProtocolManagerSteps
  import opened ProtocolTheorems
  import opened ProtocolScaling

  // ---------- What a handler does once it has queued servers ----------

  /** Configures everything queued; `known` are the servers with a management address. */
  function DispatchAll(m: Manager, known: set<Inst>): Sends
    decreases |m.todo|
  {
    if m.todo == [] then Sends(m, [])
    else
      var r := Dispatch(m, m.todo[0].inst in known);
      Following(r.acks, DispatchAll(r.m, known))
  }

  function Following(acks: seq<Ack>, r: Sends): Sends {
    Sends(r.m, acks + r.acks)
  }

  function Dispatches(m: Manager, known: set<Inst>): seq<Action> {
    seq(|m.todo|, i requires 0 <= i < |m.todo| => DispatchNext(m.todo[i].inst in known))
  }

  lemma DispatchTakesHead(m: Manager, mgmtIp: bool)
    requires m.todo != []
    ensures Dispatch(m, mgmtIp).m.todo == m.todo[1..] && Dispatch(m, mgmtIp).m.daemon == m.daemon
  {
  }

  /** A handler that runs to its end is a run of the protocol's single steps. */
  lemma {:induction false} HandlerIsRun(s: State, known: set<Inst>)
    requires !s.mgr.daemon.Scanning?
    ensures IsRun(s, Dispatches(s.mgr, known))
    ensures Protocol.After(s, Dispatches(s.mgr, known)) == WithSends(s, DispatchAll(s.mgr, known))
    decreases |s.mgr.todo|
  {
    var m := s.mgr;
    hide AllIn, AnyIn, Dispatch, HasDependents, NoDup, ScaleVdus, Ungenerated;
    if m.todo == [] {
      assert Dispatches(m, known) == [];
      assert s.net + multiset([]) == s.net;
    } else {
      var mgmtIp := m.todo[0].inst in known;
      var r := Dispatch(m, mgmtIp);
      var s' := WithSends(s, r);
      DispatchTakesHead(m, mgmtIp);
      assert Enabled(s, DispatchNext(mgmtIp)) && Next(s, DispatchNext(mgmtIp)) == s';
      HandlerIsRun(s', known);
      assert Dispatches(m, known)[0] == DispatchNext(mgmtIp) && Dispatches(m, known)[1..] == Dispatches(r.m, known);
      var rest := DispatchAll(r.m, known);
      assert multiset(r.acks + rest.acks) == multiset(r.acks) + multiset(rest.acks);
      assert s.net + multiset(r.acks) + multiset(rest.acks) == s.net + multiset(r.acks + rest.acks);
    }
  }

  /** Whatever a driver call did, recording it is a step of the protocol as soon as the condition's lock is free. */
  lemma WorkerIsStep(s: State, id: ThreadId, out: Outcome)
    requires id in s.mgr.live && !s.mgr.daemon.Scanning?
    ensures IsRun(s, [Finish(id, out)])
    ensures Protocol.After(s, [Finish(id, out)]) == s.(mgr := WorkerRecords(s.mgr, id, out))
  {
    hide WorkerRecords;
    var actions := [Finish(id, out)];
    assert Enabled(s, actions[0]) && actions[1..] == [];
    var s' := Next(s, actions[0]);
    assert IsRun(s', []) && Protocol.After(s', []) == s';
  }

  lemma DispatchAllStep(m: Manager, t: Tok, rest: seq<Tok>, known: set<Inst>)
    requires m.todo == [t] + rest
    ensures var r := Dispatch(m.(todo := [t]), t.inst in known);
            DispatchAll(m, known) == Following(r.acks, DispatchAll(r.m.(todo := rest), known))
  {
    assert m.todo[1..] == rest && [t][1..] == [];
    assert Dispatch(m, t.inst in known).m == Dispatch(m.(todo := [t]), t.inst in known).m.(todo := rest);
  }

  lemma DispatchAllDone(m: Manager, known: set<Inst>)
    requires m.todo == []
    ensures DispatchAll(m, known) == Sends(m, [])
  {
  }

  lemma FollowingTwice(a: seq<Ack>, b: seq<Ack>, r: Sends)
    ensures Following(a, Following(b, r)) == Following(a + b, r)
  {
    assert a + (b + r.acks) == a + b + r.acks;
  }

  // ---------- Building the driver table ----------

  function WithoutName(conf: Conf, name: string): Conf {
    if conf == [] then []
    else (if conf[0].vdu.name == name then [] else [conf[0]]) + WithoutName(conf[1..], name)
  }

  predicate Repeats(conf: Conf, name: string) {
    exists i :: 1 <= i < |conf| && conf[i].vdu.name == name
  }

  lemma RepeatsSnoc(conf: Conf, c: VduConf, name: string)
    requires conf != []
    ensures Repeats(conf + [c], name) <==> Repeats(conf, name) || c.vdu.name == name
  {
    var all := conf + [c];
    if Repeats(conf, name) {
      var i :| 1 <= i < |conf| && conf[i].vdu.name == name;
      assert all[i].vdu.name == name;
    }
    assert all[|conf|] == c;
  }

  lemma ExtractedStep(drv: map<string, Drv>, conf: Conf)
    requires conf != []
    ensures Extracted(drv, conf) ==
            (if conf[0].vdu.name in drv || Repeats(conf, conf[0].vdu.name) then [] else [conf[0]]) + Extracted(drv, conf[1..])
  {
  }

  lemma WithoutHead(c: VduConf, rest: Conf, name: string)
    ensures WithoutName([c] + rest, name) == (if c.vdu.name == name then [] else [c]) + WithoutName(rest, name)
  {
    assert ([c] + rest)[1..] == rest;
  }

  lemma ExtractedOfOne(drv: map<string, Drv>, c: VduConf)
    ensures Extracted(drv, []) == [] && WithoutName([], c.vdu.name) == []
    ensures Extracted(drv, [c]) == if c.vdu.name in drv then [] else [c]
  {
    assert [c][1..] == [];
  }

  lemma {:induction false} ExtractedSnoc(drv: map<string, Drv>, conf: Conf, c: VduConf)
    ensures Extracted(drv, conf + [c]) ==
            if c.vdu.name in drv then Extracted(drv, conf) else WithoutName(Extracted(drv, conf), c.vdu.name) + [c]
  {
    hide *;
    if conf == [] {
      ExtractedOfOne(drv, c);
      assert [] + [c] == [c];
    } else {
      var all := conf + [c];
      assert all[0] == conf[0] && all[1..] == conf[1..] + [c];
      ExtractedSnoc(drv, conf[1..], c);
      ExtractedStep(drv, conf);
      ExtractedStep(drv, all);
      RepeatsSnoc(conf, c, conf[0].vdu.name);
      var rest := Extracted(drv, conf[1..]);
      WithoutHead(conf[0], rest, c.vdu.name);
      assert [] + rest == rest;
    }
  }

  lemma {:induction false} AddDriversSnoc(drv: map<string, Drv>, conf: Conf, c: VduConf)
    ensures AddDrivers(drv, conf + [c]) == AddDrivers(drv, conf)[c.vdu.name := Drv(c.vdu, c.insts, c.driver, [])]
    decreases |conf|
  {
    if conf == [] {
      assert [] + [c] == [c] && [c][1..] == [];
    } else {
      assert (conf + [c])[0] == conf[0] && (conf + [c])[1..] == conf[1..] + [c];
      AddDriversSnoc(drv[conf[0].vdu.name := Drv(conf[0].vdu, conf[0].insts, conf[0].driver, [])], conf[1..], c);
    }
  }

  lemma ToksHead(v: Vdu, insts: seq<Inst>, i: nat)
    requires i < |insts|
    ensures ToksOf(v, insts[i..]) == [Tok(v, insts[i])] + ToksOf(v, insts[i + 1..])
  {
  }

  lemma ConfToksAt(conf: Conf, k: nat)
    requires k < |conf|
    ensures ConfToks(conf[k..]) == ToksOf(conf[k].vdu, conf[k].insts) + ConfToks(conf[k + 1..])
  {
    assert conf[k..][0] == conf[k] && conf[k..][1..] == conf[k + 1..];
  }

  // ---------- One pass of the daemon over the table ----------

  function ScanSeq(m: Manager, ids: seq<ThreadId>): Sends
    requires m.daemon.Scanning?
    decreases |ids|
  {
    if ids == [] then Sends(m, [])
    else
      var r := ScanEntry(m, ids[0]);
      Following(r.acks, ScanSeq(r.m, ids[1..]))
  }

  /** The acknowledgements due for a list of table entries. */
  function Due(table: map<ThreadId, Entry>, ids: seq<ThreadId>): seq<Ack> {
    if ids == [] then []
    else
      (if ids[0] in table && table[ids[0]].result.Result?
       then [Ack(table[ids[0]].tok.vdu, table[ids[0]].tok.inst, StatusOf(table[ids[0]].result.text))] else [])
      + Due(table, ids[1..])
  }

  function Unrecorded(table: map<ThreadId, Entry>, ids: seq<ThreadId>): map<ThreadId, Entry> {
    map id | id in table && !(id in ids && table[id].result.Result?) :: table[id]
  }

  /** A pass over the whole table acknowledges each recorded result exactly once and deletes exactly those entries. */
  lemma {:induction false} PassAcksEachOnce(m: Manager, ids: seq<ThreadId>)
    requires m.daemon.Scanning? && NoDup(ids)
    ensures var r := ScanSeq(m, ids);
            && r.acks == Due(m.table, ids) && r.m.table == Unrecorded(m.table, ids)
            && r.m.daemon == Scanning(m.daemon.left - ToSet(ids))
    decreases |ids|
  {
    if ids != [] {
      var first, rest := ids[0], ids[1..];
      assert ids == [first] + rest && first !in rest;
      PassAcksEachOnce(ScanEntry(m, first).m, rest);
      PassStep(m, first, rest);
      assert ToSet(ids) == {first} + ToSet(rest);
      assert m.daemon.left - ToSet(ids) == m.daemon.left - {first} - ToSet(rest);
    } else {
      assert m.daemon.left - ToSet(ids) == m.daemon.left;
    }
  }

  lemma PassStep(m: Manager, first: ThreadId, rest: seq<ThreadId>)
    requires m.daemon.Scanning? && first !in rest
    ensures var r := ScanEntry(m, first);
            && r.acks + Due(r.m.table, rest) == Due(m.table, [first] + rest)
            && Unrecorded(r.m.table, rest) == Unrecorded(m.table, [first] + rest)
  {
    var r := ScanEntry(m, first);
    DueElsewhere(m.table, r.m.table, rest);
    assert ([first] + rest)[1..] == rest;
  }

  lemma PassDone(m: Manager, ids: seq<ThreadId>)
    requires m.daemon.Scanning? && NoDup(ids) && ToSet(ids) == m.table.Keys
    ensures var r := ScanSeq(m, ids);
            && r.acks == Due(m.table, ids)
            && (forall id :: id in r.m.table <==> id in m.table && m.table[id].result.NoResult?)
            && r.m.nsConfig == m.nsConfig && r.m.live == m.live && r.m.nextId == m.nextId
  {
    PassAcksEachOnce(m, ids);
    PassKeeps(m, ids);
    assert forall id :: id in ids <==> id in ToSet(ids);
  }

  lemma {:induction false} PassKeeps(m: Manager, ids: seq<ThreadId>)
    requires m.daemon.Scanning?
    ensures var r := ScanSeq(m, ids); r.m.nsConfig == m.nsConfig && r.m.live == m.live && r.m.nextId == m.nextId
    decreases |ids|
  {
    if ids != [] { PassKeeps(ScanEntry(m, ids[0]).m, ids[1..]); }
  }

  lemma {:induction false} DueElsewhere(table: map<ThreadId, Entry>, table': map<ThreadId, Entry>, ids: seq<ThreadId>)
    requires forall id :: id in ids ==> (id in table <==> id in table')
    requires forall id :: id in ids && id in table ==> table'[id] == table[id]
    ensures Due(table', ids) == Due(table, ids)
  {
    if ids != [] {
      assert ids[0] in ids && forall id :: id in ids[1..] ==> id in ids;
      DueElsewhere(table, table', ids[1..]);
    }
  }

  function Scans(ids: seq<ThreadId>): seq<Action> {
    seq(|ids|, i requires 0 <= i < |ids| => Scan(ids[i]))
  }

  lemma {:induction false} ScansAreRun(s: State, ids: seq<ThreadId>)
    requires s.mgr.daemon.Scanning? && NoDup(ids) && ToSet(ids) <= s.mgr.daemon.left
    ensures IsRun(s, Scans(ids))
    ensures Protocol.After(s, Scans(ids)) == WithSends(s, ScanSeq(s.mgr, ids))
    decreases |ids|
  {
    var m := s.mgr;
    hide AllIn, AnyIn, CanScale, Dispatch, ScaleVdus, ScanEntry, Ungenerated;
    if ids == [] {
      assert Scans(ids) == [];
      assert s.net + multiset([]) == s.net;
    } else {
      var first, rest := ids[0], ids[1..];
      var r := ScanEntry(m, first);
      var s' := WithSends(s, r);
      assert ids == [first] + rest && first in ToSet(ids) && first !in rest;
      assert Enabled(s, Scan(first)) && Next(s, Scan(first)) == s';
      ScanTakesOne(m, first);
      assert ToSet(rest) <= m.daemon.left - {first};
      ScansAreRun(s', rest);
      assert Scans(ids)[0] == Scan(first) && Scans(ids)[1..] == Scans(rest);
      var later := ScanSeq(r.m, rest);
      assert multiset(r.acks + later.acks) == multiset(r.acks) + multiset(later.acks);
      assert s.net + multiset(r.acks) + multiset(later.acks) == s.net + multiset(r.acks + later.acks);
    }
  }

  lemma ScanTakesOne(m: Manager, id: ThreadId)
    requires m.daemon.Scanning?
    ensures ScanEntry(m, id).m.daemon == Scanning(m.daemon.left - {id})
  {
  }

  /** The manager and the acknowledgements after a pass that visits the entries in the given order. */
  function PassOf(m: Manager, ids: seq<ThreadId>): Sends {
    var r := ScanSeq(m.(daemon := Scanning(m.table.Keys)), ids);
    Sends(r.m.(daemon := Blocked), r.acks)
  }

  lemma LockTaken(s: State)
    requires s.mgr.daemon.Outside?
    ensures Enabled(s, Acquire) && Next(s, Acquire) == s.(mgr := s.mgr.(daemon := Scanning(s.mgr.table.Keys)))
  {
  }

  lemma NowWaits(s: State)
    requires s.mgr.daemon.Scanning? && s.mgr.daemon.left == {}
    ensures Enabled(s, Wait) && Next(s, Wait) == s.(mgr := s.mgr.(daemon := Blocked))
  {
  }

  /** A pass of the daemon is a run of the protocol's single steps: it takes the lock, looks at each entry, and waits. */
  lemma PassIsRun(s: State, ids: seq<ThreadId>)
    requires s.mgr.daemon.Outside? && NoDup(ids) && ToSet(ids) == s.mgr.table.Keys
    ensures IsRun(s, [Acquire] + Scans(ids) + [Wait])
    ensures Protocol.After(s, [Acquire] + Scans(ids) + [Wait]) == WithSends(s, PassOf(s.mgr, ids))
  {
    hide Enabled, Next, NoDup, Scans, ScanSeq, ToSet;
    var m := s.mgr.(daemon := Scanning(s.mgr.table.Keys));
    var s1 := s.(mgr := m);
    LockTaken(s);
    ScansAreRun(s1, ids);
    PassAcksEachOnce(m, ids);
    NowWaits(WithSends(s1, ScanSeq(m, ids)));
    RunsExtend(s1, Scans(ids), Wait);
    var actions := [Acquire] + Scans(ids) + [Wait];
    assert actions[0] == Acquire && actions[1..] == Scans(ids) + [Wait];
  }

  // ---------- Scale messages ----------

  lemma ReplacedAt(ns: Conf, c: VduConf, k: nat)
    requires k < |ns| && ns[k].vdu == c.vdu && forall j :: 0 <= j < k ==> ns[j].vdu != c.vdu
    ensures Replaced(ns, c) == ns[k := c]
  {
    if k > 0 {
      ReplacedAt(ns[1..], c, k - 1);
      assert ns[k := c] == [ns[0]] + ns[1..][k - 1 := c];
    } else {
      assert ns[0 := c] == [c] + ns[1..];
    }
  }

  lemma ToksOfCons(v: Vdu, i: Inst, rest: seq<Inst>)
    ensures ToksOf(v, [i] + rest) == [Tok(v, i)] + ToksOf(v, rest)
    ensures ToksOf(v, []) == []
  {
  }

  lemma DispatchCompletes(m: Manager, v: Vdu, i: Inst, mgmtIp: bool)
    requires v.name in m.drv
    ensures var m' := Dispatch(m.(todo := [Tok(v, i)]), mgmtIp).m;
            v.name in m'.drv && m'.drv[v.name].vdu == m.drv[v.name].vdu && m'.drv[v.name].insts == m.drv[v.name].insts
            && (m'.drv[v.name].complete == m.drv[v.name].complete || m'.drv[v.name].complete == m.drv[v.name].complete + [i])
  {
  }

  /** Configures a VDU's servers one after the other, each unless it is COMPLETE by then. */
  function DispatchOpen(m: Manager, v: Vdu, insts: seq<Inst>, known: set<Inst>): Sends
    decreases |insts|
  {
    if insts == [] then Sends(m, [])
    else if v.name in m.drv && insts[0] in m.drv[v.name].complete then DispatchOpen(m, v, insts[1..], known)
    else
      var r := Dispatch(m.(todo := [Tok(v, insts[0])]), insts[0] in known);
      Following(r.acks, DispatchOpen(r.m, v, insts[1..], known))
  }

  lemma {:induction false} NotInSame(insts: seq<Inst>, done: seq<Inst>, done': seq<Inst>)
    requires forall i :: i in insts ==> (i in done <==> i in done')
    ensures NotIn(insts, done) == NotIn(insts, done')
  {
    if insts != [] {
      assert insts[0] in insts && forall i :: i in insts[1..] ==> i in insts;
      NotInSame(insts[1..], done, done');
    }
  }

  /** When no server is listed twice, those are the servers not COMPLETE at the beginning. */
  lemma {:induction false} OpenIsNotIn(m: Manager, v: Vdu, insts: seq<Inst>, known: set<Inst>)
    requires m.todo == [] && v.name in m.drv && NoDup(insts)
    ensures DispatchOpen(m, v, insts, known)
         == DispatchAll(m.(todo := ToksOf(v, NotIn(insts, m.drv[v.name].complete))), known)
    decreases |insts|
  {
    var done := m.drv[v.name].complete;
    hide Dispatch, DispatchAll, ToksOf;
    if insts == [] {
      ToksOfCons(v, "", []);
      DispatchAllDone(m, known);
    } else {
      var i, rest := insts[0], insts[1..];
      assert insts == [i] + rest && i !in rest;
      if i in done {
        assert [] + NotIn(rest, done) == NotIn(rest, done);
        OpenIsNotIn(m, v, rest, known);
      } else {
        var later := ToksOf(v, NotIn(rest, done));
        ToksOfCons(v, i, NotIn(rest, done));
        DispatchAllStep(m.(todo := [Tok(v, i)] + later), Tok(v, i), later, known);
        DispatchCompletes(m, v, i, i in known);
        var r := Dispatch(m.(todo := [Tok(v, i)]), i in known);
        NotInSame(rest, done, r.m.drv[v.name].complete);
        OpenIsNotIn(r.m, v, rest, known);
      }
    }
  }

  /** One entry of a scale message, handled to its end. */
  function ScaleOpen(m: Manager, c: VduConf, known: set<Inst>): Sends {
    if !InConfig(m.nsConfig, c.vdu) || ScaleRaises(m, c) then Sends(ScaleOne(m, c), [])
    else DispatchOpen(ScaleOne(m, c).(todo := m.todo), c.vdu, c.insts, known)
  }

  lemma {:induction false} OpenKeeps(m: Manager, v: Vdu, insts: seq<Inst>, known: set<Inst>)
    requires v.name in m.drv
    ensures var m' := DispatchOpen(m, v, insts, known).m;
            m'.nsConfig == m.nsConfig && v.name in m'.drv && m'.drv[v.name].insts == m.drv[v.name].insts
    decreases |insts|
  {
    hide Dispatch;
    if insts != [] {
      if insts[0] in m.drv[v.name].complete {
        OpenKeeps(m, v, insts[1..], known);
      } else {
        var m' := m.(todo := [Tok(v, insts[0])]);
        DispatchCompletes(m, v, insts[0], insts[0] in known);
        DispatchStores(m', insts[0] in known);
        OpenKeeps(Dispatch(m', insts[0] in known).m, v, insts[1..], known);
      }
    }
  }

  lemma DispatchStores(m: Manager, mgmtIp: bool)
    requires m.todo != []
    ensures Dispatch(m, mgmtIp).m.nsConfig == m.nsConfig
  {
  }

  /** An entry of a VDU no message has configured is ignored. */
  lemma UnknownIgnored(m: Manager, c: VduConf, known: set<Inst>)
    requires forall j :: 0 <= j < |m.nsConfig| ==> m.nsConfig[j].vdu != c.vdu
    ensures ScaleOpen(m, c, known) == Sends(m, [])
  {
  }

  /** What an entry of a scale message leaves stored: it replaces the first stored configuration of its VDU, and only
      that; and, unless the handler raises, its servers are the VDU's from then on. */
  lemma ScaleStores(m: Manager, c: VduConf, known: set<Inst>, k: nat)
    requires k < |m.nsConfig| && m.nsConfig[k].vdu == c.vdu && forall j :: 0 <= j < k ==> m.nsConfig[j].vdu != c.vdu
    ensures var m' := ScaleOpen(m, c, known).m;
            && m'.nsConfig == m.nsConfig[k := c]
            && (c.vdu.name in m.drv && m.drv[c.vdu.name].vdu.vnfd == c.vdu.vnfd ==>
                  c.vdu.name in m'.drv && m'.drv[c.vdu.name].insts == c.insts)
            && (!(c.vdu.name in m.drv && m.drv[c.vdu.name].vdu.vnfd == c.vdu.vnfd) ==> m' == m.(nsConfig := m.nsConfig[k := c]))
  {
    hide DispatchOpen, NotIn, Replaced, ToksOf;
    assert InConfig(m.nsConfig, c.vdu);
    ReplacedAt(m.nsConfig, c, k);
    if !ScaleRaises(m, c) {
      OpenKeeps(ScaleOne(m, c).(todo := m.todo), c.vdu, c.insts, known);
    }
  }

  /** The handler of a scale message, run to its end. */
  function ScaleAll(m: Manager, conf: Conf, known: set<Inst>): Sends
    decreases |conf|
  {
    if conf == [] then Sends(m, [])
    else if ScaleRaises(m, conf[0]) then ScaleOpen(m, conf[0], known)
    else
      var r := ScaleOpen(m, conf[0], known);
      Following(r.acks, ScaleAll(r.m, conf[1..], known))
  }

  lemma ScaleOpenIsOne(m: Manager, c: VduConf, known: set<Inst>)
    requires m.todo == [] && !ScaleRaises(m, c) && NoDup(c.insts)
    ensures ScaleOpen(m, c, known) == DispatchAll(ScaleOne(m, c), known)
  {
    hide DispatchAll, DispatchOpen, NoDup, NotIn, ToksOf;
    if InConfig(m.nsConfig, c.vdu) {
      var m' := ScaleOne(m, c).(todo := []);
      var open := ToksOf(c.vdu, NotIn(c.insts, m.drv[c.vdu.name].complete));
      OpenIsNotIn(m', c.vdu, c.insts, known);
      assert m'.drv[c.vdu.name].complete == m.drv[c.vdu.name].complete;
      assert [] + open == open;
      assert m'.(todo := open) == ScaleOne(m, c);
    } else {
      DispatchAllDone(m, known);
    }
  }

  /** A raising entry ends the handler: it is stored, and what follows it in the message is not looked at. */
  lemma {:induction false} RaiseEndsMessage(m: Manager, before: Conf, c: VduConf, after: Conf, known: set<Inst>)
    requires NoneRaises(m, before, known) && ScaleRaises(ScaleAll(m, before, known).m, c)
    ensures var r := ScaleAll(m, before, known);
            ScaleAll(m, before + [c] + after, known) == Sends(r.m.(nsConfig := Replaced(r.m.nsConfig, c)), r.acks)
    decreases |before|
  {
    hide DispatchOpen, Replaced, ScaleOpen;
    var all := before + [c] + after;
    if before == [] {
      assert all[0] == c;
      RaisedStored(m, c, known);
    } else {
      var r := ScaleOpen(m, before[0], known);
      assert all[0] == before[0] && all[1..] == before[1..] + [c] + after;
      RaiseEndsMessage(r.m, before[1..], c, after, known);
    }
  }

  lemma RaisedStored(m: Manager, c: VduConf, known: set<Inst>)
    requires ScaleRaises(m, c)
    ensures ScaleOpen(m, c, known) == Sends(m.(nsConfig := Replaced(m.nsConfig, c)), [])
  {
    hide Replaced;
  }

  predicate NoneRaises(m: Manager, conf: Conf, known: set<Inst>)
    decreases |conf|
  {
    conf == [] || (!ScaleRaises(m, conf[0]) && NoneRaises(ScaleOpen(m, conf[0], known).m, conf[1..], known))
  }

  // ---------- Queueing first and dispatching then comes to the same ----------

  /** Dispatching a server and taking in the entry of another VDU commute. */
  lemma DispatchThenScale(m: Manager, c: VduConf, mgmtIp: bool)
    requires m.todo != [] && m.todo[0].vdu.name != c.vdu.name
    ensures var r := Dispatch(m, mgmtIp);
            && ScaleRaises(r.m, c) == ScaleRaises(m, c)
            && ScaleOne(m, c).todo != [] && ScaleOne(m, c).todo[0] == m.todo[0]
            && Dispatch(ScaleOne(m, c), mgmtIp) == Sends(ScaleOne(r.m, c), r.acks)
  {
    hide InConfig, NotIn, Replaced, ToksOf;
    var t, r, after := m.todo[0], Dispatch(m, mgmtIp), ScaleOne(m, c);
    if InConfig(m.nsConfig, c.vdu) && !ScaleRaises(m, c) {
      var more := ToksOf(c.vdu, NotIn(c.insts, m.drv[c.vdu.name].complete));
      assert after.todo == m.todo + more && (m.todo + more)[1..] == m.todo[1..] + more;
      var d := m.drv[c.vdu.name].(insts := c.insts);
      if t.vdu.name in m.drv {
        var e := m.drv[t.vdu.name].(complete := m.drv[t.vdu.name].complete + [t.inst]);
        assert m.drv[c.vdu.name := d][t.vdu.name := e] == m.drv[t.vdu.name := e][c.vdu.name := d];
      }
    }
  }

  lemma {:induction false} DispatchThenScaleVdus(m: Manager, conf: Conf, mgmtIp: bool)
    requires m.todo != [] && forall c :: c in conf ==> c.vdu.name != m.todo[0].vdu.name
    ensures var r := Dispatch(m, mgmtIp);
            && ScaleVdus(m, conf).todo != [] && ScaleVdus(m, conf).todo[0] == m.todo[0]
            && Dispatch(ScaleVdus(m, conf), mgmtIp) == Sends(ScaleVdus(r.m, conf), r.acks)
    decreases |conf|
  {
    hide Dispatch, ScaleOne, ScaleRaises;
    if conf != [] {
      assert conf[0] in conf && forall c :: c in conf[1..] ==> c in conf;
      DispatchThenScale(m, conf[0], mgmtIp);
      if !ScaleRaises(m, conf[0]) { DispatchThenScaleVdus(ScaleOne(m, conf[0]), conf[1..], mgmtIp); }
    }
  }

  lemma {:induction false} DispatchAllThenScale(m: Manager, conf: Conf, known: set<Inst>)
    requires forall t, c :: t in m.todo && c in conf ==> c.vdu.name != t.vdu.name
    ensures var r := DispatchAll(m, known);
            DispatchAll(ScaleVdus(m, conf), known) == Following(r.acks, DispatchAll(ScaleVdus(r.m, conf), known))
    decreases |m.todo|
  {
    hide Dispatch, ScaleVdus;
    if m.todo == [] {
      var all := DispatchAll(ScaleVdus(m, conf), known);
      assert [] + all.acks == all.acks;
    } else {
      var t := m.todo[0];
      var r := Dispatch(m, t.inst in known);
      assert t in m.todo;
      DispatchThenScaleVdus(m, conf, t.inst in known);
      DispatchTakesHead(m, t.inst in known);
      assert forall u :: u in r.m.todo ==> u in m.todo;
      DispatchAllThenScale(r.m, conf, known);
      FollowingTwice(r.acks, DispatchAll(r.m, known).acks, DispatchAll(ScaleVdus(DispatchAll(r.m, known).m, conf), known));
    }
  }

  lemma {:induction false} AllDispatched(m: Manager, known: set<Inst>)
    ensures DispatchAll(m, known).m.todo == []
    decreases |m.todo|
  {
    hide Dispatch;
    if m.todo != [] {
      DispatchTakesHead(m, m.todo[0].inst in known);
      AllDispatched(Dispatch(m, m.todo[0].inst in known).m, known);
    }
  }

  /** For every message whose VDU names differ and whose server lists have no repetitions, the handler's work, entry by
      entry, is the protocol's scale step, which queues for all entries up to one that raises, and then the dispatches. */
  lemma {:induction false} ScaleAllIsScaleVdus(m: Manager, conf: Conf, known: set<Inst>)
    requires m.todo == [] && DistinctVduNames(conf) && forall c :: c in conf ==> NoDup(c.insts)
    ensures ScaleAll(m, conf, known) == DispatchAll(ScaleVdus(m, conf), known)
    decreases |conf|
  {
    hide DispatchAll, NoDup, ScaleOne, ScaleOpen, ScaleRaises;
    if conf == [] {
      DispatchAllDone(m, known);
    } else {
      var c, rest := conf[0], conf[1..];
      assert c in conf && forall e :: e in rest ==> e in conf;
      if ScaleRaises(m, c) {
        RaisedOne(m, c, known);
      } else {
        var m1 := ScaleOne(m, c);
        var r := DispatchAll(m1, known);
        ScaleOpenIsOne(m, c, known);
        AllDispatched(m1, known);
        RestDiffers(conf);
        ScaleAllIsScaleVdus(r.m, rest, known);
        OneQueued(m, c);
        DispatchAllThenScale(m1, rest, known);
      }
    }
  }

  lemma RaisedOne(m: Manager, c: VduConf, known: set<Inst>)
    requires m.todo == [] && ScaleRaises(m, c)
    ensures ScaleOpen(m, c, known) == DispatchAll(ScaleOne(m, c), known)
  {
    hide Replaced;
  }

  lemma RestDiffers(conf: Conf)
    requires conf != [] && DistinctVduNames(conf)
    ensures DistinctVduNames(conf[1..]) && forall c :: c in conf[1..] ==> c.vdu.name != conf[0].vdu.name
  {
    forall i, j | 0 <= i < j < |conf[1..]| ensures conf[1..][i].vdu.name != conf[1..][j].vdu.name {
      assert conf[i + 1].vdu.name != conf[j + 1].vdu.name;
    }
    forall c | c in conf[1..] ensures c.vdu.name != conf[0].vdu.name {
      var i :| 0 <= i < |conf[1..]| && conf[1..][i] == c;
      assert conf[i + 1].vdu.name != conf[0].vdu.name;
    }
  }

  lemma OneQueued(m: Manager, c: VduConf)
    requires m.todo == []
    ensures forall t :: t in ScaleOne(m, c).todo ==> t.vdu == c.vdu
  {
    hide NotIn, Replaced;
  }

  class VnfManager {
    const mgmtIps: set<Inst>
    var nsConfig: Conf
    var drvConf: map<string, Drv>
    var launchdThreadsInfo: map<ThreadId, Entry>
    var live: set<ThreadId>
    var nextId: ThreadId
    var daemon: Daemon
    var started: bool
    /** Acknowledgements sent, in order. */
    var outbox: seq<Ack>

    function Abs(): Manager reads this {
      Manager(started, nsConfig, drvConf, [], launchdThreadsInfo, live, nextId, daemon)
    }

    constructor (ips: set<Inst>)
      ensures Abs() == NewManager && outbox == [] && mgmtIps == ips
    {
      mgmtIps := ips;
      nsConfig, drvConf, launchdThreadsInfo, live, nextId, daemon, started := [], map[], map[], {}, 0, NotStarted, false;
      outbox := [];
    }

    method SendAck(vdu: Vdu, inst: Inst, status: Status)
      modifies `outbox
      ensures outbox == old(outbox) + [Ack(vdu, inst, status)]
    {
      outbox := outbox + [Ack(vdu, inst, status)];
    }

    /** Thread ids are assumed fresh. */
    method InvokeDriverThread(vdu: Vdu, inst: Inst)
      modifies `launchdThreadsInfo, `live, `nextId
      ensures launchdThreadsInfo == old(launchdThreadsInfo)[old(nextId) := Entry(Tok(vdu, inst), NoResult)]
      ensures live == old(live) + {old(nextId)} && nextId == old(nextId) + 1
    {
      launchdThreadsInfo := launchdThreadsInfo[nextId := Entry(Tok(vdu, inst), NoResult)];
      live := live + {nextId};
      nextId := nextId + 1;
    }

    /** The body of the loop over a VDU's servers. */
    method ConfigureInstance(vdu: Vdu, inst: Inst)
      requires vdu.name in drvConf
      modifies `drvConf, `launchdThreadsInfo, `live, `nextId, `outbox
      ensures var r := Dispatch(old(Abs()).(todo := [Tok(vdu, inst)]), inst in mgmtIps);
              Abs() == r.m && outbox == old(outbox) + r.acks
      ensures drvConf.Keys == old(drvConf).Keys
    {
      if !drvConf[vdu.name].driver {
        SendAck(vdu, inst, Complete);
        drvConf := drvConf[vdu.name := drvConf[vdu.name].(complete := drvConf[vdu.name].complete + [inst])];
      } else if inst in mgmtIps {
        InvokeDriverThread(vdu, inst);
      } else {
        SendAck(vdu, inst, Error);
      }
      assert [Tok(vdu, inst)][1..] == [];
      assert outbox == old(outbox) + [] || outbox == old(outbox) + [Ack(vdu, inst, Complete)] || outbox == old(outbox) + [Ack(vdu, inst, Error)];
    }

    /** Of the entries of a message, those whose name is new; a name repeated in the message counts once, the last time. */
    method ExtractDrivers(conf: Conf) returns (details: Conf)
      ensures details == Extracted(drvConf, conf)
    {
      hide WithoutName;
      details := [];
      assert Extracted(drvConf, []) == [];
      assert conf[..0] == [];
      for i := 0 to |conf|
        invariant details == Extracted(drvConf, conf[..i])
      {
        assert conf[..i + 1] == conf[..i] + [conf[i]];
        ExtractedSnoc(drvConf, conf[..i], conf[i]);
        if conf[i].vdu.name !in drvConf {
          details := WithoutName(details, conf[i].vdu.name) + [conf[i]];
        }
      }
      assert conf[..|conf|] == conf;
    }

    method StoreDrivers(details: Conf)
      modifies `drvConf
      ensures drvConf == AddDrivers(old(drvConf), details)
    {
      assert AddDrivers(drvConf, []) == drvConf;
      assert details[..0] == [];
      for i := 0 to |details|
        invariant drvConf == AddDrivers(old(drvConf), details[..i])
      {
        assert details[..i + 1] == details[..i] + [details[i]];
        AddDriversSnoc(old(drvConf), details[..i], details[i]);
        drvConf := drvConf[details[i].vdu.name := Drv(details[i].vdu, details[i].insts, details[i].driver, [])];
      }
      assert details[..|details|] == details;
    }

    /** Configures the servers of one VDU; `rest` is what the handler has to do after that. */
    method ConfigureServers(vdu: Vdu, insts: seq<Inst>, ghost rest: seq<Tok>)
      requires vdu.name in drvConf
      modifies `drvConf, `launchdThreadsInfo, `live, `nextId, `outbox
      ensures drvConf.Keys == old(drvConf).Keys
      ensures exists sent :: outbox == old(outbox) + sent
                && DispatchAll(old(Abs()).(todo := ToksOf(vdu, insts) + rest), mgmtIps)
                   == Following(sent, DispatchAll(Abs().(todo := rest), mgmtIps))
    {
      hide Abs, Dispatch, DispatchAll;
      ghost var sent := [];
      ghost var whole := DispatchAll(Abs().(todo := ToksOf(vdu, insts) + rest), mgmtIps);
      assert insts[0..] == insts && Following([], whole) == whole;
      for i := 0 to |insts|
        invariant drvConf.Keys == old(drvConf).Keys && outbox == old(outbox) + sent
        invariant whole == Following(sent, DispatchAll(Abs().(todo := ToksOf(vdu, insts[i..]) + rest), mgmtIps))
      {
        ToksHead(vdu, insts, i);
        ghost var t, later := Tok(vdu, insts[i]), ToksOf(vdu, insts[i + 1..]) + rest;
        assert ToksOf(vdu, insts[i..]) + rest == [t] + later;
        ghost var m := Abs().(todo := [t] + later);
        DispatchAllStep(m, t, later, mgmtIps);
        ghost var acks := Dispatch(m.(todo := [t]), t.inst in mgmtIps).acks;
        ConfigureInstance(vdu, insts[i]);
        FollowingTwice(sent, acks, DispatchAll(Abs().(todo := later), mgmtIps));
        sent := sent + acks;
      }
      assert ToksOf(vdu, insts[|insts|..]) + rest == rest;
      assert outbox == old(outbox) + sent;
    }

    /** The handler of a configuration message, run to its end. */
    method ConfigureVdus(conf: Conf)
      modifies this
      ensures var r := DispatchAll(Register(old(Abs()), conf), mgmtIps);
              Abs() == r.m && outbox == old(outbox) + r.acks
    {
      hide AddDrivers, ConfToks, DispatchAll, Extracted;
      nsConfig := nsConfig + conf;
      started := true;
      var details := ExtractDrivers(conf);
      StoreDrivers(details);
      assert Register(old(Abs()), conf) == Abs().(todo := ConfToks(details)) by {
        assert [] + ConfToks(details) == ConfToks(details);
      }
      AddedNames(old(drvConf), details);
      ConfigureAll(details);
    }

    /** The loop of the handler over the new VDUs. */
    method ConfigureAll(details: Conf)
      requires forall c :: c in details ==> c.vdu.name in drvConf
      modifies `drvConf, `launchdThreadsInfo, `live, `nextId, `outbox
      ensures var r := DispatchAll(old(Abs()).(todo := ConfToks(details)), mgmtIps);
              Abs() == r.m && outbox == old(outbox) + r.acks
    {
      hide DispatchAll, ToksOf;
      ghost var whole := DispatchAll(Abs().(todo := ConfToks(details)), mgmtIps);
      ghost var sent := [];
      assert details[0..] == details;
      assert Following([], whole) == whole;
      for k := 0 to |details|
        invariant forall c :: c in details ==> c.vdu.name in drvConf
        invariant outbox == old(outbox) + sent
        invariant whole == Following(sent, DispatchAll(Abs().(todo := ConfToks(details[k..])), mgmtIps))
      {
        ConfToksAt(details, k);
        ghost var before := outbox;
        ConfigureServers(details[k].vdu, details[k].insts, ConfToks(details[k + 1..]));
        ghost var more := outbox[|before|..];
        FollowingTwice(sent, more, DispatchAll(Abs().(todo := ConfToks(details[k + 1..])), mgmtIps));
        sent := sent + more;
      }
      assert ConfToks(details[|details|..]) == [];
      DispatchAllDone(Abs().(todo := []), mgmtIps);
    }

    /** Configures the servers of a VDU that are not COMPLETE yet. */
    method ConfigureVdu(vdu: Vdu)
      requires vdu.name in drvConf
      modifies `drvConf, `launchdThreadsInfo, `live, `nextId, `outbox
      ensures var r := DispatchOpen(old(Abs()), vdu, old(drvConf)[vdu.name].insts, mgmtIps);
              Abs() == r.m && outbox == old(outbox) + r.acks
    {
      hide Dispatch, DispatchAll;
      var insts := drvConf[vdu.name].insts;
      ghost var sent := [];
      ghost var whole := DispatchOpen(Abs(), vdu, insts, mgmtIps);
      assert insts[0..] == insts && Following([], whole) == whole;
      for i := 0 to |insts|
        invariant vdu.name in drvConf && outbox == old(outbox) + sent
        invariant whole == Following(sent, DispatchOpen(Abs(), vdu, insts[i..], mgmtIps))
      {
        assert insts[i..][0] == insts[i] && insts[i..][1..] == insts[i + 1..];
        if insts[i] !in drvConf[vdu.name].complete {
          ghost var r := Dispatch(Abs().(todo := [Tok(vdu, insts[i])]), insts[i] in mgmtIps);
          ConfigureInstance(vdu, insts[i]);
          FollowingTwice(sent, r.acks, DispatchOpen(r.m, vdu, insts[i + 1..], mgmtIps));
          sent := sent + r.acks;
        }
      }
      assert DispatchOpen(Abs(), vdu, insts[|insts|..], mgmtIps) == Sends(Abs(), []);
      assert sent + [] == sent;
    }

    /** The body of the loop over a scale message; `false` when it raises. */
    method ScaleEntry(c: VduConf) returns (ok: bool)
      modifies `nsConfig, `drvConf, `launchdThreadsInfo, `live, `nextId, `outbox
      ensures ok <==> !ScaleRaises(old(Abs()), c)
      ensures var r := ScaleOpen(old(Abs()), c, mgmtIps); Abs() == r.m && outbox == old(outbox) + r.acks
    {
      hide DispatchOpen, NotIn, Replaced, ToksOf;
      ok := true;
      for e := 0 to |nsConfig|
        invariant ok && Abs() == old(Abs()) && outbox == old(outbox)
        invariant forall j :: 0 <= j < e ==> nsConfig[j].vdu != c.vdu
      {
        if nsConfig[e].vdu == c.vdu {
          ReplacedAt(nsConfig, c, e);
          nsConfig := nsConfig[e := c];
          if c.vdu.name in drvConf && drvConf[c.vdu.name].vdu.vnfd == c.vdu.vnfd {
            drvConf := drvConf[c.vdu.name := drvConf[c.vdu.name].(insts := c.insts)];
            ConfigureVdu(c.vdu);
          } else {
            ok := false;
            assert outbox + [] == outbox;
          }
          return;
        }
      }
      assert outbox + [] == outbox;
    }

    /** The handler of a scale message. */
    method ScaleVdu(conf: Conf)
      modifies `nsConfig, `drvConf, `launchdThreadsInfo, `live, `nextId, `outbox
      ensures var r := ScaleAll(old(Abs()), conf, mgmtIps); Abs() == r.m && outbox == old(outbox) + r.acks
    {
      hide Abs, DispatchAll, ScaleOpen, ScaleRaises;
      ghost var sent := [];
      ghost var whole := ScaleAll(Abs(), conf, mgmtIps);
      assert conf[0..] == conf && Following([], whole) == whole;
      for i := 0 to |conf|
        invariant outbox == old(outbox) + sent
        invariant whole == Following(sent, ScaleAll(Abs(), conf[i..], mgmtIps))
      {
        assert conf[i..][0] == conf[i] && conf[i..][1..] == conf[i + 1..];
        ghost var r := ScaleOpen(Abs(), conf[i], mgmtIps);
        var ok := ScaleEntry(conf[i]);
        if !ok {
          assert outbox == old(outbox) + (sent + r.acks);
          return;
        }
        FollowingTwice(sent, r.acks, ScaleAll(r.m, conf[i + 1..], mgmtIps));
        sent := sent + r.acks;
      }
      assert sent + [] == sent;
    }

    /** What a worker thread does after its driver call. */
    method ImplThreadRun(id: ThreadId, out: Outcome)
      requires id in live && !daemon.Scanning?
      modifies `launchdThreadsInfo, `live, `daemon
      ensures Abs() == WorkerRecords(old(Abs()), id, out)
    {
      var returnVals := "ERROR";
      match out {
        case Raised =>
        case Returned(text) => returnVals := text;
      }
      if id in launchdThreadsInfo {
        launchdThreadsInfo := launchdThreadsInfo[id := launchdThreadsInfo[id].(result := Result(returnVals))];
      }
      if daemon.Blocked? {
        daemon := Notified;
      }
      live := live - {id};
    }

    /** One turn of the daemon: with the lock held it goes over the table, then waits. */
    method MonitorThreadPool() returns (visited: seq<ThreadId>)
      requires daemon.Outside?
      modifies `launchdThreadsInfo, `drvConf, `daemon, `outbox
      ensures NoDup(visited) && ToSet(visited) == old(launchdThreadsInfo).Keys
      ensures var r := PassOf(old(Abs()), visited); Abs() == r.m && outbox == old(outbox) + r.acks
      ensures forall id :: id in launchdThreadsInfo <==> id in old(launchdThreadsInfo) && old(launchdThreadsInfo)[id].result.NoResult?
      ensures outbox == old(outbox) + Due(old(launchdThreadsInfo), visited)
      ensures daemon.Blocked? && nsConfig == old(nsConfig) && live == old(live) && nextId == old(nextId)
    {
      hide Due, NoDup, ScanSeq, ToSet;
      daemon := Scanning(launchdThreadsInfo.Keys);
      ghost var m := Abs();
      visited := Pass();
      PassDone(m, visited);
      daemon := Blocked;
    }

    /** The loop over the table's keys, as they were when the pass began, in any order. */
    method Pass() returns (visited: seq<ThreadId>)
      requires daemon.Scanning?
      modifies `launchdThreadsInfo, `drvConf, `daemon, `outbox
      ensures NoDup(visited) && ToSet(visited) == old(launchdThreadsInfo).Keys
      ensures var r := ScanSeq(old(Abs()), visited); Abs() == r.m && outbox == old(outbox) + r.acks
    {
      hide *;
      var left := launchdThreadsInfo.Keys;
      var all := left;
      visited := [];
      ghost var m := Abs();
      AbsFields();
      NothingVisited(m);
      while left != {}
        invariant daemon.Scanning? && NoDup(visited) && left == all - ToSet(visited) && ToSet(visited) <= all
        invariant Abs() == ScanSeq(m, visited).m && outbox == old(outbox) + ScanSeq(m, visited).acks
        decreases |left|
      {
        var id :| id in left;
        ScanSeqSnoc(m, visited, id);
        OneLess(all, visited, left, id);
        ghost var sent := ScanSeq(m, visited).acks;
        ghost var r := ScanEntry(Abs(), id);
        Visit(id);
        assert old(outbox) + sent + r.acks == old(outbox) + (sent + r.acks);
        visited, left := visited + [id], left - {id};
      }
    }

    lemma AbsFields()
      ensures Abs().daemon == daemon && Abs().table == launchdThreadsInfo
    {
    }

    /** The daemon's treatment of one entry. */
    method Visit(id: ThreadId)
      requires daemon.Scanning?
      modifies `launchdThreadsInfo, `drvConf, `daemon, `outbox
      ensures var r := ScanEntry(old(Abs()), id); Abs() == r.m && outbox == old(outbox) + r.acks
      ensures daemon.Scanning?
    {
      hide Contains;
      if id in launchdThreadsInfo && launchdThreadsInfo[id].result.Result? {
        var t := launchdThreadsInfo[id].tok;
        var status := if Contains(launchdThreadsInfo[id].result.text, "ERROR") then Error else Complete;
        SendAck(t.vdu, t.inst, status);
        if status.Complete? && t.vdu.name in drvConf {
          drvConf := drvConf[t.vdu.name := drvConf[t.vdu.name].(complete := drvConf[t.vdu.name].complete + [t.inst])];
        }
        launchdThreadsInfo := launchdThreadsInfo - {id};
      } else {
        assert outbox == old(outbox) + [];
      }
      daemon := Scanning(daemon.left - {id});
    }
  }

  lemma NothingVisited(m: Manager)
    requires m.daemon.Scanning?
    ensures ScanSeq(m, []) == Sends(m, []) && NoDup<ThreadId>([]) && ToSet<ThreadId>([]) == {}
  {
  }

  lemma OneLess(all: set<ThreadId>, visited: seq<ThreadId>, left: set<ThreadId>, id: ThreadId)
    requires NoDup(visited) && left == all - ToSet(visited) && ToSet(visited) <= all && id in left
    ensures NoDup(visited + [id]) && left - {id} == all - ToSet(visited + [id]) && ToSet(visited + [id]) <= all
  {
    assert ToSet(visited + [id]) == ToSet(visited) + {id};
    assert forall x :: x in visited ==> x in ToSet(visited);
  }

  lemma {:induction false} ScanSeqSnoc(m: Manager, ids: seq<ThreadId>, id: ThreadId)
    requires m.daemon.Scanning?
    ensures var before := ScanSeq(m, ids);
            && before.m.daemon.Scanning?
            && var r := ScanEntry(before.m, id);
               ScanSeq(m, ids + [id]) == Sends(r.m, before.acks + r.acks)
    decreases |ids|
  {
    if ids == [] {
      assert [] + [id] == [id] && [id][1..] == [];
    } else {
      ScanSeqSnoc(ScanEntry(m, ids[0]).m, ids[1..], id);
      assert (ids + [id])[1..] == ids[1..] + [id];
    }
  }
}
