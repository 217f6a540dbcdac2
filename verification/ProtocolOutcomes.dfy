/** What a creation run, a driver call, a repeated message and a scale request can lead to. */
module ProtocolOutcomes {
  import opened Lists
  import opened DependencyGraph
  import opened Protocol
  import opened ProtocolInvariant
  import opened ProtocolPreservation
  import opened ProtocolManagerSteps
  import opened ProtocolSafety
  import opened ProtocolTheorems

  // ---------- Rounds and dependency height ----------

  lemma RoundFacts(t: Template, o: Orch, v: Vdu)
    requires OrchOk(t, o)
    ensures v in o.insts <==> v in o.launchedIn
    ensures v in o.insts ==> v in t.specs && v in Wave(Deps(t), o.launchedIn[v])
  {
  }

  lemma {:induction false} WavesDisjoint(g: Graph, v: Vdu, j: nat, k: nat)
    requires v in Wave(g, j) && v in Wave(g, k)
    ensures j == k
  {
    if j < k { ClosureMonotone(g, j + 1, k); } else if k < j { ClosureMonotone(g, k + 1, j); }
  }

  /** A launched VDU was launched in round `k` exactly when its longest dependency chain has `k` edges; a VDU that
      reaches a cycle or an unknown name is never launched. */
  lemma LaunchRoundIsHeight(s: State, v: Vdu, k: nat)
    requires Orderly(s) && v in s.orch.insts
    ensures v in s.orch.launchedIn
    ensures s.orch.launchedIn[v] == k <==> HeightIs(Deps(s.tpl), v, k)
    ensures !Unresolvable(Deps(s.tpl), v)
  {
    var g := Deps(s.tpl);
    hide Closure, Deps, HeightIs, Orderly, TableOk, Unresolvable;
    InvAlways(s);
    Parts(s);
    RoundFacts(s.tpl, s.orch, v);
    WaveIsHeight(g, v, k);
    var r := s.orch.launchedIn[v];
    if v in Wave(g, k) { WavesDisjoint(g, v, r, k); }
    if Unresolvable(g, v) {
      UnresolvableNeverReady(g, v, r + 1);
    }
  }

  /** Facts about the past that the invariant does not carry; `requests` is how many scale requests there were. */
  ghost predicate Created(t: Template, o: Orch, requests: nat) {
    && (o.round > 0 ==> Closure(Deps(t), o.round) != t.specs.Keys)
    && (requests == 0 ==> !o.pc.Scaling? && !o.pc.ScaleWaiting? && !o.status.InProgress? && o.dropped == {})
    && (requests == 0 && (o.status.Active? || o.pc.Idle?) ==> t.specs.Keys <= ToSet(o.configured))
    && (requests == 0 ==> forall v :: v in o.insts && v in t.specs ==> |o.insts[v]| == t.specs[v].count)
  }

  function Requests(s: State): nat {
    s.scales + s.refused
  }

  lemma NotAllConfigured(t: Template, o: Orch)
    requires OrchOk(t, o) && o.pc.Deciding? && |t.specs| != |o.configured|
    ensures Closure(Deps(t), o.round + 1) != t.specs.Keys
  {
    NoDupCard(o.configured);
  }

  lemma CreatedDecides(t: Template, o: Orch, requests: nat)
    requires OrchOk(t, o) && Created(t, o, requests) && o.pc.Deciding?
    ensures Created(t, Decision(t, o), requests)
  {
    if |t.specs| == |o.configured| { OrchFinish(t, o); } else { NotAllConfigured(t, o); }
  }

  lemma CreatedRecords(t: Template, o: Orch, requests: nat, a: Ack)
    requires Created(t, o, requests)
    ensures Created(t, RecordAck(o, a), requests)
  {
    assert ToSet(o.configured) <= ToSet(o.configured + [a.vdu]);
  }

  lemma CreatedStep(s: State, a: Action)
    requires Inv(s) && Enabled(s, a) && !OfOverlap(a) && Created(s.tpl, s.orch, Requests(s))
    ensures Created(s.tpl, Next(s, a).orch, Requests(Next(s, a)))
  {
    hide AllIn, AnyIn, Closure, Decision, Deps, Dispatch, HasDependents, Inv, LinkOk, NewConf, NoDup, OrchOk,
         RecordAck, Register, RemoveAll, RemoveFirst, Running, ScaleVdus, ScanEntry, StartsWorker, TableOk, ToSet,
         TokensOk, Ungenerated, ValidTemplate, WorkerRecords;
    if a.Decide? {
      Parts(s);
      assert s.orch.pc.Deciding?;
      CreatedDecides(s.tpl, s.orch, Requests(s));
    } else if a.Deliver? {
      CreatedRecords(s.tpl, s.orch, Requests(s), a.ack);
    } else if OfCreation(a) || OfScaling(a) {
    }
  }

  lemma {:induction false} CreatedRun(s: State, actions: seq<Action>)
    requires Inv(s) && IsRun(s, actions) && !After(s, actions).overlapped && Created(s.tpl, s.orch, Requests(s))
    ensures var e := After(s, actions); Created(e.tpl, e.orch, Requests(e))
    decreases |actions|
  {
    hide Inv, Enabled, Next, OfOverlap, Created, Requests;
    if actions != [] {
      FirstOrderly(s, actions);
      StepOk(s, actions[0]);
      SameTemplate(s, actions[0]);
      CreatedStep(s, actions[0]);
      CreatedRun(Next(s, actions[0]), actions[1..]);
    }
  }

  lemma CreatedAlways(s: State)
    requires Orderly(s)
    ensures Created(s.tpl, s.orch, Requests(s))
  {
    hide Inv, Closure, Ready;
    var actions :| ValidTemplate(s.tpl) && IsRun(Init(s.tpl), actions) && After(Init(s.tpl), actions) == s;
    InitOk(s.tpl);
    assert Created(s.tpl, InitOrch(s.tpl), 0);
    CreatedRun(Init(s.tpl), actions);
  }

  lemma AllLaunched(t: Template, o: Orch, r: nat)
    requires OrchOk(t, o) && o.pc.Deciding? && r == o.round
    ensures o.insts.Keys == Closure(Deps(t), r + 1) == ToSet(o.configured)
  {
  }

  lemma LastWaveInhabited(t: Template, o: Orch, requests: nat) returns (u: Vdu)
    requires OrchOk(t, o) && o.pc.Deciding? && Created(t, o, requests)
    requires |t.specs| == |o.configured| && t.specs != map[]
    ensures HeightIs(Deps(t), u, o.round)
  {
    var g, r := Deps(t), o.round;
    hide Deps, HeightIs, OrchOk, ToSet;
    OrchFinish(t, o);
    AllLaunched(t, o, r);
    ClosureGrows(g, r);
    assert Closure(g, r) != t.specs.Keys by {
      if r == 0 {
        assert forall w :: w in t.specs <==> w in t.specs.Keys;
      }
    }
    u :| u in t.specs.Keys && u !in Closure(g, r);
    assert u in Wave(g, r);
    WaveIsHeight(g, u, r);
  }

  /** Between rounds exactly the VDUs of height up to the round's number are launched, and all of them configured. */
  lemma RoundsAreHeight(s: State, v: Vdu)
    requires Orderly(s) && s.orch.pc.Deciding?
    ensures v in s.orch.insts <==> exists k: nat :: k <= s.orch.round && HeightIs(Deps(s.tpl), v, k)
    ensures v in s.orch.insts <==> v in s.orch.configured
  {
    var t, o, r := s.tpl, s.orch, s.orch.round;
    var g := Deps(t);
    hide Closure, Deps, HeightIs, Orderly, TableOk;
    InvAlways(s);
    Parts(s);
    AllLaunched(t, o, r);
    assert v in o.configured <==> v in ToSet(o.configured);
    HeightWithin(g, v, r + 1);
    assert v in o.insts <==> v in o.insts.Keys;
  }

  /** Creation ends in the round whose number is the height of the graph: no VDU is higher, and some VDU is as high. */
  lemma CreationEndsAtHeight(s: State)
    requires Orderly(s) && s.orch.pc.Deciding? && |s.tpl.specs| == |s.orch.configured| && s.tpl.specs != map[]
    ensures exists u :: HeightIs(Deps(s.tpl), u, s.orch.round)
    ensures forall v :: v in s.tpl.specs ==> exists k: nat :: k <= s.orch.round && HeightIs(Deps(s.tpl), v, k)
  {
    var t, o := s.tpl, s.orch;
    hide Created, Deps, HeightIs, Orderly, TableOk;
    InvAlways(s);
    Parts(s);
    CreatedAlways(s);
    var u := LastWaveInhabited(t, o, Requests(s));
    OrchFinish(t, o);
    forall v | v in t.specs ensures exists k: nat :: k <= o.round && HeightIs(Deps(t), v, k) {
      assert v in t.specs.Keys;
      assert v in o.configured;
      RoundsAreHeight(s, v);
    }
  }

  lemma {:induction false} HeightWithin(g: Graph, v: Vdu, n: nat)
    ensures v in Closure(g, n) <==> exists k: nat :: k < n && HeightIs(g, v, k)
  {
    if n > 0 {
      hide HeightIs, Closure;
      HeightWithin(g, v, n - 1);
      ClosureGrows(g, n - 1);
      WaveIsHeight(g, v, n - 1);
    }
  }

  // ---------- ACTIVE ----------

  lemma AllInTemplate(t: Template, o: Orch)
    requires OrchOk(t, o)
    ensures ToSet(o.configured) <= t.specs.Keys
  {
  }

  /** Before any scale request the service is ACTIVE only if every VDU is configured, with every server
      acknowledged COMPLETE, and none has errored. */
  lemma ActiveMeansConfigured(s: State)
    requires Orderly(s) && Requests(s) == 0 && s.orch.status.Active?
    ensures ToSet(s.orch.configured) == s.tpl.specs.Keys && s.orch.errored == []
    ensures forall v :: v in s.tpl.specs ==> v in s.orch.configured && s.tpl.specs[v].count > 0
    ensures forall v, i :: v in s.orch.insts && i in s.orch.insts[v] ==> i in AcksOf(s.orch.acks, v)
  {
    var t, o := s.tpl, s.orch;
    hide Closure, Deps, Orderly, TableOk;
    InvAlways(s);
    CreatedAlways(s);
    Parts(s);
    AllInTemplate(t, o);
    assert t.specs.Keys <= ToSet(o.configured);
    forall v ensures v in o.configured <==> v in t.specs {
      assert v in o.configured <==> v in ToSet(o.configured);
    }
    if o.errored != [] {
      var v := o.errored[0];
      ListsMeanAcks(s, v);
      LaunchedInTemplate(t, o, v);
    }
    forall v | v in t.specs ensures v in o.configured && t.specs[v].count > 0 {
      ListsMeanAcks(s, v);
    }
    forall v, i | v in o.insts && i in o.insts[v] ensures i in AcksOf(o.acks, v) {
      ListsMeanAcks(s, v);
      LaunchedInTemplate(t, o, v);
    }
  }

  lemma SettledLaunched(t: Template, o: Orch)
    requires OrchOk(t, o)
    ensures o.pc.Idle? || o.pc.Scaling? || o.pc.ScaleWaiting? ==> o.insts.Keys == t.specs.Keys
  {
  }

  /** With an unresolvable VDU in the template no run of any length ends the creation: that VDU is never launched, so
      the loop's condition is never met. */
  lemma UnresolvableNeverDone(s: State, v: Vdu)
    requires Orderly(s) && v in s.tpl.specs && Unresolvable(Deps(s.tpl), v)
    ensures v !in s.orch.insts && !s.orch.pc.Idle? && |s.orch.configured| < |s.tpl.specs|
  {
    var t, o := s.tpl, s.orch;
    hide Deps, HeightIs, NoDup, Orderly, TableOk, TopoOrder, Unresolvable;
    InvAlways(s);
    Parts(s);
    if v in o.insts { LaunchRoundIsHeight(s, v, 0); }
    SettledLaunched(t, o);
    assert v in t.specs.Keys && v !in o.insts.Keys;
    OrderFacts(t, o);
    AllInTemplate(t, o);
    NoDupCard(o.configured);
    ListsMeanAcks(s, v);
    assert v !in ToSet(o.configured);
    SubsetCard(ToSet(o.configured), t.specs.Keys);
  }

  /** Asking to scale a service that is not ACTIVE makes it ACTIVE, whatever its state: here, before any launch. So
      `ActiveMeansConfigured` does need that no request was made. */
  lemma RefusedScaleActivates(t: Template)
    requires ValidTemplate(t)
    ensures var s := Init(t); Enabled(s, RefuseScale) && Next(s, RefuseScale).orch.status.Active?
                              && Next(s, RefuseScale).orch.configured == []
  {
    hide Ready, Deps;
  }

  // ---------- Results and acknowledgements ----------

  /** While the daemon waits with no notification pending, no recorded result is left in the table; every running
      worker finds its entry; and a recorded result has not been acknowledged yet. */
  lemma NoLostResult(s: State, id: ThreadId)
    requires Orderly(s)
    ensures s.mgr.daemon.Blocked? && id in s.mgr.table ==> s.mgr.table[id].result.NoResult? && id in s.mgr.live
    ensures id in s.mgr.live ==> id in s.mgr.table && s.mgr.table[id].result.NoResult?
    ensures id in s.mgr.table ==>
              var t := s.mgr.table[id].tok;
              && Ack(t.vdu, t.inst, Complete) !in s.net && Ack(t.vdu, t.inst, Error) !in s.net
              && t.inst !in AcksOf(s.orch.acks, t.vdu) && t !in s.orch.failed
  {
    var o, m := s.orch, s.mgr;
    hide Orderly;
    InvAlways(s);
    Parts(s);
    assert m.daemon.Blocked? && id in m.table ==> m.table[id].result.NoResult? && id in m.live;
    assert id in m.live ==> id in m.table && m.table[id].result.NoResult?;
    if id in m.table {
      var t := m.table[id].tok;
      WeightOf(m, s.net, o.acks, o.failed, t.vdu, t.inst);
      assert t == Tok(t.vdu, t.inst);
      assert InTable(m.table, t.vdu, t.inst);
      assert B(InTable(m.table, t.vdu, t.inst)) == 1 && B(Known(m.drv, t.vdu, t.inst)) <= 1;
    }
  }

  /** The daemon acknowledges a recorded result once and forgets it; an entry without a result stays. */
  lemma ResultSentOnce(s: State, id: ThreadId)
    requires Orderly(s) && Enabled(s, Scan(id))
    ensures id in s.mgr.table
    ensures var e, s' := s.mgr.table[id], Next(s, Scan(id));
            if e.result.Result?
            then s'.net == s.net + multiset{Ack(e.tok.vdu, e.tok.inst, StatusOf(e.result.text))}
                 && s'.mgr.table == s.mgr.table - {id}
            else s'.net == s.net && s'.mgr.table == s.mgr.table
  {
    hide AllIn, AnyIn, BeginScale, Decision, Dispatch, HasDependents, Inv, LaunchVdu, LinkOk, MarkComplete, NewConf,
         NoDup, OrchOk, Orderly, RecordAck, Register, Running, ScaleVdus, StartsWorker, StatusOf, TokensOk,
         Ungenerated, ValidTemplate, WorkerRecords;
    InvAlways(s);
    Parts(s);
    assert id in s.mgr.table;
  }

  lemma {:induction false} ScaleKeepsTable(m: Manager, conf: Conf)
    ensures ScaleVdus(m, conf).table == m.table && ScaleVdus(m, conf).nextId == m.nextId && ScaleVdus(m, conf).live == m.live
    decreases |conf|
  {
    if conf != [] { ScaleKeepsTable(ScaleOne(m, conf[0]), conf[1..]); }
  }

  /** What the records of servers live in: the table, the channel and the orchestrator's counts. */
  predicate SameRecords(s: State, s': State) {
    && s'.tpl == s.tpl && s'.mgr.table == s.mgr.table && s'.mgr.nextId == s.mgr.nextId && s'.mgr.live == s.mgr.live && s'.net == s.net
    && s'.orch.acks == s.orch.acks && s'.orch.failed == s.orch.failed
  }

  lemma RecordsByOrch(s: State, a: Action)
    requires Enabled(s, a) && (OfCreation(a) || OfScaling(a) || OfOverlap(a)) && !a.HandleScale?
    ensures SameRecords(s, Next(s, a))
  {
    hide AllIn, AnyIn, CanScale, Deps, NoDup, Ready, RemoveAll, RemoveFirst, Ungenerated;
  }

  lemma RecordsByManager(s: State, a: Action)
    requires Enabled(s, a) && !OfCreation(a) && !OfOverlap(a) && (OfScaling(a) ==> a.HandleScale?)
    requires !a.DispatchNext? && !a.Scan? && !a.Finish? && !a.Deliver?
    ensures SameRecords(s, Next(s, a))
  {
    hide AddDrivers, AllIn, AnyIn, CanScale, ConfToks, Dispatch, Extracted, NoDup, ScaleVdus, Ungenerated;
    if a.HandleScale? { ScaleKeepsTable(s.mgr, s.scaleMsgs[0]); }
  }

  lemma RecordsElsewhere(s: State, a: Action)
    requires Enabled(s, a) && !a.DispatchNext? && !a.Scan? && !a.Finish? && !a.Deliver?
    ensures SameRecords(s, Next(s, a))
  {
    hide AddDrivers, AllIn, AnyIn, BeginScale, CanScale, ConfToks, Decision, Dispatch, DropScaled, Extracted, LaunchVdu,
         NoDup, SameRecords, ScaleVdus, Ungenerated;
    if (OfCreation(a) || OfScaling(a) || OfOverlap(a)) && !a.HandleScale? {
      RecordsByOrch(s, a);
    } else {
      RecordsByManager(s, a);
    }
  }

  /** While the daemon holds the condition's lock nobody else touches the thread table: no worker starts and none records
      its result, and only the daemon's own look at an entry with a result takes it away. */
  lemma LockHeld(s: State, a: Action)
    requires s.mgr.daemon.Scanning? && Enabled(s, a)
    ensures var m, m' := s.mgr, Next(s, a).mgr;
            && m'.live == m.live
            && (forall id :: id in m'.table ==> id in m.table && m'.table[id] == m.table[id])
            && (forall id :: id in m.table && id !in m'.table ==> a == Scan(id) && m.table[id].result.Result?)
  {
    hide Enabled, Next;
    if a.DispatchNext? || a.Scan? || a.Finish? || a.Deliver? { LockHeldByDaemon(s, a); } else { RecordsElsewhere(s, a); }
  }

  lemma LockHeldByDaemon(s: State, a: Action)
    requires s.mgr.daemon.Scanning? && Enabled(s, a) && (a.DispatchNext? || a.Scan? || a.Finish? || a.Deliver?)
    ensures var m, m' := s.mgr, Next(s, a).mgr;
            && m'.live == m.live
            && m'.table == if a.Scan? && a.entry in m.table && m.table[a.entry].result.Result? then m.table - {a.entry} else m.table
  {
    hide AllIn, AnyIn, CanScale, Dispatch, Extracted, NoDup, RecordAck, Register, Running, ScanEntry, StartsWorker, WorkerRecords;
    if a.DispatchNext? { NoWorkerStarts(s.mgr, a.mgmtIp); } else if a.Scan? { OneLook(s.mgr, a.entry); }
  }

  lemma NoWorkerStarts(m: Manager, mgmtIp: bool)
    requires m.todo != [] && !StartsWorker(m, mgmtIp)
    ensures Dispatch(m, mgmtIp).m.table == m.table && Dispatch(m, mgmtIp).m.live == m.live
  {
  }

  lemma OneLook(m: Manager, id: ThreadId)
    requires m.daemon.Scanning?
    ensures var m' := ScanEntry(m, id).m;
            m'.live == m.live && m'.table == if id in m.table && m.table[id].result.Result? then m.table - {id} else m.table
  {
  }

  ghost predicate IdsBelow(m: Manager) {
    forall id :: id in m.table ==> id < m.nextId
  }

  ghost predicate StillThere(table: map<ThreadId, Entry>, id: ThreadId, t: Tok) {
    id in table && table[id].tok == t
  }

  /** An acknowledgement of the server is on its way or has been counted. */
  ghost predicate Acknowledging(net: multiset<Ack>, acks: map<Vdu, seq<Inst>>, failed: seq<Tok>, t: Tok) {
    Ack(t.vdu, t.inst, Complete) in net || Ack(t.vdu, t.inst, Error) in net || t.inst in AcksOf(acks, t.vdu) || t in failed
  }

  ghost predicate Tracked(s: State, id: ThreadId, t: Tok) {
    StillThere(s.mgr.table, id, t) || Acknowledging(s.net, s.orch.acks, s.orch.failed, t)
  }

  lemma TrackedDispatch(m: Manager, mgmtIp: bool, net: multiset<Ack>, acks: map<Vdu, seq<Inst>>, failed: seq<Tok>,
                        id: ThreadId, t: Tok)
    requires m.todo != [] && IdsBelow(m)
    ensures var r := Dispatch(m, mgmtIp);
            && IdsBelow(r.m)
            && (StillThere(m.table, id, t) ==> StillThere(r.m.table, id, t))
            && (Acknowledging(net, acks, failed, t) ==> Acknowledging(net + multiset(r.acks), acks, failed, t))
  {
  }

  lemma TrackedScan(m: Manager, net: multiset<Ack>, acks: map<Vdu, seq<Inst>>, failed: seq<Tok>, entry: ThreadId,
                    id: ThreadId, t: Tok)
    requires m.daemon.Scanning? && IdsBelow(m)
    ensures var r := ScanEntry(m, entry);
            && IdsBelow(r.m)
            && (StillThere(m.table, id, t) || Acknowledging(net, acks, failed, t) ==>
                  StillThere(r.m.table, id, t) || Acknowledging(net + multiset(r.acks), acks, failed, t))
  {
    hide StatusOf, MarkComplete;
    var r := ScanEntry(m, entry);
    if entry == id && entry in m.table && m.table[id].result.Result? && m.table[id].tok == t {
      assert r.acks[0] in multiset(r.acks);
    }
  }

  lemma TrackedRecord(m: Manager, entry: ThreadId, out: Outcome, id: ThreadId, t: Tok)
    requires IdsBelow(m)
    ensures var m' := WorkerRecords(m, entry, out);
            IdsBelow(m') && (StillThere(m.table, id, t) ==> StillThere(m'.table, id, t))
  {
    hide ConfigureService;
  }

  lemma TrackedArrives(net: multiset<Ack>, o: Orch, a: Ack, t: Tok)
    requires a in net && Acknowledging(net, o.acks, o.failed, t)
    ensures Acknowledging(net - multiset{a}, RecordAck(o, a).acks, RecordAck(o, a).failed, t)
  {
    assert forall b :: b != a ==> (net - multiset{a})[b] == net[b];
    assert t == Tok(t.vdu, t.inst);
  }

  lemma TrackedStep(s: State, a: Action, id: ThreadId, t: Tok)
    requires Enabled(s, a) && IdsBelow(s.mgr)
    ensures IdsBelow(Next(s, a).mgr)
    ensures Tracked(s, id, t) ==> Tracked(Next(s, a), id, t)
  {
    var o, m := s.orch, s.mgr;
    hide Acknowledging, AllIn, AnyIn, BeginScale, Decision, Dispatch, DropScaled, HasDependents, IdsBelow, LaunchVdu, NewConf,
         NoDup, RecordAck, Register, Running, ScaleVdus, ScanEntry, StartsWorker, StillThere, Ungenerated, WorkerRecords;
    if a.DispatchNext? {
      assert m.todo != [];
      TrackedDispatch(m, a.mgmtIp, s.net, o.acks, o.failed, id, t);
    } else if a.Scan? {
      assert m.daemon.Scanning?;
      TrackedScan(m, s.net, o.acks, o.failed, a.entry, id, t);
    } else if a.Finish? {
      TrackedRecord(m, a.id, a.out, id, t);
    } else if a.Deliver? {
      assert a.ack in s.net;
      if Acknowledging(s.net, o.acks, o.failed, t) { TrackedArrives(s.net, o, a.ack, t); }
    } else {
      RecordsElsewhere(s, a);
      SameIds(m, Next(s, a).mgr);
    }
  }

  lemma SameIds(m: Manager, m': Manager)
    requires m'.table == m.table && m'.nextId == m.nextId && IdsBelow(m)
    ensures IdsBelow(m')
  {
  }

  lemma {:induction false} TrackedRun(s: State, actions: seq<Action>, id: ThreadId, t: Tok)
    requires IsRun(s, actions) && IdsBelow(s.mgr)
    ensures IdsBelow(After(s, actions).mgr)
    ensures Tracked(s, id, t) ==> Tracked(After(s, actions), id, t)
    decreases |actions|
  {
    hide Enabled, Next, IdsBelow, Tracked;
    if actions != [] {
      TrackedStep(s, actions[0], id, t);
      TrackedRun(Next(s, actions[0]), actions[1..], id, t);
    }
  }

  /** No entry of the table is ever lost: whatever happens after it was made, overlapping scale requests included, it is
      still there, for the same server, or an acknowledgement of that server is in flight or counted. */
  lemma EntryNeverLost(s: State, actions: seq<Action>, id: ThreadId)
    requires Reachable(s) && IsRun(s, actions) && id in s.mgr.table
    ensures Tracked(After(s, actions), id, s.mgr.table[id].tok)
  {
    hide IsRun, After, IdsBelow;
    var before :| ValidTemplate(s.tpl) && IsRun(Init(s.tpl), before) && After(Init(s.tpl), before) == s;
    assert IdsBelow(NewManager) by { NoIds(); }
    TrackedRun(Init(s.tpl), before, id, s.mgr.table[id].tok);
    TrackedRun(s, actions, id, s.mgr.table[id].tok);
  }

  lemma NoIds()
    ensures IdsBelow(NewManager)
  {
  }

  /** ... and while scale requests do not overlap it is not both, so no result is acknowledged twice. */
  lemma EntryOrAck(s: State, id: ThreadId)
    requires Orderly(s) && id in s.mgr.table
    ensures !Acknowledging(s.net, s.orch.acks, s.orch.failed, s.mgr.table[id].tok)
  {
    hide Orderly;
    NoLostResult(s, id);
  }

  // ---------- Only a driver call that went well is acknowledged COMPLETE ----------

  /** The word ERROR occurs in the text, anywhere. */
  ghost predicate MentionsError(text: string) {
    exists before, after :: Around(before, "ERROR", after) == text
  }

  function Around(before: string, p: string, after: string): string {
    before + p + after
  }

  /** `p in s` of two Python strings. */
  lemma {:induction false} ContainsIs(s: string, p: string)
    ensures Contains(s, p) <==> exists before, after :: Around(before, p, after) == s
  {
    if Contains(s, p) {
      var before, after := Split(s, p);
    }
    if before, after :| Around(before, p, after) == s {
      ContainsAround(before, p, after);
    }
  }

  lemma {:induction false} Split(s: string, p: string) returns (before: string, after: string)
    requires Contains(s, p)
    ensures Around(before, p, after) == s
  {
    if s[..|p|] == p {
      before, after := "", s[|p|..];
    } else {
      before, after := Split(s[1..], p);
      assert Around([s[0]] + before, p, after) == [s[0]] + Around(before, p, after);
      before := [s[0]] + before;
    }
  }

  lemma {:induction false} ContainsAround(before: string, p: string, after: string)
    ensures Contains(Around(before, p, after), p)
  {
    var s := Around(before, p, after);
    if before == "" {
      assert s[..|p|] == p;
    } else {
      ContainsAround(before[1..], p, after);
      assert s[1..] == Around(before[1..], p, after);
    }
  }

  /** A driver that raises, or whose answer mentions ERROR, is recorded as an error; any other answer is not. */
  lemma StatusOfOutcome(out: Outcome)
    ensures StatusOf(ConfigureService(out)).Complete? <==> out.Returned? && !MentionsError(out.text)
  {
    ContainsIs(ConfigureService(out), "ERROR");
    if out.Raised? {
      assert Around("", "ERROR", "") == "ERROR";
    }
  }

  ghost predicate WentWell(out: Outcome) {
    out.Returned? && !MentionsError(out.text)
  }

  /** The servers whose driver call went well in the course of a run. */
  ghost function Succeeded(s: State, actions: seq<Action>): set<Tok>
    requires IsRun(s, actions)
    decreases |actions|
  {
    if actions == [] then {}
    else SucceededIn(s, actions[0]) + Succeeded(Next(s, actions[0]), actions[1..])
  }

  ghost function SucceededIn(s: State, a: Action): set<Tok> {
    if a.Finish? && WentWell(a.out) && a.id in s.mgr.table then {s.mgr.table[a.id].tok} else {}
  }

  predicate HasDriver(t: Template, v: Vdu) {
    v in t.specs && t.specs[v].driver
  }

  /** Good results in the table, and COMPLETE acknowledgements of servers with a driver, belong to `good`. */
  ghost predicate Earned(t: Template, table: map<ThreadId, Entry>, net: multiset<Ack>, acks: map<Vdu, seq<Inst>>, good: set<Tok>) {
    && (forall id :: id in table && table[id].result.Result? && StatusOf(table[id].result.text).Complete? ==> table[id].tok in good)
    && (forall v, i :: HasDriver(t, v) && Ack(v, i, Complete) in net ==> Tok(v, i) in good)
    && (forall v, i :: HasDriver(t, v) && i in AcksOf(acks, v) ==> Tok(v, i) in good)
  }

  predicate DriverSaid(t: Template, c: VduConf) {
    c.vdu in t.specs && c.driver == t.specs[c.vdu].driver
  }

  predicate DriverKept(t: Template, n: string, d: Drv) {
    d.vdu.name == n && d.vdu in t.specs && d.driver == t.specs[d.vdu].driver
  }

  predicate AllSaid(t: Template, msgs: seq<Conf>) {
    forall conf, c :: conf in msgs && c in conf ==> DriverSaid(t, c)
  }

  /** What the manager keeps about drivers is what the template says. */
  ghost predicate KeptOk(t: Template, drv: map<string, Drv>, todo: seq<Tok>) {
    && (forall n :: n in drv ==> DriverKept(t, n, drv[n]))
    && (forall tok :: tok in todo ==> tok.vdu in t.specs)
  }

  predicate LaunchedOk(t: Template, o: Orch) {
    (forall v :: v in o.deployed ==> v in t.specs) && (forall v :: v in o.insts ==> v in t.specs)
  }

  /** This part of the invariant survives overlapping scale requests, too. */
  ghost predicate DriversOk(s: State) {
    LaunchedOk(s.tpl, s.orch) && AllSaid(s.tpl, s.sent) && AllSaid(s.tpl, s.scaleMsgs) && KeptOk(s.tpl, s.mgr.drv, s.mgr.todo)
  }

  lemma {:induction false} ConfDrivers(t: Template, insts: map<Vdu, seq<Inst>>, vs: seq<Vdu>)
    requires forall v :: v in vs ==> v in t.specs
    ensures forall c :: c in ConfOf(t, insts, vs) ==> DriverSaid(t, c)
  {
    if vs != [] {
      assert vs == [vs[0]] + vs[1..];
      ConfDrivers(t, insts, vs[1..]);
    }
  }

  /** A message sent says of drivers what the template does. */
  lemma MessageDrivers(t: Template, o: Orch, msgs: seq<Conf>)
    requires LaunchedOk(t, o) && AllSaid(t, msgs)
    ensures AllSaid(t, msgs + [NewConf(t, o)])
  {
    hide ConfOf, DriverSaid, Ungenerated;
    UngeneratedMembers(o.deployed, o.confGenerated);
    ConfDrivers(t, o.insts, Ungenerated(o.deployed, o.confGenerated));
  }

  lemma {:induction false} RemoveFirstWithin(list: seq<Vdu>, v: Vdu)
    ensures forall u :: u in RemoveFirst(list, v) ==> u in list
  {
    if list != [] {
      assert list == [list[0]] + list[1..];
      RemoveFirstWithin(list[1..], v);
    }
  }

  lemma OrchDrivers(s: State, a: Action)
    requires DriversOk(s) && Enabled(s, a) && (OfCreation(a) || OfScaling(a) || OfOverlap(a)) && !a.HandleScale?
    ensures DriversOk(Next(s, a))
  {
    hide AllIn, AllSaid, AnyIn, HasDependents, KeptOk, NewConf, NoDup, Ready, RemoveAll, RemoveFirst, Ungenerated;
    var o := s.orch;
    match a
    case SendConf => MessageDrivers(s.tpl, o, s.sent);
    case SendScale => MessageDrivers(s.tpl, o, s.scaleMsgs);
    case OverlapSend(k) => MessageDrivers(s.tpl, o, s.scaleMsgs);
    case Scale(v, name) => RemoveFirstWithin(o.deployed, v);
    case ScaleBootFails(v) => RemoveFirstWithin(o.deployed, v);
    case OverlapScale(v, name) => RemoveFirstWithin(o.deployed, v);
    case OverlapBootFails(v) => RemoveFirstWithin(o.deployed, v);
    case _ =>
  }

  lemma {:induction false} AddedDrivers(t: Template, drv: map<string, Drv>, news: Conf)
    requires forall n :: n in drv ==> DriverKept(t, n, drv[n])
    requires forall c :: c in news ==> DriverSaid(t, c)
    ensures forall n :: n in AddDrivers(drv, news) ==> DriverKept(t, n, AddDrivers(drv, news)[n])
    decreases |news|
  {
    if news != [] {
      assert news[0] in news;
      AddedDrivers(t, drv[news[0].vdu.name := Drv(news[0].vdu, news[0].insts, news[0].driver, [])], news[1..]);
    }
  }

  lemma {:induction false} QueuedSaid(t: Template, conf: Conf)
    requires forall c :: c in conf ==> DriverSaid(t, c)
    ensures forall tok :: tok in ConfToks(conf) ==> tok.vdu in t.specs
  {
    if conf != [] {
      assert conf[0] in conf;
      QueuedSaid(t, conf[1..]);
    }
  }

  lemma {:induction false} ExtractedWithin(drv: map<string, Drv>, conf: Conf)
    ensures forall c :: c in Extracted(drv, conf) ==> c in conf
  {
    if conf != [] {
      assert conf == [conf[0]] + conf[1..];
      ExtractedWithin(drv, conf[1..]);
    }
  }

  lemma RegisterDrivers(t: Template, m: Manager, msgs: seq<Conf>, conf: Conf)
    requires KeptOk(t, m.drv, m.todo) && AllSaid(t, msgs) && conf in msgs
    ensures KeptOk(t, Register(m, conf).drv, Register(m, conf).todo)
  {
    hide AddDrivers, ConfToks, DriverKept, DriverSaid, Extracted;
    var news := Extracted(m.drv, conf);
    ExtractedWithin(m.drv, conf);
    AddedDrivers(t, m.drv, news);
    QueuedSaid(t, news);
  }

  lemma {:induction false} ScaleDrivers(t: Template, m: Manager, conf: Conf)
    requires KeptOk(t, m.drv, m.todo) && forall c :: c in conf ==> DriverSaid(t, c)
    ensures KeptOk(t, ScaleVdus(m, conf).drv, ScaleVdus(m, conf).todo)
    decreases |conf|
  {
    hide InConfig, NotIn, Replaced;
    if conf != [] {
      assert conf[0] in conf;
      ScaleDrivers(t, ScaleOne(m, conf[0]), conf[1..]);
    }
  }

  lemma MessagesDrivers(s: State, a: Action)
    requires DriversOk(s) && Enabled(s, a) && (a.StartManager? || a.HandleConf? || a.HandleScale?)
    ensures DriversOk(Next(s, a))
  {
    hide DriverSaid, KeptOk, LaunchedOk, Register, ScaleVdus;
    match a
    case StartManager => RegisterDrivers(s.tpl, s.mgr, s.sent, s.sent[0]);
    case HandleConf(k) => RegisterDrivers(s.tpl, s.mgr, s.sent, s.sent[k]);
    case HandleScale =>
      assert s.scaleMsgs[0] in s.scaleMsgs && forall conf :: conf in s.scaleMsgs[1..] ==> conf in s.scaleMsgs;
      ScaleDrivers(s.tpl, s.mgr, s.scaleMsgs[0]);
  }

  lemma DispatchDrivers(t: Template, m: Manager, mgmtIp: bool)
    requires m.todo != [] && KeptOk(t, m.drv, m.todo)
    ensures var m' := Dispatch(m, mgmtIp).m; KeptOk(t, m'.drv, m'.todo)
  {
  }

  lemma ScanDrivers(t: Template, m: Manager, id: ThreadId)
    requires m.daemon.Scanning? && KeptOk(t, m.drv, m.todo)
    ensures var m' := ScanEntry(m, id).m; KeptOk(t, m'.drv, m'.todo)
  {
  }

  lemma ThreadsDrivers(s: State, a: Action)
    requires DriversOk(s) && Enabled(s, a) && !OfCreation(a) && !OfScaling(a) && !OfOverlap(a)
    requires !a.StartManager? && !a.HandleConf?
    ensures DriversOk(Next(s, a))
  {
    hide AllSaid, Dispatch, KeptOk, Running, ScanEntry, StartsWorker;
    match a
    case DispatchNext(mgmtIp) => DispatchDrivers(s.tpl, s.mgr, mgmtIp);
    case Scan(id) => ScanDrivers(s.tpl, s.mgr, id);
    case _ =>
  }

  lemma DriversStep(s: State, a: Action)
    requires DriversOk(s) && Enabled(s, a)
    ensures DriversOk(Next(s, a))
  {
    hide DriversOk, Enabled, Next;
    if a.StartManager? || a.HandleConf? || a.HandleScale? {
      MessagesDrivers(s, a);
    } else if OfCreation(a) || OfScaling(a) || OfOverlap(a) {
      OrchDrivers(s, a);
    } else {
      ThreadsDrivers(s, a);
    }
  }

  /** The manager finds under the name of a queued server the template's word on its driver. */
  lemma QueuedDriver(t: Template, m: Manager)
    requires DistinctNames(t) && KeptOk(t, m.drv, m.todo) && m.todo != []
    ensures var v := m.todo[0].vdu; v.name in m.drv ==> m.drv[v.name].driver == HasDriver(t, v)
  {
    var v := m.todo[0].vdu;
    assert m.todo[0] in m.todo;
    assert v.name in m.drv ==> DriverKept(t, v.name, m.drv[v.name]) && SameName(m.drv[v.name].vdu, v);
  }

  lemma EarnedDispatch(t: Template, m: Manager, net: multiset<Ack>, acks: map<Vdu, seq<Inst>>, good: set<Tok>, mgmtIp: bool)
    requires Earned(t, m.table, net, acks, good) && m.todo != []
    requires var v := m.todo[0].vdu; v.name in m.drv ==> m.drv[v.name].driver == HasDriver(t, v)
    ensures var r := Dispatch(m, mgmtIp); Earned(t, r.m.table, net + multiset(r.acks), acks, good)
  {
    var r := Dispatch(m, mgmtIp);
    forall a | a in net + multiset(r.acks) ensures a in net || a in r.acks {
    }
  }

  lemma EarnedScan(t: Template, m: Manager, net: multiset<Ack>, acks: map<Vdu, seq<Inst>>, good: set<Tok>, id: ThreadId)
    requires Earned(t, m.table, net, acks, good) && m.daemon.Scanning?
    ensures var r := ScanEntry(m, id); Earned(t, r.m.table, net + multiset(r.acks), acks, good)
  {
    var r := ScanEntry(m, id);
    forall a | a in net + multiset(r.acks) ensures a in net || a in r.acks {
    }
    if id in m.table {
      var tok := m.table[id].tok;
      assert tok == Tok(tok.vdu, tok.inst);
    }
  }

  lemma EarnedRecord(t: Template, m: Manager, net: multiset<Ack>, acks: map<Vdu, seq<Inst>>, good: set<Tok>, id: ThreadId, out: Outcome)
    requires Earned(t, m.table, net, acks, good)
    ensures Earned(t, WorkerRecords(m, id, out).table, net, acks,
                   good + if WentWell(out) && id in m.table then {m.table[id].tok} else {})
  {
    StatusOfOutcome(out);
  }

  lemma EarnedArrives(t: Template, table: map<ThreadId, Entry>, net: multiset<Ack>, o: Orch, good: set<Tok>, a: Ack)
    requires Earned(t, table, net, o.acks, good) && a in net
    ensures Earned(t, table, net - multiset{a}, RecordAck(o, a).acks, good)
  {
    assert forall b :: b in net - multiset{a} ==> b in net;
    var o' := RecordAck(o, a);
    forall v, i | HasDriver(t, v) && i in AcksOf(o'.acks, v) ensures Tok(v, i) in good {
      assert i in AcksOf(o.acks, v) || (a == Ack(v, i, Complete));
    }
  }

  lemma EarnedStep(s: State, a: Action, good: set<Tok>)
    requires DistinctNames(s.tpl) && DriversOk(s) && Enabled(s, a) && Earned(s.tpl, s.mgr.table, s.net, s.orch.acks, good)
    ensures var s' := Next(s, a); Earned(s'.tpl, s'.mgr.table, s'.net, s'.orch.acks, good + SucceededIn(s, a))
  {
    var o, m := s.orch, s.mgr;
    hide AllIn, AllSaid, AnyIn, BeginScale, Decision, Dispatch, DistinctNames, DropScaled, Earned, HasDependents,
         HasDriver, KeptOk, LaunchedOk, LaunchVdu, NewConf, NoDup, RecordAck, Register, Running, ScaleVdus, ScanEntry,
         StartsWorker, Ungenerated, WentWell, WorkerRecords;
    assert good + {} == good;
    if a.DispatchNext? {
      assert m.todo != [];
      QueuedDriver(s.tpl, m);
      EarnedDispatch(s.tpl, m, s.net, o.acks, good, a.mgmtIp);
    } else if a.Scan? {
      assert m.daemon.Scanning?;
      EarnedScan(s.tpl, m, s.net, o.acks, good, a.entry);
    } else if a.Finish? {
      EarnedRecord(s.tpl, m, s.net, o.acks, good, a.id, a.out);
    } else if a.Deliver? {
      assert a.ack in s.net;
      EarnedArrives(s.tpl, m.table, s.net, o, good, a.ack);
    } else {
      RecordsElsewhere(s, a);
    }
  }

  lemma {:induction false} EarnedRun(s: State, actions: seq<Action>, good: set<Tok>)
    requires DistinctNames(s.tpl) && DriversOk(s) && IsRun(s, actions)
    requires Earned(s.tpl, s.mgr.table, s.net, s.orch.acks, good)
    ensures var e := After(s, actions); Earned(e.tpl, e.mgr.table, e.net, e.orch.acks, good + Succeeded(s, actions))
    decreases |actions|
  {
    hide DistinctNames, DriversOk, Enabled, Next, Earned, SucceededIn;
    if actions != [] {
      DriversStep(s, actions[0]);
      SameTemplate(s, actions[0]);
      EarnedStep(s, actions[0], good);
      EarnedRun(Next(s, actions[0]), actions[1..], good + SucceededIn(s, actions[0]));
      assert good + SucceededIn(s, actions[0]) + Succeeded(Next(s, actions[0]), actions[1..]) == good + Succeeded(s, actions);
    } else {
      assert good + {} == good;
    }
  }

  /** In every run, a server with a management driver is acknowledged COMPLETE only after a driver call on it that
      neither raised nor answered with ERROR. */
  lemma CompleteIsEarned(t: Template, actions: seq<Action>, v: Vdu, i: Inst)
    requires ValidTemplate(t) && IsRun(Init(t), actions) && HasDriver(t, v)
    requires var e := After(Init(t), actions); Ack(v, i, Complete) in e.net || i in AcksOf(e.orch.acks, v)
    ensures Tok(v, i) in Succeeded(Init(t), actions)
  {
    var s := Init(t);
    assert DriversOk(s);
    assert Earned(s.tpl, s.mgr.table, s.net, s.orch.acks, {});
    hide After, IsRun, Succeeded;
    EarnedRun(s, actions, {});
    RunTemplate(s, actions);
    assert s.tpl == t;
  }

  lemma {:induction false} RunTemplate(s: State, actions: seq<Action>)
    requires IsRun(s, actions)
    ensures After(s, actions).tpl == s.tpl
    decreases |actions|
  {
    hide Enabled, Next;
    if actions != [] {
      SameTemplate(s, actions[0]);
      RunTemplate(Next(s, actions[0]), actions[1..]);
    }
  }
}
