/** What holds of the deployment protocol in every state reached without overlapping scale requests. */
module ProtocolTheorems {
  import opened Lists
  import opened DependencyGraph
  import opened Protocol
  import opened ProtocolInvariant
  import opened ProtocolPreservation
  import opened ProtocolManagerSteps
  import opened ProtocolSafety

  // ---------- Runs ----------

  lemma {:induction false} RunsExtend(s: State, actions: seq<Action>, a: Action)
    requires IsRun(s, actions) && Enabled(After(s, actions), a)
    ensures IsRun(s, actions + [a]) && After(s, actions + [a]) == Next(After(s, actions), a)
    decreases |actions|
  {
    hide Enabled, Next;
    if actions == [] {
      assert [] + [a] == [a] && [a][1..] == [];
      assert IsRun(Next(s, a), []) && After(Next(s, a), []) == Next(s, a);
    } else {
      assert (actions + [a])[0] == actions[0] && (actions + [a])[1..] == actions[1..] + [a];
      RunsExtend(Next(s, actions[0]), actions[1..], a);
    }
  }

  lemma Started(t: Template)
    requires ValidTemplate(t)
    ensures Orderly(Init(t))
  {
    assert IsRun(Init(t), []) && After(Init(t), []) == Init(t);
  }

  lemma ReachableNext(s: State, a: Action)
    requires Reachable(s) && Enabled(s, a)
    ensures Reachable(Next(s, a))
  {
    hide Enabled, Next, Init;
    var actions :| ValidTemplate(s.tpl) && IsRun(Init(s.tpl), actions) && After(Init(s.tpl), actions) == s;
    RunsExtend(Init(s.tpl), actions, a);
    SameTemplate(s, a);
    assert ValidTemplate(s.tpl) && IsRun(Init(s.tpl), actions + [a]) && After(Init(s.tpl), actions + [a]) == Next(s, a);
  }

  lemma OrderlyNext(s: State, a: Action)
    requires Orderly(s) && Enabled(s, a) && !OfOverlap(a)
    ensures Orderly(Next(s, a))
  {
    hide Enabled, Next, OfOverlap, Reachable;
    ReachableNext(s, a);
    OverlapRecorded(s, a);
  }

  lemma SameTemplate(s: State, a: Action)
    requires Enabled(s, a)
    ensures Next(s, a).tpl == s.tpl
  {
  }

  // ---------- Where a launched server is ----------

  ghost predicate InMessage(sent: seq<Conf>, v: Vdu, i: Inst) {
    exists conf, c :: conf in sent && c in conf && c.vdu == v && i in c.insts
  }

  ghost predicate InTableWith(table: map<ThreadId, Entry>, v: Vdu, i: Inst, recorded: bool) {
    exists id :: id in table && table[id].tok == Tok(v, i) && table[id].result.Result? == recorded
  }

  datatype Stage = AwaitingConf | InConf | Queued | WorkerRunning | Recorded | AckInFlight | Counted

  ghost predicate AtStage(s: State, v: Vdu, i: Inst, stage: Stage) {
    var m := s.mgr;
    match stage
    case AwaitingConf => !Known(m.drv, v, i) && !InMessage(s.sent + s.scaleMsgs, v, i)
    case InConf => !Known(m.drv, v, i) && InMessage(s.sent + s.scaleMsgs, v, i)
    case Queued => Tok(v, i) in m.todo
    case WorkerRunning => InTableWith(m.table, v, i, false)
    case Recorded => InTableWith(m.table, v, i, true)
    case AckInFlight => Ack(v, i, Complete) in s.net || Ack(v, i, Error) in s.net
    case Counted => i in AcksOf(s.orch.acks, v) || Tok(v, i) in s.orch.failed
  }

  lemma TableStages(m: Manager, v: Vdu, i: Inst)
    requires TableOk(m)
    ensures InTable(m.table, v, i) <==> InTableWith(m.table, v, i, false) || InTableWith(m.table, v, i, true)
    ensures !(InTableWith(m.table, v, i, false) && InTableWith(m.table, v, i, true))
  {
    if InTable(m.table, v, i) {
      var id :| id in m.table && m.table[id].tok == Tok(v, i);
      assert m.table[id].result.Result? == true || m.table[id].result.Result? == false;
    }
  }

  lemma WeightOf(m: Manager, net: multiset<Ack>, acks: map<Vdu, seq<Inst>>, failed: seq<Tok>, v: Vdu, i: Inst)
    requires TokensOk(m, net, acks, failed)
    ensures multiset(m.todo)[Tok(v, i)] + B(InTable(m.table, v, i)) + net[Ack(v, i, Complete)] + net[Ack(v, i, Error)]
            + multiset(AcksOf(acks, v))[i] + multiset(failed)[Tok(v, i)] == B(Known(m.drv, v, i))
  {
    assert Weight(m.todo, m.table, net, acks, failed, v, i) == B(Known(m.drv, v, i));
  }

  lemma InCount<T>(list: seq<T>, x: T)
    ensures x in list <==> multiset(list)[x] > 0
  {
  }

  ghost predicate OnlyStage(s: State, v: Vdu, i: Inst, stage: Stage) {
    AtStage(s, v, i, stage) && forall other: Stage :: AtStage(s, v, i, other) ==> other == stage
  }

  lemma StageFacts(s: State, v: Vdu, i: Inst)
    requires TableOk(s.mgr) && TokensOk(s.mgr, s.net, s.orch.acks, s.orch.failed)
    ensures exists stage :: OnlyStage(s, v, i, stage)
  {
    var o, m := s.orch, s.mgr;
    WeightOf(m, s.net, o.acks, o.failed, v, i);
    TableStages(m, v, i);
    InCount(m.todo, Tok(v, i));
    InCount(o.failed, Tok(v, i));
    InCount(AcksOf(o.acks, v), i);
    hide InMessage, InTable, InTableWith, TableOk;
    var stage :=
      if !Known(m.drv, v, i) then (if InMessage(s.sent + s.scaleMsgs, v, i) then InConf else AwaitingConf)
      else if Tok(v, i) in m.todo then Queued
      else if InTableWith(m.table, v, i, false) then WorkerRunning
      else if InTableWith(m.table, v, i, true) then Recorded
      else if AtStage(s, v, i, AckInFlight) then AckInFlight
      else Counted;
    assert OnlyStage(s, v, i, stage);
  }

  /** Every server is at exactly one stage, and is never acknowledged, or on its way to be, more than once. */
  lemma OneStage(s: State, v: Vdu, i: Inst)
    requires Orderly(s)
    ensures exists stage :: OnlyStage(s, v, i, stage)
    ensures s.net[Ack(v, i, Complete)] + s.net[Ack(v, i, Error)]
            + multiset(AcksOf(s.orch.acks, v))[i] + multiset(s.orch.failed)[Tok(v, i)] <= 1
  {
    hide InTable, OnlyStage, Orderly, TableOk;
    InvAlways(s);
    Parts(s);
    StageFacts(s, v, i);
    WeightOf(s.mgr, s.net, s.orch.acks, s.orch.failed, v, i);
    assert B(Known(s.mgr.drv, v, i)) <= 1;
  }

  /** The daemon starts after the first message was seen to: each server the manager knows has its worker by then, or is
      acknowledged. */
  lemma DaemonStartsAfter(s: State, v: Vdu, i: Inst)
    requires Orderly(s) && Enabled(s, StartDaemon) && Known(s.mgr.drv, v, i)
    ensures exists stage :: stage in {WorkerRunning, Recorded, AckInFlight, Counted} && AtStage(s, v, i, stage)
  {
    NothingQueued(s);
    hide *;
    OneStage(s, v, i);
    var stage :| OnlyStage(s, v, i, stage);
    PastQueue(s, v, i, stage);
  }

  lemma NothingQueued(s: State)
    requires Enabled(s, StartDaemon)
    ensures s.mgr.todo == []
  {
  }

  lemma PastQueue(s: State, v: Vdu, i: Inst, stage: Stage)
    requires OnlyStage(s, v, i, stage) && Known(s.mgr.drv, v, i) && s.mgr.todo == []
    ensures AtStage(s, v, i, stage) && stage in {WorkerRunning, Recorded, AckInFlight, Counted}
  {
    hide InMessage, InTableWith;
  }

  lemma {:induction false} ConfHas(conf: Conf, v: Vdu)
    requires v in ConfVdus(conf)
    ensures exists c :: c in conf && c.vdu == v
  {
    if v == conf[0].vdu {
      assert conf[0] in conf;
    } else {
      ConfHas(conf[1..], v);
      var c :| c in conf[1..] && c.vdu == v;
      assert c in conf;
    }
  }

  lemma {:induction false} SentHas(sent: seq<Conf>, v: Vdu)
    requires v in SentVdus(sent)
    ensures exists conf, c :: conf in sent && c in conf && c.vdu == v
  {
    if v in ConfVdus(sent[0]) {
      ConfHas(sent[0], v);
      assert sent[0] in sent;
    } else {
      SentHas(sent[1..], v);
      var conf, c :| conf in sent[1..] && c in conf && c.vdu == v;
      assert conf in sent;
    }
  }

  /** A VDU named by a message and new to the manager has all its servers in that message. */
  lemma NamedWhole(t: Template, insts: map<Vdu, seq<Inst>>, drv: map<string, Drv>, sent: seq<Conf>, v: Vdu, i: Inst)
    requires SentOk(t, insts, drv, sent) && v in SentVdus(sent) && v.name !in drv && v in insts && i in insts[v]
    ensures InMessage(sent, v, i)
  {
    SentHas(sent, v);
    var conf, c :| conf in sent && c in conf && c.vdu == v;
    assert ConfOk(t, insts, drv, conf) && EntryOk(t, insts, drv, c);
  }

  lemma MessageMore(sent: seq<Conf>, more: seq<Conf>, v: Vdu, i: Inst)
    requires InMessage(sent, v, i) || InMessage(more, v, i)
    ensures InMessage(sent + more, v, i)
  {
    if InMessage(sent, v, i) {
      var conf, c :| conf in sent && c in conf && c.vdu == v && i in c.insts;
      assert conf in sent + more;
    } else {
      var conf, c :| conf in more && c in conf && c.vdu == v && i in c.insts;
      assert conf in sent + more;
    }
  }

  /** A known VDU's unknown server is the one being scaled, and is in the scale message once that is sent. */
  lemma UnknownIsNew(t: Template, pc: Pc, insts: map<Vdu, seq<Inst>>, acks: map<Vdu, seq<Inst>>, sent: seq<Conf>,
                     scaleMsgs: seq<Conf>, drv: map<string, Drv>, ns: Conf, v: Vdu, i: Inst)
    requires LinkOk(t, pc, insts, acks, sent, scaleMsgs, drv, ns)
    requires v in insts && i in insts[v] && v.name in drv && drv[v.name].vdu == v && !Known(drv, v, i)
    ensures i == insts[v][|insts[v]| - 1] && (pc == Scaling(v) || InMessage(scaleMsgs, v, i))
  {
    assert v in Untold(pc, scaleMsgs);
    if !pc.Scaling? {
      var conf := scaleMsgs[0];
      assert conf in scaleMsgs && conf[0] in conf && conf[0].vdu == v && i in conf[0].insts;
    }
  }

  lemma SameVdu(t: Template, insts: map<Vdu, seq<Inst>>, untold: set<Vdu>, drv: map<string, Drv>, ns: Conf, v: Vdu)
    requires ValidTemplate(t) && DrvOk(t, insts, untold, drv, ns) && v in t.specs && v.name in drv
    ensures drv[v.name].vdu == v
  {
    assert SameName(drv[v.name].vdu, v);
  }

  lemma LaunchedInTemplate(t: Template, o: Orch, v: Vdu)
    requires OrchOk(t, o) && v in o.insts
    ensures v in t.specs
  {
  }

  lemma LinkParts(t: Template, pc: Pc, insts: map<Vdu, seq<Inst>>, acks: map<Vdu, seq<Inst>>, sent: seq<Conf>,
                  scaleMsgs: seq<Conf>, drv: map<string, Drv>, ns: Conf)
    requires LinkOk(t, pc, insts, acks, sent, scaleMsgs, drv, ns)
    ensures DrvOk(t, insts, Untold(pc, scaleMsgs), drv, ns) && SentOk(t, insts, drv, sent)
    ensures !pc.Aborted? ==> insts.Keys == SentVdus(sent) + JustLaunched(pc)
  {
  }

  lemma Forgotten(t: Template, o: Orch, sent: seq<Conf>, scaleMsgs: seq<Conf>, drv: map<string, Drv>, ns: Conf, v: Vdu, i: Inst)
    requires ValidTemplate(t) && OrchOk(t, o) && LinkOk(t, o.pc, o.insts, o.acks, sent, scaleMsgs, drv, ns)
    requires v in o.insts && i in o.insts[v] && !Known(drv, v, i) && !InMessage(sent + scaleMsgs, v, i)
    ensures o.pc.Aborted? || (o.pc.Launching? && v in o.pc.done)
            || (o.pc == Scaling(v) && i == o.insts[v][|o.insts[v]| - 1])
  {
    hide DrvOk, InMessage, SentOk, SentVdus;
    LinkParts(t, o.pc, o.insts, o.acks, sent, scaleMsgs, drv, ns);
    LaunchedInTemplate(t, o, v);
    if v.name in drv {
      SameVdu(t, o.insts, Untold(o.pc, scaleMsgs), drv, ns, v);
      UnknownIsNew(t, o.pc, o.insts, o.acks, sent, scaleMsgs, drv, ns, v, i);
      if InMessage(scaleMsgs, v, i) { MessageMore(sent, scaleMsgs, v, i); }
    } else if v in SentVdus(sent) {
      NamedWhole(t, o.insts, drv, sent, v, i);
      MessageMore(sent, scaleMsgs, v, i);
    } else if !o.pc.Aborted? {
      assert v in o.insts.Keys;
      assert o.pc.Launching? && v in o.pc.done;
    }
  }

  /** A server waits for its configuration message only while its wave, or its scale request, is being launched. */
  lemma NothingForgotten(s: State, v: Vdu, i: Inst)
    requires Orderly(s) && v in s.orch.insts && i in s.orch.insts[v] && AtStage(s, v, i, AwaitingConf)
    ensures var pc := s.orch.pc;
            pc.Aborted? || (pc.Launching? && v in pc.done) || (pc == Scaling(v) && i == s.orch.insts[v][|s.orch.insts[v]| - 1])
  {
    hide AcksOf, InMessage, InTableWith, Inv, Known, LinkOk, OrchOk, Orderly, TableOk, TokensOk, ValidTemplate;
    InvAlways(s);
    Parts(s);
    assert !Known(s.mgr.drv, v, i) && !InMessage(s.sent + s.scaleMsgs, v, i);
    Forgotten(s.tpl, s.orch, s.sent, s.scaleMsgs, s.mgr.drv, s.mgr.nsConfig, v, i);
  }

  lemma KnownLaunched(t: Template, pc: Pc, insts: map<Vdu, seq<Inst>>, acks: map<Vdu, seq<Inst>>, sent: seq<Conf>,
                      scaleMsgs: seq<Conf>, drv: map<string, Drv>, ns: Conf, v: Vdu, i: Inst)
    requires LinkOk(t, pc, insts, acks, sent, scaleMsgs, drv, ns) && Known(drv, v, i)
    ensures v in insts && i in insts[v]
  {
  }

  /** No acknowledgement is in flight, or counted, before the orchestrator has set the VDU's server list. */
  lemma NoEarlyAck(s: State, v: Vdu, i: Inst, stage: Stage)
    requires Orderly(s) && AtStage(s, v, i, stage) && !stage.AwaitingConf? && !stage.InConf?
    ensures v in s.orch.insts && i in s.orch.insts[v]
  {
    var o, m := s.orch, s.mgr;
    hide InMessage, InTable, InTableWith, Orderly, TableOk;
    InvAlways(s);
    Parts(s);
    WeightOf(m, s.net, o.acks, o.failed, v, i);
    TableStages(m, v, i);
    InCount(m.todo, Tok(v, i));
    InCount(o.failed, Tok(v, i));
    InCount(AcksOf(o.acks, v), i);
    assert Known(m.drv, v, i);
    KnownLaunched(s.tpl, o.pc, o.insts, o.acks, s.sent, s.scaleMsgs, m.drv, m.nsConfig, v, i);
  }

  // ---------- The orchestrator's lists ----------

  /** `configured` holds a VDU exactly when every one of its servers (it has some) was acknowledged COMPLETE and no
      scale-out dropped it; `errored` exactly when one was acknowledged ERROR; never both, and neither list is ahead of
      the launches. A dropped VDU has all of its servers acknowledged COMPLETE. */
  lemma ListsMeanAcks(s: State, v: Vdu)
    requires Orderly(s)
    ensures v in s.orch.configured <==>
              && v in s.orch.insts && v !in s.orch.dropped && s.orch.insts[v] != []
              && forall i :: i in s.orch.insts[v] ==> i in AcksOf(s.orch.acks, v)
    ensures v in s.orch.dropped ==>
              && v in s.orch.insts && s.orch.insts[v] != []
              && forall i :: i in s.orch.insts[v] ==> i in AcksOf(s.orch.acks, v)
    ensures v in s.orch.errored <==> exists i :: Tok(v, i) in s.orch.failed
    ensures v in s.orch.errored ==> v !in s.orch.configured && v !in s.orch.dropped
    ensures v in s.orch.errored ==> v in s.orch.insts
  {
    var o := s.orch;
    hide *;
    InvAlways(s);
    AcksWithin(s, v);
    Parts(s);
    if v in o.errored {
      var i := ErroredNotConfigured(s, v);
      assert Tok(v, i) in o.failed;
    }
    if i :| Tok(v, i) in o.failed {
      FailedErrored(s.tpl, o, v, i);
    }
    ConfiguredLaunched(s.tpl, o, v);
    if v in o.dropped {
      DroppedLaunched(s.tpl, o, v);
      NoDupWithin(AcksOf(o.acks, v), o.insts[v]);
      assert o.insts[v] != [];
    }
  }

  lemma DroppedLaunched(t: Template, o: Orch, v: Vdu)
    requires OrchOk(t, o) && v in o.dropped
    ensures v in o.insts && v in t.specs && NoDup(o.insts[v]) && 0 < |o.insts[v]| <= |AcksOf(o.acks, v)|
  {
  }

  lemma FailedErrored(t: Template, o: Orch, v: Vdu, i: Inst)
    requires OrchOk(t, o) && Tok(v, i) in o.failed
    ensures v in o.errored
  {
    var k :| 0 <= k < |o.failed| && o.failed[k] == Tok(v, i);
    assert o.errored[k] == v;
  }

  lemma ConfiguredLaunched(t: Template, o: Orch, v: Vdu)
    requires OrchOk(t, o)
    ensures v in o.configured ==> v in o.insts && v in t.specs
  {
  }

  lemma {:induction false} OrderByIndex(g: Graph, list: seq<Vdu>, k: nat, d: Vdu)
    requires TopoOrder(g, list) && k < |list| && list[k] in g && d in g[list[k]]
    ensures d in list[..k]
    decreases |list|
  {
    if k < |list| - 1 {
      OrderByIndex(g, list[..|list| - 1], k, d);
      assert list[..|list| - 1][..k] == list[..k];
    }
  }

  lemma OrderFacts(t: Template, o: Orch)
    requires OrchOk(t, o)
    ensures NoDup(o.configured) && TopoOrder(Deps(t), o.configured)
    ensures forall k :: 0 <= k < |o.configured| ==> o.configured[k] in t.specs
  {
    forall k | 0 <= k < |o.configured| ensures o.configured[k] in t.specs {
      ConfiguredLaunched(t, o, o.configured[k]);
    }
  }

  /** `configured` never repeats a VDU and lists every VDU after all of its dependencies. */
  lemma ConfiguredInOrder(s: State)
    requires Orderly(s)
    ensures NoDup(s.orch.configured)
    ensures forall k :: 0 <= k < |s.orch.configured| ==> s.orch.configured[k] in s.tpl.specs
    ensures forall k, d :: 0 <= k < |s.orch.configured| && d in s.tpl.specs[s.orch.configured[k]].deps
              ==> d in s.orch.configured[..k]
  {
    var o := s.orch;
    hide NoDup, Orderly, TableOk, TopoOrder;
    InvAlways(s);
    Parts(s);
    OrderFacts(s.tpl, o);
    assert Deps(s.tpl).Keys == s.tpl.specs.Keys && forall v :: v in s.tpl.specs ==> Deps(s.tpl)[v] == s.tpl.specs[v].deps;
    forall k, d | 0 <= k < |o.configured| && d in s.tpl.specs[o.configured[k]].deps ensures d in o.configured[..k] {
      assert d in Deps(s.tpl)[o.configured[k]];
      OrderByIndex(Deps(s.tpl), o.configured, k, d);
    }
  }

  /** A VDU is launched only when all of its dependencies are configured, and never again. */
  lemma LaunchedOnceWithDeps(s: State, names: seq<Inst>)
    requires Orderly(s) && Enabled(s, Launch(names))
    ensures var v := s.orch.pc.todo[0];
            && v !in s.orch.insts && v !in s.orch.deployed && v !in s.orch.configured
            && forall d :: d in s.tpl.specs[v].deps ==> d in s.orch.configured
  {
    var v, todo := s.orch.pc.todo[0], s.orch.pc.todo[1..];
    assert s.orch.pc.todo == [v] + todo;
    hide *;
    InvAlways(s);
    Parts(s);
    LaunchFacts(s.tpl, s.orch, s.orch.pc.done, v, todo);
  }
}
