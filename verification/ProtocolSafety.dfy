/** Delivering an acknowledgement keeps the invariant; so every run without overlapping scale requests keeps it. */
module ProtocolSafety {
  import opened Lists
  import opened DependencyGraph
  import opened Protocol
  import opened ProtocolInvariant
  import opened ProtocolPreservation
  import opened ProtocolManagerSteps

  // ---------- Acknowledgements arrive ----------

  lemma AppendCount<T>(list: seq<T>, x: T)
    ensures forall y :: multiset(list + [x])[y] == multiset(list)[y] + if y == x then 1 else 0
  {
    assert multiset(list + [x]) == multiset(list) + multiset{x};
  }

  /** A COMPLETE acknowledgement moves from the channel to the VDU's list. */
  lemma NetToAcks(todo: seq<Tok>, table: map<ThreadId, Entry>, net: multiset<Ack>, acks: map<Vdu, seq<Inst>>,
                  failed: seq<Tok>, drv: map<string, Drv>, v: Vdu, i: Inst)
    requires Conserved(todo, table, net, acks, failed, drv) && Ack(v, i, Complete) in net
    ensures Conserved(todo, table, net - multiset{Ack(v, i, Complete)}, acks[v := AcksOf(acks, v) + [i]], failed, drv)
    ensures Known(drv, v, i) && i !in AcksOf(acks, v)
  {
    hide InTable, Known;
    var net', acks' := net - multiset{Ack(v, i, Complete)}, acks[v := AcksOf(acks, v) + [i]];
    AppendCount(AcksOf(acks, v), i);
    forall u, j ensures Weight(todo, table, net', acks', failed, u, j) == B(Known(drv, u, j)) {
      assert Weight(todo, table, net, acks, failed, u, j) == B(Known(drv, u, j));
    }
    assert Weight(todo, table, net, acks, failed, v, i) == B(Known(drv, v, i));
    assert i in AcksOf(acks, v) <==> multiset(AcksOf(acks, v))[i] > 0;
  }

  /** An ERROR acknowledgement moves from the channel to the failures. */
  lemma NetToFailed(todo: seq<Tok>, table: map<ThreadId, Entry>, net: multiset<Ack>, acks: map<Vdu, seq<Inst>>,
                    failed: seq<Tok>, drv: map<string, Drv>, v: Vdu, i: Inst)
    requires Conserved(todo, table, net, acks, failed, drv) && Ack(v, i, Error) in net
    ensures Conserved(todo, table, net - multiset{Ack(v, i, Error)}, acks, failed + [Tok(v, i)], drv)
  {
    var net', failed' := net - multiset{Ack(v, i, Error)}, failed + [Tok(v, i)];
    AppendCount(failed, Tok(v, i));
    forall u, j ensures Weight(todo, table, net', acks, failed', u, j) == B(Known(drv, u, j)) {
      assert Weight(todo, table, net, acks, failed, u, j) == B(Known(drv, u, j));
      assert Tok(u, j) == Tok(v, i) <==> u == v && j == i;
    }
  }

  lemma CompleteArrived(drv: map<string, Drv>, net: multiset<Ack>, acks: map<Vdu, seq<Inst>>, v: Vdu, i: Inst)
    requires CompleteOk(drv, net, acks) && Ack(v, i, Complete) in net
    ensures CompleteOk(drv, net - multiset{Ack(v, i, Complete)}, acks[v := AcksOf(acks, v) + [i]])
  {
    var a, acks' := Ack(v, i, Complete), acks[v := AcksOf(acks, v) + [i]];
    assert forall b :: b != a ==> (net - multiset{a})[b] == net[b];
    forall u, j ensures j in AcksOf(acks', u) <==> j in AcksOf(acks, u) || (u == v && j == i) {
    }
  }

  lemma ErrorArrived(drv: map<string, Drv>, net: multiset<Ack>, acks: map<Vdu, seq<Inst>>, v: Vdu, i: Inst)
    requires CompleteOk(drv, net, acks)
    ensures CompleteOk(drv, net - multiset{Ack(v, i, Error)}, acks)
  {
    var a := Ack(v, i, Error);
    assert forall b :: b != a ==> (net - multiset{a})[b] == net[b];
  }

  /** More acknowledgements disturb nothing the orchestrator and the manager agree on. */
  lemma LinkAck(t: Template, pc: Pc, insts: map<Vdu, seq<Inst>>, acks: map<Vdu, seq<Inst>>, sent: seq<Conf>,
                scaleMsgs: seq<Conf>, drv: map<string, Drv>, ns: Conf, v: Vdu, i: Inst)
    requires LinkOk(t, pc, insts, acks, sent, scaleMsgs, drv, ns)
    ensures LinkOk(t, pc, insts, acks[v := AcksOf(acks, v) + [i]], sent, scaleMsgs, drv, ns)
  {
    var acks' := acks[v := AcksOf(acks, v) + [i]];
    assert forall u, j :: j in AcksOf(acks, u) ==> j in AcksOf(acks', u);
  }

  /** What is known about the VDU of an acknowledgement that has not been counted yet. */
  lemma UncountedAck(t: Template, pc: Pc, insts: map<Vdu, seq<Inst>>, acks: map<Vdu, seq<Inst>>, sent: seq<Conf>,
                     scaleMsgs: seq<Conf>, drv: map<string, Drv>, ns: Conf, v: Vdu, i: Inst)
    requires LinkOk(t, pc, insts, acks, sent, scaleMsgs, drv, ns)
    requires Known(drv, v, i) && i !in AcksOf(acks, v)
    requires NoDup(AcksOf(acks, v)) && forall j :: j in AcksOf(acks, v) ==> Known(drv, v, j)
    requires v in insts ==> NoDup(insts[v])
    ensures v in insts && |AcksOf(acks, v)| < |insts[v]|
    ensures pc.Launching? ==> v !in pc.done
  {
    assert forall j :: Known(drv, v, j) ==> v in insts && j in insts[v];
    NoDupWithin(AcksOf(acks, v) + [i], insts[v]);
    if pc.Launching? {
      assert forall u :: u in pc.done ==> u in pc.done + pc.todo;
    }
  }

  /** Its VDU was not dropped, since all servers of a dropped VDU have been counted. */
  lemma ListsAck(pc: Pc, insts: map<Vdu, seq<Inst>>, configured: seq<Vdu>, acks: map<Vdu, seq<Inst>>, dropped: set<Vdu>,
                 v: Vdu, i: Inst)
    requires ListsOk(configured, insts, acks, dropped) && DroppedOk(pc, dropped, insts, acks)
    requires v in insts && |AcksOf(acks, v)| < |insts[v]|
    ensures v !in configured && v !in dropped
    ensures var acks' := acks[v := AcksOf(acks, v) + [i]];
            && DroppedOk(pc, dropped, insts, acks')
            && ListsOk(if |insts[v]| <= |AcksOf(acks', v)| then configured + [v] else configured, insts, acks', dropped)
  {
    var acks' := acks[v := AcksOf(acks, v) + [i]];
    assert forall u :: u != v ==> AcksOf(acks', u) == AcksOf(acks, u);
  }

  /** A VDU that becomes configured goes to the end of the dependency order. */
  lemma OrderAck(t: Template, pc: Pc, r: nat, insts: map<Vdu, seq<Inst>>, configured: seq<Vdu>, errored: seq<Vdu>,
                 deployed: seq<Vdu>, generated: seq<Vdu>, dropped: set<Vdu>, v: Vdu)
    requires TopoOrder(Deps(t), configured) && DepsConfigured(Deps(t), deployed, configured)
    requires WaveOk(t, pc, r, configured, deployed, generated, dropped) && SettledOk(t, pc, insts, configured, errored, dropped)
    requires v in deployed && v !in configured && (pc.Launching? ==> v !in pc.done)
    ensures TopoOrder(Deps(t), configured + [v]) && DepsConfigured(Deps(t), deployed, configured + [v])
    ensures WaveOk(t, pc, r, configured + [v], deployed, generated, dropped)
    ensures SettledOk(t, pc, insts, configured + [v], errored, dropped)
  {
    var list := configured + [v];
    assert list[..|list| - 1] == configured;
    assert v in ToSet(deployed) && v !in ToSet(configured);
    assert pc.Launching? ==> v !in ToSet(pc.done);
    assert ToSet(configured) <= ToSet(list);
  }

  lemma OrchComplete(t: Template, o: Orch, v: Vdu, i: Inst)
    requires OrchOk(t, o) && v in o.insts && |AcksOf(o.acks, v)| < |o.insts[v]|
    requires o.pc.Launching? ==> v !in o.pc.done
    ensures OrchOk(t, RecordAck(o, Ack(v, i, Complete)))
  {
    ListsAck(o.pc, o.insts, o.configured, o.acks, o.dropped, v, i);
    assert v in ToSet(o.deployed);
    OrderAck(t, o.pc, o.round, o.insts, o.configured, o.errored, o.deployed, o.confGenerated, o.dropped, v);
  }

  lemma OrchError(t: Template, o: Orch, v: Vdu, i: Inst)
    requires OrchOk(t, o)
    ensures OrchOk(t, RecordAck(o, Ack(v, i, Error)))
  {
  }

  lemma RecordedComplete(o: Orch, v: Vdu, i: Inst)
    ensures var o' := RecordAck(o, Ack(v, i, Complete));
            o'.pc == o.pc && o'.insts == o.insts && o'.failed == o.failed && o'.acks == o.acks[v := AcksOf(o.acks, v) + [i]]
  {
  }

  lemma RecordedError(o: Orch, v: Vdu, i: Inst)
    ensures var o' := RecordAck(o, Ack(v, i, Error));
            o'.pc == o.pc && o'.insts == o.insts && o'.acks == o.acks && o'.failed == o.failed + [Tok(v, i)]
  {
  }

  lemma TokensParts(m: Manager, net: multiset<Ack>, acks: map<Vdu, seq<Inst>>, failed: seq<Tok>)
    requires TokensOk(m, net, acks, failed)
    ensures Conserved(m.todo, m.table, net, acks, failed, m.drv) && CompleteOk(m.drv, net, acks)
  {
  }

  lemma TokensWhole(m: Manager, net: multiset<Ack>, acks: map<Vdu, seq<Inst>>, failed: seq<Tok>)
    requires Conserved(m.todo, m.table, net, acks, failed, m.drv) && CompleteOk(m.drv, net, acks)
    ensures TokensOk(m, net, acks, failed)
  {
  }

  lemma DeliverComplete(s: State, v: Vdu, i: Inst)
    requires Inv(s) && Ack(v, i, Complete) in s.net
    ensures Inv(s.(net := s.net - multiset{Ack(v, i, Complete)}, orch := RecordAck(s.orch, Ack(v, i, Complete))))
    ensures v in s.orch.insts
  {
    hide *;
    var t, o, m := s.tpl, s.orch, s.mgr;
    Parts(s);
    TokensParts(m, s.net, o.acks, o.failed);
    NetToAcks(m.todo, m.table, s.net, o.acks, o.failed, m.drv, v, i);
    CompleteArrived(m.drv, s.net, o.acks, v, i);
    AcksDistinct(m, s.net, o.acks, o.failed, v);
    if v in o.insts { ServersDistinct(t, o, v); }
    UncountedAck(t, o.pc, o.insts, o.acks, s.sent, s.scaleMsgs, m.drv, m.nsConfig, v, i);
    OrchComplete(t, o, v, i);
    LinkAck(t, o.pc, o.insts, o.acks, s.sent, s.scaleMsgs, m.drv, m.nsConfig, v, i);
    RecordedComplete(o, v, i);
    TokensWhole(m, s.net - multiset{Ack(v, i, Complete)}, o.acks[v := AcksOf(o.acks, v) + [i]], o.failed);
    Assemble(s.(net := s.net - multiset{Ack(v, i, Complete)}, orch := RecordAck(o, Ack(v, i, Complete))));
  }

  lemma DeliverError(s: State, v: Vdu, i: Inst)
    requires Inv(s) && Ack(v, i, Error) in s.net
    ensures Inv(s.(net := s.net - multiset{Ack(v, i, Error)}, orch := RecordAck(s.orch, Ack(v, i, Error))))
  {
    hide *;
    var t, o, m := s.tpl, s.orch, s.mgr;
    Parts(s);
    TokensParts(m, s.net, o.acks, o.failed);
    NetToFailed(m.todo, m.table, s.net, o.acks, o.failed, m.drv, v, i);
    ErrorArrived(m.drv, s.net, o.acks, v, i);
    OrchError(t, o, v, i);
    RecordedError(o, v, i);
    TokensWhole(m, s.net - multiset{Ack(v, i, Error)}, o.acks, o.failed + [Tok(v, i)]);
    Assemble(s.(net := s.net - multiset{Ack(v, i, Error)}, orch := RecordAck(o, Ack(v, i, Error))));
  }

  lemma OrchStatus(t: Template, o: Orch, status: ServiceStatus)
    requires OrchOk(t, o)
    ensures OrchOk(t, o.(status := status))
  {
  }

  lemma StatusOk(s: State, status: ServiceStatus)
    requires Inv(s)
    ensures Inv(s.(orch := s.orch.(status := status)))
  {
    hide *;
    Parts(s);
    OrchStatus(s.tpl, s.orch, status);
    Assemble(s.(orch := s.orch.(status := status)));
  }

  // ---------- Every action keeps the invariant ----------

  predicate OfCreation(a: Action) {
    a.Launch? || a.BootFails? || a.SendConf? || a.Acknowledged? || a.Raise? || a.Decide?
  }

  predicate OfScaling(a: Action) {
    || a.Scale? || a.SendScale? || a.ScaleDone? || a.ScaleRaise? || a.ScaleBootFails? || a.ReportScale? || a.RefuseScale?
    || a.HandleScale?
  }

  /** The steps of a scale request that runs beside the orchestrator's own thread. */
  predicate OfOverlap(a: Action) {
    a.OverlapScale? || a.OverlapBootFails? || a.OverlapSend? || a.OverlapEnd?
  }

  lemma CreationStep(s: State, a: Action)
    requires Inv(s) && Enabled(s, a) && OfCreation(a)
    ensures Inv(Next(s, a))
  {
    hide Inv, NewConf, StartRound, LaunchVdu, NoDup, Ungenerated;
    var o := s.orch;
    match a
    case Launch(names) =>
      var v, todo := o.pc.todo[0], o.pc.todo[1..];
      assert o.pc.todo == [v] + todo;
      LaunchOk(s, names, o.pc.done, v, todo);
    case BootFails => AbortOk(s, Failed);
    case SendConf => SendConfOk(s, o.pc.done);
    case Acknowledged => AcknowledgedOk(s, o.pc.wave);
    case Raise => AbortOk(s, o.status);
    case Decide => if |s.tpl.specs| == |o.configured| { CreatedOk(s); } else { NextRoundOk(s); }
  }

  lemma ScaleWaitsFor(s: State)
    requires Inv(s) && s.scaleMsgs != []
    ensures s.orch.pc.ScaleWaiting?
  {
  }

  lemma ScalingStep(s: State, a: Action)
    requires Inv(s) && Enabled(s, a) && OfScaling(a)
    ensures Inv(Next(s, a))
  {
    hide Inv, NewConf, BeginScale, DropScaled, ScaleVdus, HasDependents, Ungenerated;
    var s' := Next(s, a);
    match a
    case Scale(v, name) => ScaleBegins(s, v, name); InvElsewhere(s'.(scales := s.scales), s');
    case SendScale => SendScaleOk(s, s.orch.pc.vdu);
    case ScaleDone => ScaleEndOk(s, s.orch.pc.vdu, s.orch.status);
    case ScaleRaise => ScaleEndOk(s, s.orch.pc.vdu, Active);
    case ScaleBootFails(v) => DropOk(s, v); InvElsewhere(s'.(scales := s.scales), s');
    case ReportScale => StatusOk(s, Active);
    case RefuseScale => StatusOk(s, Active); InvElsewhere(s'.(refused := s.refused), s');
    case HandleScale => ScaleWaitsFor(s); HandleScaleOk(s, s.orch.pc.vdu);
  }

  lemma DaemonFacts(m: Manager)
    requires TableOk(m)
    ensures m.daemon.Scanning? && m.daemon.left == {} ==> DaemonOk(m.table, Blocked)
    ensures DaemonOk(m.table, Outside) && DaemonOk(m.table, Scanning(m.table.Keys))
    ensures !m.daemon.NotStarted? ==> m.started
  {
  }

  lemma ManagerStep(s: State, a: Action)
    requires Inv(s) && Enabled(s, a) && !OfCreation(a) && !OfScaling(a) && !OfOverlap(a)
    ensures Inv(Next(s, a))
  {
    hide Dispatch, DaemonOk;
    Parts(s);
    DaemonFacts(s.mgr);
    match a
    case StartManager => RegisterOk(s, s.sent[0]);
    case HandleConf(k) => RegisterOk(s, s.sent[k]);
    case StartDaemon => DaemonMoves(s, Outside);
    case DispatchNext(mgmtIp) =>
      var t, rest := s.mgr.todo[0], s.mgr.todo[1..];
      assert s.mgr.todo == [t] + rest;
      DispatchOk(s, mgmtIp, t, rest);
    case Finish(id, out) => FinishOk(s, id, out);
    case Acquire => DaemonMoves(s, Scanning(s.mgr.table.Keys));
    case Scan(id) => ScanOk(s, id);
    case Wait => DaemonMoves(s, Blocked);
    case Wake => DaemonMoves(s, Outside);
    case Deliver(ack) =>
      if ack.status.Complete? { DeliverComplete(s, ack.vdu, ack.inst); } else { DeliverError(s, ack.vdu, ack.inst); }
  }

  /** Every action keeps the invariant, unless it belongs to a scale request beside the orchestrator's own thread. */
  lemma StepOk(s: State, a: Action)
    requires Inv(s) && Enabled(s, a) && !OfOverlap(a)
    ensures Inv(Next(s, a))
  {
    hide *;
    if OfCreation(a) {
      CreationStep(s, a);
    } else if OfScaling(a) {
      ScalingStep(s, a);
    } else {
      ManagerStep(s, a);
    }
  }

  /** Exactly the overlapping steps are recorded, and the record is kept. */
  lemma OverlapRecorded(s: State, a: Action)
    requires Enabled(s, a)
    ensures Next(s, a).overlapped <==> s.overlapped || OfOverlap(a)
  {
    hide BeginScale, DropScaled, NewConf, Ungenerated, HasDependents;
  }

  lemma {:induction false} OverlapKept(s: State, actions: seq<Action>)
    requires IsRun(s, actions) && s.overlapped
    ensures After(s, actions).overlapped
    decreases |actions|
  {
    hide Enabled, Next, OfOverlap;
    if actions != [] {
      OverlapRecorded(s, actions[0]);
      OverlapKept(Next(s, actions[0]), actions[1..]);
    }
  }

  /** A run that ends without a recorded overlap has none in its first step, nor after it. */
  lemma FirstOrderly(s: State, actions: seq<Action>)
    requires IsRun(s, actions) && actions != [] && !After(s, actions).overlapped
    ensures !OfOverlap(actions[0]) && !Next(s, actions[0]).overlapped
    ensures After(Next(s, actions[0]), actions[1..]) == After(s, actions)
  {
    hide Enabled, Next, OfOverlap;
    var s' := Next(s, actions[0]);
    OverlapRecorded(s, actions[0]);
    if s'.overlapped { OverlapKept(s', actions[1..]); }
  }

  lemma {:induction false} RunOk(s: State, actions: seq<Action>)
    requires Inv(s) && IsRun(s, actions) && !After(s, actions).overlapped
    ensures Inv(After(s, actions))
    decreases |actions|
  {
    hide Inv, Enabled, Next, OfOverlap;
    if actions != [] {
      FirstOrderly(s, actions);
      StepOk(s, actions[0]);
      RunOk(Next(s, actions[0]), actions[1..]);
    }
  }

  /** The invariant holds in every state reached without overlapping scale requests. */
  lemma InvAlways(s: State)
    requires Orderly(s)
    ensures Inv(s)
  {
    hide Inv;
    var actions :| ValidTemplate(s.tpl) && IsRun(Init(s.tpl), actions) && After(Init(s.tpl), actions) == s;
    InitOk(s.tpl);
    RunOk(Init(s.tpl), actions);
  }
}
