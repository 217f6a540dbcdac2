/** What the service's status tells, and what stands behind an ERROR acknowledgement. */
module ProtocolStatus {
  import opened Lists
  import opened DependencyGraph
  import opened Protocol
  import opened ProtocolInvariant
  import opened ProtocolPreservation
  import opened ProtocolManagerSteps
  import opened ProtocolSafety
  import opened ProtocolTheorems
  import opened ProtocolOutcomes

  // ---------- Acknowledgements and the status ----------

  /** An ERROR acknowledgement, whatever the state: the service is Failed, the VDU is errored, and nothing else on the
      orchestrator's lists moves. */
  lemma ErrorFails(s: State, a: Ack)
    requires Enabled(s, Deliver(a)) && a.status.Error?
    ensures var o, o' := s.orch, Next(s, Deliver(a)).orch;
            && o'.status.Failed? && o'.errored == o.errored + [a.vdu]
            && o'.configured == o.configured && o'.acks == o.acks && o'.pc == o.pc
  {
    hide AllIn, AnyIn, CanScale, NoDup;
  }

  /** A COMPLETE one: the server is counted for its VDU, the VDU is configured when as many are counted as it has servers,
      and neither the status nor the errors move. */
  lemma CompleteCounts(s: State, a: Ack)
    requires Enabled(s, Deliver(a)) && a.status.Complete?
    ensures var o, o' := s.orch, Next(s, Deliver(a)).orch;
            var counted := (if a.vdu in o.acks then o.acks[a.vdu] else []) + [a.inst];
            && o'.status == o.status && o'.errored == o.errored && o'.pc == o.pc
            && o'.acks == o.acks[a.vdu := counted]
            && o'.configured == o.configured + (if a.vdu in o.insts && |o.insts[a.vdu]| <= |counted| then [a.vdu] else [])
  {
    hide AllIn, AnyIn, CanScale, NoDup;
  }

  /** Outside creation every server has been counted, but for the new one of a VDU being scaled. */
  ghost predicate OthersCounted(o: Orch) {
    o.pc.Idle? || o.pc.Scaling? || o.pc.ScaleWaiting? ==>
      forall v, i :: v in o.insts && i in o.insts[v] ==> Accounted(o, v, i)
  }

  predicate Accounted(o: Orch, v: Vdu, i: Inst)
    requires v in o.insts && i in o.insts[v]
  {
    i in AcksOf(o.acks, v) || if v in Busy(o.pc) then i == o.insts[v][|o.insts[v]| - 1] else Tok(v, i) in o.failed
  }

  ghost predicate StatusFits(o: Orch, scales: nat) {
    match o.pc
    case Aborted => o.status.Failed?
    case Idle => o.status.Active? || (scales > 0 && o.status.InProgress?)
    case Scaling(v) => scales > 0 && o.status.InProgress? && v !in o.errored
    case ScaleWaiting(v) => scales > 0 && o.status == if v in o.errored then Failed else InProgress
    case _ => o.status == if o.errored != [] then Failed else Pending
  }

  ghost predicate StatusPast(s: State) {
    OthersCounted(s.orch) && (s.refused == 0 ==> StatusFits(s.orch, s.scales))
  }

  /** No ERROR acknowledgement is on its way once creation has ended, but one of the new server of the VDU waited for. */
  lemma ErrorsOnlyOfNew(s: State, a: Ack)
    requires Inv(s) && OthersCounted(s.orch) && a in s.net && a.status.Error?
    requires s.orch.pc.Idle? || s.orch.pc.Scaling? || s.orch.pc.ScaleWaiting?
    ensures s.orch.pc == ScaleWaiting(a.vdu)
  {
    var o, m, v, i := s.orch, s.mgr, a.vdu, a.inst;
    assert a == Ack(v, i, Error);
    hide InTable, TableOk;
    Parts(s);
    WeightOf(m, s.net, o.acks, o.failed, v, i);
    InCount(o.failed, Tok(v, i));
    InCount(AcksOf(o.acks, v), i);
    assert Known(m.drv, v, i);
    KnownLaunched(s.tpl, o.pc, o.insts, o.acks, s.sent, s.scaleMsgs, m.drv, m.nsConfig, v, i);
    assert Accounted(o, v, i);
    ServersDistinct(s.tpl, o, v);
    if o.pc.Scaling? { UntoldUnknown(s.tpl, o, s.sent, s.scaleMsgs, m.drv, m.nsConfig, v, i); }
  }

  lemma UntoldUnknown(t: Template, o: Orch, sent: seq<Conf>, scaleMsgs: seq<Conf>, drv: map<string, Drv>, ns: Conf, v: Vdu, i: Inst)
    requires LinkOk(t, o.pc, o.insts, o.acks, sent, scaleMsgs, drv, ns) && o.pc == Scaling(v)
    requires v in o.insts && NoDup(o.insts[v]) && o.insts[v] != [] && i == o.insts[v][|o.insts[v]| - 1]
    ensures !Known(drv, v, i)
  {
    assert v in Untold(o.pc, scaleMsgs);
    assert i !in o.insts[v][..|o.insts[v]| - 1];
  }

  lemma PastCreation(s: State, a: Action)
    requires Inv(s) && Enabled(s, a) && OfCreation(a) && StatusPast(s)
    ensures StatusPast(Next(s, a))
  {
    hide AcksOf, AllIn, Deps, Inv, NewConf, NoDup, Ready, Ungenerated;
    var o := s.orch;
    if a.Decide? && |s.tpl.specs| == |o.configured| {
      Parts(s);
      AllAcked(s);
    } else if a.Raise? {
      RaisedHasErrored(o);
    }
  }

  lemma RaisedHasErrored(o: Orch)
    requires o.pc.Waiting? && AnyIn(o.pc.wave, o.errored)
    ensures o.errored != []
  {
  }

  lemma AllAcked(s: State)
    requires Inv(s) && s.orch.pc.Deciding? && |s.tpl.specs| == |s.orch.configured|
    ensures forall v, i :: v in s.orch.insts && i in s.orch.insts[v] ==> i in AcksOf(s.orch.acks, v)
    ensures s.orch.errored == []
  {
    var o := s.orch;
    hide *;
    Parts(s);
    AllConfigured(s.tpl, o);
    forall v, i | v in o.insts && i in o.insts[v] ensures i in AcksOf(o.acks, v) {
      assert v in o.insts.Keys && v in ToSet(o.configured);
      InSet(o.configured, v);
      ConfiguredKnown(s, v);
    }
    if o.errored != [] {
      var v := o.errored[0];
      var i := ErroredNotConfigured(s, v);
      assert v in o.insts.Keys && v in ToSet(o.configured);
      InSet(o.configured, v);
    }
  }

  lemma InSet<T>(list: seq<T>, x: T)
    ensures x in ToSet(list) <==> x in list
  {
  }

  /** When the request raises it is the new server that has failed. */
  lemma NewFailed(s: State)
    requires Inv(s) && OthersCounted(s.orch) && s.orch.pc.ScaleWaiting? && s.orch.pc.vdu in s.orch.errored
    ensures var v := s.orch.pc.vdu;
            v in s.orch.insts && s.orch.insts[v] != [] && Tok(v, s.orch.insts[v][|s.orch.insts[v]| - 1]) in s.orch.failed
  {
    hide AcksOf, Inv;
    var v := s.orch.pc.vdu;
    var i := ErroredNotConfigured(s, v);
    assert Accounted(s.orch, v, i);
  }

  lemma PastScaling(s: State, a: Action)
    requires Inv(s) && Enabled(s, a) && OfScaling(a) && StatusPast(s)
    ensures StatusPast(Next(s, a))
  {
    hide AcksOf, BeginScale, CanScale, Deps, Inv, NewConf, NoDup, RemoveAll, RemoveFirst, Running, ScaleVdus, Ungenerated;
    var o := s.orch;
    match a
    case Scale(v, name) => PastBegin(s, v, name);
    case ScaleDone => ConfiguredKnown(s, o.pc.vdu);
    case ScaleRaise => NewFailed(s);
    case _ =>
  }

  lemma PastBegin(s: State, v: Vdu, name: Inst)
    requires Inv(s) && s.orch.pc.Idle? && CanScale(s.tpl, s.orch, v) && OthersCounted(s.orch)
    ensures OthersCounted(BeginScale(s.orch, v, name)) && StatusFits(BeginScale(s.orch, v, name), s.scales + 1)
  {
    hide AcksOf, HasDependents, Inv, RemoveAll, RemoveFirst;
    ConfiguredKnown(s, v);
    if v in s.orch.errored { var i := ErroredNotConfigured(s, v); }
    var o, o' := s.orch, BeginScale(s.orch, v, name);
    forall u, i | u in o'.insts && i in o'.insts[u] ensures Accounted(o', u, i) {
      if u != v || i != name { assert Accounted(o, u, i); }
    }
  }

  lemma PastCounting(s: State, a: Ack)
    requires Inv(s) && Enabled(s, Deliver(a)) && StatusPast(s)
    ensures StatusPast(Next(s, Deliver(a)))
  {
    hide AcksOf, Enabled, Inv, Next, StatusFits;
    var s' := Next(s, Deliver(a));
    var o, o' := s.orch, s'.orch;
    DeliverOnly(s, a);
    MoreAccounted(o, a);
    if a.status.Error? {
      if o.pc.Idle? || o.pc.Scaling? || o.pc.ScaleWaiting? { ErrorsOnlyOfNew(s, a); }
      ErrorFits(o, s.scales, a);
    } else {
      CompleteFits(o, s.scales, a);
    }
  }

  lemma DeliverOnly(s: State, a: Ack)
    requires Enabled(s, Deliver(a))
    ensures a in s.net && Next(s, Deliver(a)) == s.(net := s.net - multiset{a}, orch := RecordAck(s.orch, a))
  {
    hide RecordAck;
  }

  lemma MoreAccounted(o: Orch, a: Ack)
    requires OthersCounted(o)
    ensures OthersCounted(RecordAck(o, a))
  {
    var o' := RecordAck(o, a);
    if o.pc.Idle? || o.pc.Scaling? || o.pc.ScaleWaiting? {
      forall v, i | v in o'.insts && i in o'.insts[v] ensures Accounted(o', v, i) {
        assert Accounted(o, v, i);
      }
    }
  }

  lemma ErrorFits(o: Orch, scales: nat, a: Ack)
    requires a.status.Error? && (o.pc.Idle? || o.pc.Scaling? || o.pc.ScaleWaiting? ==> o.pc == ScaleWaiting(a.vdu))
    ensures StatusFits(o, scales) ==> StatusFits(RecordAck(o, a), scales)
  {
  }

  lemma CompleteFits(o: Orch, scales: nat, a: Ack)
    requires a.status.Complete?
    ensures StatusFits(o, scales) ==> StatusFits(RecordAck(o, a), scales)
  {
  }

  lemma PastElsewhere(s: State, a: Action)
    requires Enabled(s, a) && !OfCreation(a) && !OfScaling(a) && !OfOverlap(a) && !a.Deliver?
    ensures var s' := Next(s, a); s'.orch == s.orch && s'.scales == s.scales && s'.refused == s.refused
  {
    hide AllIn, AnyIn, CanScale, Dispatch, NoDup, Register, Running, ScanEntry, StartsWorker, WorkerRecords;
  }

  lemma PastStep(s: State, a: Action)
    requires Inv(s) && Enabled(s, a) && !OfOverlap(a) && StatusPast(s)
    ensures StatusPast(Next(s, a))
  {
    hide Enabled, Inv, Next, OfCreation, OfOverlap, OfScaling, OthersCounted, StatusFits;
    if OfCreation(a) {
      PastCreation(s, a);
    } else if OfScaling(a) {
      PastScaling(s, a);
    } else if a.Deliver? {
      PastCounting(s, a.ack);
    } else {
      PastElsewhere(s, a);
    }
  }

  lemma {:induction false} PastRun(s: State, actions: seq<Action>)
    requires Inv(s) && IsRun(s, actions) && !After(s, actions).overlapped && StatusPast(s)
    ensures StatusPast(After(s, actions))
    decreases |actions|
  {
    hide Inv, Enabled, Next, OfOverlap, StatusPast;
    if actions != [] {
      FirstOrderly(s, actions);
      StepOk(s, actions[0]);
      PastStep(s, actions[0]);
      PastRun(Next(s, actions[0]), actions[1..]);
    }
  }

  lemma PastAlways(s: State)
    requires Orderly(s)
    ensures StatusPast(s)
  {
    hide Inv, Ready, Deps;
    var actions :| ValidTemplate(s.tpl) && IsRun(Init(s.tpl), actions) && After(Init(s.tpl), actions) == s;
    InitOk(s.tpl);
    assert StatusPast(Init(s.tpl));
    PastRun(Init(s.tpl), actions);
  }

  /** Until a scale request is refused the status is exactly what the orchestrator's place and its errors say. A service
      being created is Failed when a server was acknowledged ERROR, or the creation has ended early, and Pending
      otherwise; one whose VDU is being scaled is in progress until that VDU errors; and an idle one is ACTIVE, or in
      progress between two VDUs of a request. */
  lemma StatusExact(s: State)
    requires Orderly(s) && s.refused == 0
    ensures var o := s.orch;
            match o.pc
            case Aborted => o.status.Failed?
            case Idle => o.status.Active? || (s.scales > 0 && o.status.InProgress?)
            case Scaling(v) => o.status.InProgress?
            case ScaleWaiting(v) => o.status == if v in o.errored then Failed else InProgress
            case _ => o.status == if o.errored != [] then Failed else Pending
    ensures s.scales == 0 && s.orch.errored != [] ==> s.orch.status.Failed?
  {
    PastAlways(s);
    if s.scales == 0 && s.orch.errored != [] && s.orch.status.Active? {
      ActiveMeansConfigured(s);
    }
    if s.scales == 0 { CreatedAlways(s); }
  }

  /** Outside creation every server has been counted, acknowledged COMPLETE or ERROR, but for the new one of a VDU being
      scaled. */
  lemma CountedOutsideCreation(s: State, v: Vdu, i: Inst)
    requires Orderly(s) && (s.orch.pc.Idle? || s.orch.pc.Scaling? || s.orch.pc.ScaleWaiting?)
    requires v in s.orch.insts && i in s.orch.insts[v]
    ensures i in AcksOf(s.orch.acks, v) || Tok(v, i) in s.orch.failed
            || ((s.orch.pc == Scaling(v) || s.orch.pc == ScaleWaiting(v)) && i == s.orch.insts[v][|s.orch.insts[v]| - 1])
  {
    hide Orderly;
    PastAlways(s);
    assert Accounted(s.orch, v, i);
  }

  // ---------- How often a VDU is on `conf_generated` ----------

  /** How often a VDU of the list is on it: once when it was launched in the first round, and twice otherwise. */
  ghost predicate TimesGenerated(generated: seq<Vdu>, launchedIn: map<Vdu, nat>) {
    forall v :: multiset(generated)[v] ==
                if v !in generated then 0 else if v in launchedIn && launchedIn[v] == 0 then 1 else 2
  }

  lemma GeneratedLaunch(t: Template, o: Orch, done: seq<Vdu>, v: Vdu, todo: seq<Vdu>)
    requires OrchOk(t, o) && o.pc == Launching(done, [v] + todo) && TimesGenerated(o.confGenerated, o.launchedIn)
    ensures TimesGenerated(o.confGenerated, o.launchedIn[v := o.round])
  {
    var wave := done + ([v] + todo);
    assert wave[|done|] == v && v in ToSet(wave);
    assert v !in Closure(Deps(t), o.round);
    InSet(o.confGenerated, v);
  }

  lemma LaunchedThisRound(t: Template, o: Orch, done: seq<Vdu>, v: Vdu)
    requires OrchOk(t, o) && o.pc == Launching(done, []) && v in done
    ensures v in o.launchedIn && o.launchedIn[v] == o.round
  {
    hide Closure, DepsConfigured, ErrorsOk, ListsOk, NoDup, TopoOrder, Wave;
    assert done + [] == done && v in ToSet(done);
    assert v in ToSet(o.deployed) by { OrchSend(t, o, done); }
    WavesDisjoint(Deps(t), v, o.launchedIn[v], o.round);
  }

  lemma GeneratedSend(t: Template, o: Orch, done: seq<Vdu>)
    requires OrchOk(t, o) && o.pc == Launching(done, []) && TimesGenerated(o.confGenerated, o.launchedIn)
    ensures TimesGenerated(WaveSent(o, done).confGenerated, o.launchedIn)
  {
    var u, extra := Ungenerated(o.deployed, o.confGenerated), if o.round > 0 then done else [];
    var all := o.confGenerated + u + extra;
    WaveListed(t, o, done);
    forall v ensures multiset(all)[v] == if v !in all then 0 else if v in o.launchedIn && o.launchedIn[v] == 0 then 1 else 2 {
      CountNoDup(u, v);
      CountNoDup(done, v);
      assert multiset(all)[v] == multiset(o.confGenerated)[v] + multiset(u)[v] + multiset(extra)[v];
      assert v in all <==> v in o.confGenerated || v in u || v in extra;
      if v in done { LaunchedThisRound(t, o, done, v); }
    }
  }

  lemma WaveListed(t: Template, o: Orch, done: seq<Vdu>)
    requires OrchOk(t, o) && o.pc == Launching(done, [])
    ensures NoDup(done) && NoDup(Ungenerated(o.deployed, o.confGenerated))
    ensures forall v :: v in Ungenerated(o.deployed, o.confGenerated) <==> v in done
    ensures forall v :: v in done ==> v !in o.confGenerated
  {
    OrchSend(t, o, done);
    UngeneratedMembers(o.deployed, o.confGenerated);
    assert done + [] == done;
    forall v ensures v in done <==> v in o.deployed && v !in o.confGenerated {
      InSet(done, v);
      InSet(o.deployed, v);
      InSet(o.confGenerated, v);
    }
  }

  lemma GeneratedCreation(s: State, a: Action)
    requires Inv(s) && Enabled(s, a) && OfCreation(a) && TimesGenerated(s.orch.confGenerated, s.orch.launchedIn)
    ensures TimesGenerated(Next(s, a).orch.confGenerated, Next(s, a).orch.launchedIn)
  {
    hide AllIn, AnyIn, Closure, Deps, Inv, NewConf, NoDup, OrchOk, Ready, TimesGenerated, Ungenerated;
    var o := s.orch;
    if a.Launch? {
      Parts(s);
      assert o.pc.todo == [o.pc.todo[0]] + o.pc.todo[1..];
      GeneratedLaunch(s.tpl, o, o.pc.done, o.pc.todo[0], o.pc.todo[1..]);
    } else if a.SendConf? {
      Parts(s);
      assert o.pc == Launching(o.pc.done, []);
      GeneratedSend(s.tpl, o, o.pc.done);
    }
  }

  lemma ScalingGenerated(s: State, a: Action)
    requires Enabled(s, a) && OfScaling(a) && Requests(Next(s, a)) == 0 && !s.orch.pc.Scaling?
    ensures Next(s, a).orch.confGenerated == s.orch.confGenerated && Next(s, a).orch.launchedIn == s.orch.launchedIn
  {
    hide BeginScale, CanScale, DropScaled, NewConf, NoDup, Running, ScaleVdus, Ungenerated;
  }

  lemma SameGenerated(s: State, a: Action)
    requires Enabled(s, a) && !OfCreation(a) && !OfOverlap(a) && Requests(Next(s, a)) == 0 && !s.orch.pc.Scaling?
    ensures Next(s, a).orch.confGenerated == s.orch.confGenerated && Next(s, a).orch.launchedIn == s.orch.launchedIn
  {
    hide Enabled, Next, OfCreation, OfOverlap, OfScaling, Requests;
    if OfScaling(a) {
      ScalingGenerated(s, a);
    } else if a.Deliver? {
      DeliverOnly(s, a.ack);
    } else {
      PastElsewhere(s, a);
    }
  }

  lemma GeneratedStep(s: State, a: Action)
    requires Inv(s) && Enabled(s, a) && Created(s.tpl, s.orch, 0) && Requests(Next(s, a)) == 0 && !OfOverlap(a)
    requires TimesGenerated(s.orch.confGenerated, s.orch.launchedIn)
    ensures TimesGenerated(Next(s, a).orch.confGenerated, Next(s, a).orch.launchedIn)
  {
    hide Closure, Enabled, Inv, Next, OfCreation, OfOverlap, Requests, TimesGenerated;
    if OfCreation(a) { GeneratedCreation(s, a); } else { SameGenerated(s, a); }
  }

  lemma {:induction false} GeneratedRun(s: State, actions: seq<Action>)
    requires Inv(s) && IsRun(s, actions) && !After(s, actions).overlapped && Created(s.tpl, s.orch, Requests(s))
    requires Requests(s) == 0 ==> TimesGenerated(s.orch.confGenerated, s.orch.launchedIn)
    ensures var e := After(s, actions);
            Requests(s) <= Requests(e) && (Requests(e) == 0 ==> TimesGenerated(e.orch.confGenerated, e.orch.launchedIn))
    decreases |actions|
  {
    hide Created, Enabled, Inv, Next, OfOverlap, Requests, TimesGenerated;
    if actions != [] {
      var a := actions[0];
      FirstOrderly(s, actions);
      StepOk(s, a);
      SameTemplate(s, a);
      CreatedStep(s, a);
      RequestsGrow(s, a);
      if Requests(Next(s, a)) == 0 { GeneratedStep(s, a); }
      GeneratedRun(Next(s, a), actions[1..]);
    }
  }

  lemma RequestsGrow(s: State, a: Action)
    requires Enabled(s, a)
    ensures Requests(s) <= Requests(Next(s, a))
  {
    hide AllIn, AnyIn, BeginScale, CanScale, Decision, Dispatch, DropScaled, LaunchVdu, NewConf, NoDup, RecordAck, Register, Running,
         ScaleVdus, ScanEntry, StartsWorker, Ungenerated, WorkerRecords;
  }

  /** Before any scale request a VDU in a message is on `conf_generated` once if it is of the first round, and twice if it
      is of a later one: those the loop appends again. */
  lemma GeneratedOnceOrTwice(s: State, v: Vdu)
    requires Orderly(s) && Requests(s) == 0
    ensures multiset(s.orch.confGenerated)[v] ==
            if v !in s.orch.confGenerated then 0 else if v in s.orch.launchedIn && s.orch.launchedIn[v] == 0 then 1 else 2
  {
    hide Inv, Closure, Ready;
    var actions :| ValidTemplate(s.tpl) && IsRun(Init(s.tpl), actions) && After(Init(s.tpl), actions) == s;
    InitOk(s.tpl);
    assert Created(s.tpl, InitOrch(s.tpl), 0);
    GeneratedRun(Init(s.tpl), actions);
  }

  // ---------- An ERROR acknowledgement is earned, too ----------

  /** The servers whose driver call did not go well, or could not be made for want of a management address. */
  ghost function FailedCalls(s: State, actions: seq<Action>): set<Tok>
    requires IsRun(s, actions)
    decreases |actions|
  {
    if actions == [] then {} else FailedIn(s, actions[0]) + FailedCalls(Next(s, actions[0]), actions[1..])
  }

  ghost function FailedIn(s: State, a: Action): set<Tok> {
    var m := s.mgr;
    if a.Finish? && !WentWell(a.out) && a.id in m.table then {m.table[a.id].tok}
    else if a.DispatchNext? && !a.mgmtIp && m.todo != [] && HasDriver(s.tpl, m.todo[0].vdu) then {m.todo[0]}
    else {}
  }

  /** Bad results in the table and ERROR acknowledgements belong to `bad`; no server without a driver is among them. */
  ghost predicate Blamed(t: Template, table: map<ThreadId, Entry>, net: multiset<Ack>, failed: seq<Tok>, bad: set<Tok>) {
    && (forall id :: id in table ==> HasDriver(t, table[id].tok.vdu))
    && (forall id :: id in table && table[id].result.Result? && StatusOf(table[id].result.text).Error? ==> table[id].tok in bad)
    && (forall a :: a in net && a.status.Error? ==> Tok(a.vdu, a.inst) in bad)
    && (forall tok :: tok in failed ==> tok in bad)
    && (forall tok :: tok in bad ==> HasDriver(t, tok.vdu))
  }

  lemma BlamedDispatch(t: Template, m: Manager, net: multiset<Ack>, failed: seq<Tok>, bad: set<Tok>, mgmtIp: bool)
    requires Blamed(t, m.table, net, failed, bad) && m.todo != []
    requires var v := m.todo[0].vdu; v.name in m.drv ==> m.drv[v.name].driver == HasDriver(t, v)
    ensures var r := Dispatch(m, mgmtIp);
            Blamed(t, r.m.table, net + multiset(r.acks), failed,
                   bad + if !mgmtIp && HasDriver(t, m.todo[0].vdu) then {m.todo[0]} else {})
  {
    var r, tok := Dispatch(m, mgmtIp), m.todo[0];
    assert tok == Tok(tok.vdu, tok.inst);
    forall a | a in net + multiset(r.acks) ensures a in net || a in r.acks {
    }
  }

  lemma BlamedScan(t: Template, m: Manager, net: multiset<Ack>, failed: seq<Tok>, bad: set<Tok>, id: ThreadId)
    requires Blamed(t, m.table, net, failed, bad) && m.daemon.Scanning?
    ensures var r := ScanEntry(m, id); Blamed(t, r.m.table, net + multiset(r.acks), failed, bad)
  {
    var r := ScanEntry(m, id);
    forall a | a in net + multiset(r.acks) ensures a in net || a in r.acks {
    }
    if id in m.table {
      var tok := m.table[id].tok;
      assert tok == Tok(tok.vdu, tok.inst);
    }
  }

  lemma BlamedRecord(t: Template, m: Manager, net: multiset<Ack>, failed: seq<Tok>, bad: set<Tok>, id: ThreadId, out: Outcome)
    requires Blamed(t, m.table, net, failed, bad)
    ensures Blamed(t, WorkerRecords(m, id, out).table, net, failed,
                   bad + if !WentWell(out) && id in m.table then {m.table[id].tok} else {})
  {
    StatusOfOutcome(out);
  }

  lemma BlamedArrives(t: Template, table: map<ThreadId, Entry>, net: multiset<Ack>, o: Orch, bad: set<Tok>, a: Ack)
    requires Blamed(t, table, net, o.failed, bad) && a in net
    ensures Blamed(t, table, net - multiset{a}, RecordAck(o, a).failed, bad)
  {
    assert forall b :: b in net - multiset{a} ==> b in net;
  }

  lemma BlamedStep(s: State, a: Action, bad: set<Tok>)
    requires DistinctNames(s.tpl) && DriversOk(s) && Enabled(s, a) && Blamed(s.tpl, s.mgr.table, s.net, s.orch.failed, bad)
    ensures var s' := Next(s, a); Blamed(s'.tpl, s'.mgr.table, s'.net, s'.orch.failed, bad + FailedIn(s, a))
  {
    var o, m := s.orch, s.mgr;
    hide AllIn, AllSaid, AnyIn, BeginScale, Blamed, CanScale, Decision, Dispatch, DistinctNames, DropScaled, HasDriver, KeptOk,
         LaunchedOk, LaunchVdu, NewConf, NoDup, RecordAck, Register, Running, ScaleVdus, ScanEntry, StartsWorker,
         Ungenerated, WentWell, WorkerRecords;
    assert bad + {} == bad;
    if a.DispatchNext? {
      assert m.todo != [];
      QueuedDriver(s.tpl, m);
      BlamedDispatch(s.tpl, m, s.net, o.failed, bad, a.mgmtIp);
    } else if a.Scan? {
      assert m.daemon.Scanning?;
      BlamedScan(s.tpl, m, s.net, o.failed, bad, a.entry);
    } else if a.Finish? {
      BlamedRecord(s.tpl, m, s.net, o.failed, bad, a.id, a.out);
    } else if a.Deliver? {
      assert a.ack in s.net;
      BlamedArrives(s.tpl, m.table, s.net, o, bad, a.ack);
    } else {
      RecordsElsewhere(s, a);
    }
  }

  lemma {:induction false} BlamedRun(s: State, actions: seq<Action>, bad: set<Tok>)
    requires DistinctNames(s.tpl) && DriversOk(s) && IsRun(s, actions)
    requires Blamed(s.tpl, s.mgr.table, s.net, s.orch.failed, bad)
    ensures var e := After(s, actions); Blamed(e.tpl, e.mgr.table, e.net, e.orch.failed, bad + FailedCalls(s, actions))
    decreases |actions|
  {
    hide Blamed, DistinctNames, DriversOk, Enabled, FailedIn, Next;
    if actions != [] {
      var a, s' := actions[0], Next(s, actions[0]);
      DriversStep(s, a);
      SameTemplate(s, a);
      BlamedStep(s, a, bad);
      BlamedRun(s', actions[1..], bad + FailedIn(s, a));
      assert bad + FailedIn(s, a) + FailedCalls(s', actions[1..]) == bad + FailedCalls(s, actions);
    } else {
      assert bad + {} == bad;
    }
  }

  /** In every run, overlapping scale requests included, a server is acknowledged ERROR only if it has a driver and a
      driver call on it raised or answered with ERROR, or it had no management address to call the driver with. */
  lemma ErrorIsEarned(t: Template, actions: seq<Action>, v: Vdu, i: Inst)
    requires ValidTemplate(t) && IsRun(Init(t), actions)
    requires var e := After(Init(t), actions); Ack(v, i, Error) in e.net || Tok(v, i) in e.orch.failed
    ensures HasDriver(t, v) && Tok(v, i) in FailedCalls(Init(t), actions)
  {
    var s := Init(t);
    assert DriversOk(s);
    assert Blamed(s.tpl, s.mgr.table, s.net, s.orch.failed, {});
    hide After, FailedCalls, IsRun;
    BlamedRun(s, actions, {});
    RunTemplate(s, actions);
    assert {} + FailedCalls(s, actions) == FailedCalls(s, actions);
  }

  // ---------- The end of an overlapping request ----------

  /** A request that runs beside the orchestrator's thread and waits can end exactly when its VDU is configured or errored.
      It ends by making the service ACTIVE, whatever the thread is doing, and leaves the thread and the lists as they are. */
  lemma OverlapEnds(s: State, k: nat)
    requires k < |s.others| && s.others[k].ScaleWaiting?
    ensures Enabled(s, OverlapEnd(k)) <==> s.others[k].vdu in s.orch.configured || s.others[k].vdu in s.orch.errored
    ensures Enabled(s, OverlapEnd(k)) ==>
              var s' := Next(s, OverlapEnd(k));
              && s'.orch == s.orch.(status := Active) && |s'.others| == |s.others| - 1
              && multiset(s'.others) + multiset{s.others[k]} == multiset(s.others)
  {
    assert s.others == s.others[..k] + [s.others[k]] + s.others[k + 1..];
  }
}
