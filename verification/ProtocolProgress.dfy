/** The environment of the orchestrator's waiting loop: it comes to rest, and at rest every server was counted. */
module ProtocolProgress {
  import opened Lists
  import opened DependencyGraph
  import opened Protocol
  import opened ProtocolInvariant
  import opened ProtocolPreservation
  import opened ProtocolManagerSteps
  import opened ProtocolSafety
  import opened ProtocolTheorems
  import opened ProtocolScaling

  /** The actions of the manager, of its threads and of the channel. */
  predicate OfEnvironment(a: Action) {
    !OfCreation(a) && !OfOverlap(a) && (!OfScaling(a) || a.HandleScale?)
  }

  /** An environment action that is not a mere repetition of a handled configuration message. */
  predicate Productive(s: State, a: Action) {
    && OfEnvironment(a) && Enabled(s, a)
    && (a.HandleConf? ==> !Handled(s.mgr.drv, s.sent[a.k]))
  }

  /** Nothing is left to do outside the orchestrator. */
  predicate Quiet(s: State) {
    && s.mgr.started && s.mgr.daemon.Blocked?
    && (forall conf :: conf in s.sent ==> Handled(s.mgr.drv, conf))
    && s.scaleMsgs == [] && s.mgr.todo == [] && s.mgr.live == {} && s.net == multiset{}
  }

  // ---------- Every productive action brings the environment closer to rest ----------

  function ConfNames(conf: Conf): set<string> {
    set c | c in conf :: c.vdu.name
  }

  function SentNames(sent: seq<Conf>): set<string> {
    if sent == [] then {} else ConfNames(sent[0]) + SentNames(sent[1..])
  }

  /** What the manager has still to be told. */
  function Untaught(s: State): nat {
    (if s.mgr.started then 0 else 1) + |SentNames(s.sent) - s.mgr.drv.Keys| + |s.scaleMsgs|
  }

  function Phase(daemon: Daemon): nat {
    match daemon
    case NotStarted => 4
    case Notified => 3
    case Outside => 2
    case Scanning(_) => 1
    case Blocked => 0
  }

  function Left(daemon: Daemon): nat {
    if daemon.Scanning? then |daemon.left| else 0
  }

  predicate Closer(s': State, s: State) {
    var m', m := s'.mgr, s.mgr;
    || Untaught(s') < Untaught(s)
    || (Untaught(s') == Untaught(s) &&
        (|m'.todo| < |m.todo|
         || (|m'.todo| == |m.todo| &&
             (|m'.live| < |m.live|
              || (|m'.live| == |m.live| &&
                  (Phase(m'.daemon) < Phase(m.daemon)
                   || (Phase(m'.daemon) == Phase(m.daemon) &&
                       (Left(m'.daemon) < Left(m.daemon)
                        || (Left(m'.daemon) == Left(m.daemon) && |s'.net| < |s.net|)))))))))
  }

  lemma {:induction false} NamesSent(sent: seq<Conf>, conf: Conf)
    requires conf in sent
    ensures ConfNames(conf) <= SentNames(sent)
  {
    if conf != sent[0] {
      assert conf in sent[1..];
      NamesSent(sent[1..], conf);
    }
  }

  lemma FewerUntaught(names: set<string>, known: set<string>, known': set<string>)
    requires known <= known'
    ensures |names - known'| <= |names - known|
    ensures (exists n :: n in names && n !in known && n in known') ==> |names - known'| < |names - known|
  {
    SubsetCard(names - known', names - known);
    if n :| n in names && n !in known && n in known' {
      assert n in names - known && n !in names - known';
    }
  }

  lemma TaughtMore(s: State, s': State, conf: Conf)
    requires conf in s.sent && s'.mgr == Register(s.mgr, conf) && s'.sent == s.sent && s'.scaleMsgs == s.scaleMsgs
    requires !s.mgr.started || !Handled(s.mgr.drv, conf)
    ensures Untaught(s') < Untaught(s)
  {
    RegisterHandles(s.mgr, conf);
    NamesSent(s.sent, conf);
    FewerUntaught(SentNames(s.sent), s.mgr.drv.Keys, s'.mgr.drv.Keys);
    if !Handled(s.mgr.drv, conf) {
      var c :| c in conf && c.vdu.name !in s.mgr.drv;
      assert c.vdu.name in ConfNames(conf) && c.vdu.name in s'.mgr.drv.Keys;
    }
  }

  lemma {:induction false} ScaleKeepsStarted(m: Manager, conf: Conf)
    ensures ScaleVdus(m, conf).started == m.started
    decreases |conf|
  {
    if conf != [] { ScaleKeepsStarted(ScaleOne(m, conf[0]), conf[1..]); }
  }

  lemma ProductiveMessages(s: State, a: Action)
    requires Productive(s, a) && OfMessages(a)
    ensures Closer(Next(s, a), s)
  {
    hide AllIn, AnyIn, Dispatch, Handled, HasDependents, NoDup, ScaleVdus, SentNames, Ungenerated;
    match a
    case StartManager => TaughtMore(s, Next(s, a), s.sent[0]);
    case HandleConf(k) => TaughtMore(s, Next(s, a), s.sent[k]);
    case HandleScale =>
      ScaleKeepsKeys(s.mgr, s.scaleMsgs[0]);
      ScaleKeepsStarted(s.mgr, s.scaleMsgs[0]);
  }

  lemma DispatchCloser(m: Manager, mgmtIp: bool)
    requires m.todo != []
    ensures var m' := Dispatch(m, mgmtIp).m;
            m'.started == m.started && m'.drv.Keys == m.drv.Keys && |m'.todo| < |m.todo|
  {
  }

  lemma ScanCloser(m: Manager, id: ThreadId)
    requires m.daemon.Scanning? && id in m.daemon.left
    ensures var m' := ScanEntry(m, id).m;
            && m'.started == m.started && m'.drv.Keys == m.drv.Keys && m'.todo == m.todo && m'.live == m.live
            && m'.daemon.Scanning? && |m'.daemon.left| < |m.daemon.left|
  {
  }

  lemma RecordCloser(m: Manager, id: ThreadId, out: Outcome)
    requires id in m.live
    ensures var m' := WorkerRecords(m, id, out);
            m'.started == m.started && m'.drv == m.drv && m'.todo == m.todo && |m'.live| < |m.live|
  {
  }

  lemma ProductiveWorkers(s: State, a: Action)
    requires Productive(s, a) && OfWorkers(a)
    ensures Closer(Next(s, a), s)
  {
    hide AllIn, AnyIn, BeginScale, CanScale, Decision, Dispatch, DropScaled, Handled, LaunchVdu, NewConf, NoDup, RecordAck,
         Register, Running, ScaleVdus, ScanEntry, SentNames, StartsWorker, Ungenerated, WorkerRecords;
    match a
    case DispatchNext(mgmtIp) => DispatchCloser(s.mgr, mgmtIp);
    case Scan(id) => ScanCloser(s.mgr, id);
    case Finish(id, out) => RecordCloser(s.mgr, id, out);
  }

  lemma ProductiveDaemon(s: State, a: Action)
    requires Productive(s, a) && !OfMessages(a) && !OfWorkers(a)
    ensures Closer(Next(s, a), s)
  {
    hide AllIn, AnyIn, BeginScale, CanScale, Decision, Dispatch, DropScaled, Handled, LaunchVdu, NewConf, NoDup, RecordAck,
         Register, Running, ScaleVdus, ScanEntry, SentNames, StartsWorker, Ungenerated, WorkerRecords;
  }

  /** The environment cannot keep itself busy. */
  lemma ProductiveCloser(s: State, a: Action)
    requires Productive(s, a)
    ensures Closer(Next(s, a), s)
  {
    hide *;
    if OfMessages(a) {
      ProductiveMessages(s, a);
    } else if OfWorkers(a) {
      ProductiveWorkers(s, a);
    } else {
      ProductiveDaemon(s, a);
    }
  }

  // ---------- At rest ----------

  lemma Movable(s: State) returns (a: Action)
    requires s.sent != [] && !Quiet(s) && (!s.mgr.started ==> s.mgr == NewManager)
    ensures Productive(s, a)
  {
    hide AllIn, AnyIn, CanScale, NoDup;
    var m := s.mgr;
    if !m.started { a := StartManager; }
    else if m.todo != [] { a := DispatchNext(false); }
    else if m.daemon.NotStarted? { a := StartDaemon; }
    else if exists conf :: conf in s.sent && !Handled(m.drv, conf) {
      var conf :| conf in s.sent && !Handled(m.drv, conf);
      var k :| 0 <= k < |s.sent| && s.sent[k] == conf;
      a := HandleConf(k);
    }
    else if s.scaleMsgs != [] { a := HandleScale; }
    else if m.daemon.Scanning? {
      if m.daemon.left == {} { a := Wait; } else { var id :| id in m.daemon.left; a := Scan(id); }
    }
    else if m.live != {} { var id :| id in m.live; a := Finish(id, Raised); }
    else if m.daemon.Outside? { a := Acquire; }
    else if m.daemon.Notified? { a := Wake; }
    else { var ack :| ack in s.net; a := Deliver(ack); }
  }

  lemma FreshManager(m: Manager)
    requires TableOk(m)
    ensures !m.started ==> m == NewManager
  {
  }

  /** While a wave is waited for the environment either can move on or is at rest. */
  lemma MovesOrRests(s: State)
    requires Inv(s) && s.sent != []
    ensures Quiet(s) || exists a :: Productive(s, a)
  {
    hide *;
    Parts(s);
    FreshManager(s.mgr);
    if !Quiet(s) { var a := Movable(s); }
  }

  lemma {:induction false} SentHandled(drv: map<string, Drv>, sent: seq<Conf>, v: Vdu)
    requires (forall conf :: conf in sent ==> Handled(drv, conf)) && v in SentVdus(sent)
    ensures v.name in drv
  {
    SentHas(sent, v);
    var conf, c :| conf in sent && c in conf && c.vdu == v;
    assert Handled(drv, conf);
  }

  lemma QuietTable(m: Manager)
    requires TableOk(m) && m.daemon.Blocked? && m.live == {}
    ensures m.table == map[]
  {
    assert forall id :: id in m.table ==> id in m.live;
  }

  lemma QuietKnown(t: Template, pc: Pc, insts: map<Vdu, seq<Inst>>, acks: map<Vdu, seq<Inst>>, sent: seq<Conf>,
                   scaleMsgs: seq<Conf>, drv: map<string, Drv>, ns: Conf, v: Vdu, i: Inst)
    requires ValidTemplate(t) && LinkOk(t, pc, insts, acks, sent, scaleMsgs, drv, ns) && scaleMsgs == []
    requires pc.Waiting? || pc.ScaleWaiting?
    requires v in insts && i in insts[v] && v in t.specs && v in SentVdus(sent) && v.name in drv
    ensures Known(drv, v, i)
  {
    assert SameName(drv[v.name].vdu, v);
  }

  lemma LaunchedSent(t: Template, pc: Pc, insts: map<Vdu, seq<Inst>>, acks: map<Vdu, seq<Inst>>, sent: seq<Conf>,
                     scaleMsgs: seq<Conf>, drv: map<string, Drv>, ns: Conf, v: Vdu)
    requires LinkOk(t, pc, insts, acks, sent, scaleMsgs, drv, ns) && v in insts && (pc.Waiting? || pc.ScaleWaiting?)
    ensures v in SentVdus(sent)
  {
    assert v in insts.Keys;
  }

  /** At rest, every launched server has been acknowledged and counted. */
  lemma AllCountedAtRest(s: State, v: Vdu, i: Inst)
    requires Inv(s) && Quiet(s) && (s.orch.pc.Waiting? || s.orch.pc.ScaleWaiting?)
    requires v in s.orch.insts && i in s.orch.insts[v]
    ensures i in AcksOf(s.orch.acks, v) || Tok(v, i) in s.orch.failed
  {
    var t, o, m := s.tpl, s.orch, s.mgr;
    hide Handled, SentVdus, TableOk;
    Parts(s);
    LaunchedInTemplate(t, o, v);
    LaunchedSent(t, o.pc, o.insts, o.acks, s.sent, s.scaleMsgs, m.drv, m.nsConfig, v);
    SentHandled(m.drv, s.sent, v);
    QuietKnown(t, o.pc, o.insts, o.acks, s.sent, s.scaleMsgs, m.drv, m.nsConfig, v, i);
    QuietTable(m);
    WeightOf(m, s.net, o.acks, o.failed, v, i);
    InCount(o.failed, Tok(v, i));
    InCount(AcksOf(o.acks, v), i);
    assert !InTable(m.table, v, i);
  }

  lemma WaitedNotDropped(t: Template, o: Orch, v: Vdu)
    requires OrchOk(t, o)
    ensures o.pc.Waiting? ==> o.dropped == {}
    ensures o.pc.ScaleWaiting? ==> o.pc.vdu !in o.dropped
    ensures v in o.dropped ==> v in o.insts && o.insts[v] != []
  {
  }

  /** So a VDU without servers is the only kind that is then neither configured nor errored (a VDU dropped from the
      list by an earlier scale-out apart): exactly on those does the wait hang. */
  lemma DecidedAtRest(s: State, v: Vdu)
    requires Orderly(s) && Quiet(s) && (s.orch.pc.Waiting? || s.orch.pc.ScaleWaiting?) && v in s.orch.insts
    ensures v !in s.orch.configured && v !in s.orch.errored && v !in s.orch.dropped <==> s.orch.insts[v] == []
    ensures s.orch.pc.Waiting? || s.orch.pc.vdu == v ==> v !in s.orch.dropped
  {
    var o := s.orch;
    hide *;
    InvAlways(s);
    Parts(s);
    ListsMeanAcks(s, v);
    WaitedNotDropped(s.tpl, o, v);
    if v in o.errored {
      var i := ErroredNotConfigured(s, v);
      assert o.insts[v] != [];
    } else if v !in o.configured && v !in o.dropped && o.insts[v] != [] {
      var i :| i in o.insts[v] && i !in AcksOf(o.acks, v);
      AllCountedAtRest(s, v, i);
    }
  }

  lemma WaveFacts(t: Template, o: Orch, v: Vdu)
    requires OrchOk(t, o)
    ensures o.pc.Waiting? && v in o.pc.wave ==> v in o.deployed && v in o.insts
    ensures v in o.insts ==> v in t.specs && |o.insts[v]| >= t.specs[v].count
  {
    if o.pc.Waiting? && v in o.pc.wave {
      assert v in ToSet(o.pc.wave) && v in Closure(Deps(t), o.round + 1);
      assert v in ToSet(o.deployed);
    }
  }
}
