/** Repeated configuration messages are harmless, and scale-outs conserve what creation established. */
module ProtocolScaling {
  import opened Lists
  import opened DependencyGraph
  import opened Protocol
  import opened ProtocolInvariant
  import opened ProtocolPreservation
  import opened ProtocolManagerSteps
  import opened ProtocolSafety
  import opened ProtocolTheorems
  import opened ProtocolOutcomes

  // ---------- Repeated delivery of a configuration message ----------

  /** Every VDU the message names is already known to the manager. */
  predicate Handled(drv: map<string, Drv>, conf: Conf) {
    forall c :: c in conf ==> c.vdu.name in drv
  }

  lemma {:induction false} NothingNew(drv: map<string, Drv>, conf: Conf)
    requires Handled(drv, conf)
    ensures Extracted(drv, conf) == []
  {
    if conf != [] {
      assert conf[0] in conf && forall c :: c in conf[1..] ==> c in conf;
      NothingNew(drv, conf[1..]);
    }
  }

  lemma {:induction false} ExtractedCovers(drv: map<string, Drv>, conf: Conf, c: VduConf)
    requires c in conf
    ensures c.vdu.name in drv || exists e :: e in Extracted(drv, conf) && e.vdu.name == c.vdu.name
  {
    if c.vdu.name !in drv {
      var rest := conf[1..];
      if c == conf[0] && forall i :: 1 <= i < |conf| ==> conf[i].vdu.name != c.vdu.name {
        assert c in Extracted(drv, conf);
      } else {
        var later := if c == conf[0] then (var i :| 1 <= i < |conf| && conf[i].vdu.name == c.vdu.name; conf[i]) else c;
        ExtractedCovers(drv, rest, later);
        var e :| e in Extracted(drv, rest) && e.vdu.name == c.vdu.name;
        assert e in Extracted(drv, conf);
      }
    }
  }

  lemma {:induction false} AddedNames(drv: map<string, Drv>, news: Conf)
    ensures drv.Keys <= AddDrivers(drv, news).Keys
    ensures forall c :: c in news ==> c.vdu.name in AddDrivers(drv, news)
    decreases |news|
  {
    if news != [] {
      assert news == [news[0]] + news[1..];
      AddedNames(drv[news[0].vdu.name := Drv(news[0].vdu, news[0].insts, news[0].driver, [])], news[1..]);
    }
  }

  lemma RegisterHandles(m: Manager, conf: Conf)
    ensures Handled(Register(m, conf).drv, conf) && m.drv.Keys <= Register(m, conf).drv.Keys
  {
    var news := Extracted(m.drv, conf);
    AddedNames(m.drv, news);
    forall c | c in conf ensures c.vdu.name in Register(m, conf).drv {
      ExtractedCovers(m.drv, conf, c);
    }
  }

  lemma {:induction false} ScaleKeepsKeys(m: Manager, conf: Conf)
    ensures ScaleVdus(m, conf).drv.Keys == m.drv.Keys
    decreases |conf|
  {
    if conf != [] {
      assert ScaleOne(m, conf[0]).drv.Keys == m.drv.Keys;
      ScaleKeepsKeys(ScaleOne(m, conf[0]), conf[1..]);
    }
  }

  /** The manager forgets no VDU, and the channel no configuration message. */
  lemma KnowledgeGrows(s: State, a: Action)
    requires Enabled(s, a)
    ensures s.mgr.drv.Keys <= Next(s, a).mgr.drv.Keys && s.sent <= Next(s, a).sent
  {
    hide AddDrivers, AllIn, AnyIn, BeginScale, CanScale, Decision, DropScaled, Extracted, LaunchVdu, NewConf, NoDup, RecordAck,
         ScaleVdus, StartsWorker, Ungenerated;
    match a
    case StartManager => RegisterHandles(s.mgr, s.sent[0]);
    case HandleConf(k) => RegisterHandles(s.mgr, s.sent[k]);
    case HandleScale => ScaleKeepsKeys(s.mgr, s.scaleMsgs[0]);
    case _ =>
  }

  lemma {:induction false} KnowledgeGrowsOver(s: State, actions: seq<Action>)
    requires IsRun(s, actions)
    ensures s.mgr.drv.Keys <= After(s, actions).mgr.drv.Keys && s.sent <= After(s, actions).sent
    decreases |actions|
  {
    hide Enabled, Next;
    if actions != [] {
      KnowledgeGrows(s, actions[0]);
      KnowledgeGrowsOver(Next(s, actions[0]), actions[1..]);
    }
  }

  function Repeat(a: Action, n: nat): seq<Action> {
    seq(n, i requires 0 <= i < n => a)
  }

  function Copies(conf: Conf, n: nat): Conf {
    if n == 0 then [] else conf + Copies(conf, n - 1)
  }

  lemma HandledAgain(s: State, k: nat)
    requires Running(s.mgr) && k < |s.sent| && Handled(s.mgr.drv, s.sent[k])
    ensures Enabled(s, HandleConf(k))
    ensures Next(s, HandleConf(k)) == s.(mgr := s.mgr.(nsConfig := s.mgr.nsConfig + s.sent[k]))
  {
    NothingNew(s.mgr.drv, s.sent[k]);
    assert s.mgr.todo + [] == s.mgr.todo;
    assert Register(s.mgr, s.sent[k]) == s.mgr.(nsConfig := s.mgr.nsConfig + s.sent[k]);
  }

  lemma {:induction false} RepeatsOnlyStore(s: State, k: nat, n: nat)
    requires Running(s.mgr) && k < |s.sent| && Handled(s.mgr.drv, s.sent[k])
    ensures IsRun(s, Repeat(HandleConf(k), n))
    ensures After(s, Repeat(HandleConf(k), n)) == s.(mgr := s.mgr.(nsConfig := s.mgr.nsConfig + Copies(s.sent[k], n)))
    decreases n
  {
    var conf, acts := s.sent[k], Repeat(HandleConf(k), n);
    if n == 0 {
      assert acts == [] && s.mgr.nsConfig + [] == s.mgr.nsConfig;
    } else {
      HandledAgain(s, k);
      var s' := s.(mgr := s.mgr.(nsConfig := s.mgr.nsConfig + conf));
      RepeatsOnlyStore(s', k, n - 1);
      assert acts[0] == HandleConf(k) && acts[1..] == Repeat(HandleConf(k), n - 1);
      assert s.mgr.nsConfig + conf + Copies(conf, n - 1) == s.mgr.nsConfig + Copies(conf, n);
    }
  }

  /** However much happens in between, handling a configuration message again and again adds nothing but copies of it
      to the stored configuration: no driver entry, no queued server, no worker and no acknowledgement. */
  lemma DuplicateDelivery(s: State, k: nat, between: seq<Action>, n: nat)
    requires Enabled(s, HandleConf(k)) && IsRun(Next(s, HandleConf(k)), between)
    requires Running(After(Next(s, HandleConf(k)), between).mgr)
    ensures var e := After(Next(s, HandleConf(k)), between);
            && IsRun(e, Repeat(HandleConf(k), n))
            && After(e, Repeat(HandleConf(k), n)) == e.(mgr := e.mgr.(nsConfig := e.mgr.nsConfig + Copies(s.sent[k], n)))
  {
    var s' := Next(s, HandleConf(k));
    var e := After(s', between);
    RegisterHandles(s.mgr, s.sent[k]);
    assert s'.sent == s.sent && s'.mgr == Register(s.mgr, s.sent[k]);
    hide After, AllIn, AnyIn, Copies, HasDependents, IsRun, Next, NoDup;
    KnowledgeGrowsOver(s', between);
    assert k < |s.sent|;
    assert e.sent[k] == s.sent[k];
    assert Handled(e.mgr.drv, e.sent[k]);
    RepeatsOnlyStore(e, k, n);
  }

  /** Two states that differ only in how often the manager has stored the same configurations. */
  ghost predicate SameButCopies(s: State, s': State) {
    && s' == s.(mgr := s.mgr.(nsConfig := s'.mgr.nsConfig))
    && forall v :: InConfig(s.mgr.nsConfig, v) == InConfig(s'.mgr.nsConfig, v)
  }

  lemma {:induction false} ReplacedSame(ns: Conf, c: VduConf, v: Vdu)
    ensures InConfig(Replaced(ns, c), v) == InConfig(ns, v)
  {
    ReplacedKeeps(ns, c);
    if InConfig(Replaced(ns, c), v) && ns[0].vdu != v {
      var i :| 0 <= i < |Replaced(ns, c)| && Replaced(ns, c)[i].vdu == v;
      if ns[0].vdu == c.vdu {
        assert ns[i].vdu == v;
      } else {
        assert Replaced(ns[1..], c)[i - 1].vdu == v;
        ReplacedSame(ns[1..], c, v);
        var j :| 0 <= j < |ns[1..]| && ns[1..][j].vdu == v;
        assert ns[j + 1].vdu == v;
      }
    } else if ns != [] && ns[0].vdu == v {
      assert InConfig(ns, v);
    }
  }

  lemma ScaleOneSame(m: Manager, m': Manager, c: VduConf)
    requires m' == m.(nsConfig := m'.nsConfig) && forall v :: InConfig(m.nsConfig, v) == InConfig(m'.nsConfig, v)
    ensures var r, r' := ScaleOne(m, c), ScaleOne(m', c);
            r' == r.(nsConfig := r'.nsConfig) && forall v :: InConfig(r.nsConfig, v) == InConfig(r'.nsConfig, v)
  {
    forall v ensures InConfig(Replaced(m.nsConfig, c), v) == InConfig(Replaced(m'.nsConfig, c), v) {
      ReplacedSame(m.nsConfig, c, v);
      ReplacedSame(m'.nsConfig, c, v);
    }
  }

  lemma {:induction false} ScaleVdusSame(m: Manager, m': Manager, conf: Conf)
    requires m' == m.(nsConfig := m'.nsConfig) && forall v :: InConfig(m.nsConfig, v) == InConfig(m'.nsConfig, v)
    ensures var r, r' := ScaleVdus(m, conf), ScaleVdus(m', conf);
            r' == r.(nsConfig := r'.nsConfig) && forall v :: InConfig(r.nsConfig, v) == InConfig(r'.nsConfig, v)
    decreases |conf|
  {
    hide ScaleOne;
    if conf != [] {
      ScaleOneSame(m, m', conf[0]);
      ScaleVdusSame(ScaleOne(m, conf[0]), ScaleOne(m', conf[0]), conf[1..]);
    }
  }

  lemma {:induction false} InConfigSum(a: Conf, b: Conf, v: Vdu)
    ensures InConfig(a + b, v) <==> InConfig(a, v) || InConfig(b, v)
  {
    if InConfig(a + b, v) {
      var i :| 0 <= i < |a + b| && (a + b)[i].vdu == v;
      if i < |a| { assert a[i].vdu == v; } else { assert b[i - |a|].vdu == v; }
    }
    if InConfig(a, v) {
      var i :| 0 <= i < |a| && a[i].vdu == v;
      assert (a + b)[i].vdu == v;
    }
    if InConfig(b, v) {
      var i :| 0 <= i < |b| && b[i].vdu == v;
      assert (a + b)[|a| + i].vdu == v;
    }
  }

  lemma RegisterSame(m: Manager, m': Manager, conf: Conf)
    requires m' == m.(nsConfig := m'.nsConfig) && forall v :: InConfig(m.nsConfig, v) == InConfig(m'.nsConfig, v)
    ensures var r, r' := Register(m, conf), Register(m', conf);
            r' == r.(nsConfig := r'.nsConfig) && forall v :: InConfig(r.nsConfig, v) == InConfig(r'.nsConfig, v)
  {
    forall v ensures InConfig(m.nsConfig + conf, v) == InConfig(m'.nsConfig + conf, v) {
      InConfigSum(m.nsConfig, conf, v);
      InConfigSum(m'.nsConfig, conf, v);
    }
  }

  lemma CreationIgnoresCopies(s: State, s': State, a: Action)
    requires SameButCopies(s, s') && Enabled(s, a) && OfCreation(a)
    ensures Enabled(s', a) && SameButCopies(Next(s, a), Next(s', a))
  {
    hide AllIn, AnyIn, BeginScale, CanScale, Decision, Dispatch, DropScaled, InConfig, LaunchVdu, NewConf, NoDup, Running,
         ScaleVdus, StartsWorker, Ungenerated;
  }

  lemma ScalingIgnoresCopies(s: State, s': State, a: Action)
    requires SameButCopies(s, s') && Enabled(s, a) && OfScaling(a) && !a.HandleScale?
    ensures Enabled(s', a) && SameButCopies(Next(s, a), Next(s', a))
  {
    hide AllIn, AnyIn, BeginScale, CanScale, Decision, Dispatch, DropScaled, InConfig, LaunchVdu, NewConf, NoDup, Running,
         ScaleVdus, StartsWorker, Ungenerated;
  }

  lemma OverlapIgnoresCopies(s: State, s': State, a: Action)
    requires SameButCopies(s, s') && Enabled(s, a) && OfOverlap(a)
    ensures Enabled(s', a) && SameButCopies(Next(s, a), Next(s', a))
  {
    hide AllIn, AnyIn, BeginScale, CanScale, Decision, Dispatch, DropScaled, InConfig, LaunchVdu, NewConf, NoDup, Running,
         ScaleVdus, StartsWorker, Ungenerated;
  }

  predicate OfMessages(a: Action) {
    a.StartManager? || a.HandleConf? || a.HandleScale?
  }

  lemma HandlersIgnoreCopies(s: State, s': State, a: Action)
    requires SameButCopies(s, s') && Enabled(s, a) && OfMessages(a)
    ensures Enabled(s', a) && SameButCopies(Next(s, a), Next(s', a))
  {
    hide AllIn, AnyIn, CanScale, Dispatch, InConfig, NewConf, NoDup, Register, ScaleVdus, Ungenerated;
    match a
    case StartManager => RegisterSame(s.mgr, s'.mgr, s.sent[0]);
    case HandleConf(k) => RegisterSame(s.mgr, s'.mgr, s.sent[k]);
    case HandleScale => ScaleVdusSame(s.mgr, s'.mgr, s.scaleMsgs[0]);
  }

  lemma DispatchIgnoresStore(m: Manager, ns: Conf, mgmtIp: bool)
    requires m.todo != []
    ensures var r, r' := Dispatch(m, mgmtIp), Dispatch(m.(nsConfig := ns), mgmtIp);
            r'.m == r.m.(nsConfig := ns) && r.m.nsConfig == m.nsConfig && r'.acks == r.acks
    ensures StartsWorker(m.(nsConfig := ns), mgmtIp) == StartsWorker(m, mgmtIp)
  {
  }

  lemma ScanIgnoresStore(m: Manager, ns: Conf, id: ThreadId)
    requires m.daemon.Scanning?
    ensures var r, r' := ScanEntry(m, id), ScanEntry(m.(nsConfig := ns), id);
            r'.m == r.m.(nsConfig := ns) && r.m.nsConfig == m.nsConfig && r'.acks == r.acks
  {
  }

  predicate OfWorkers(a: Action) {
    a.DispatchNext? || a.Scan? || a.Finish?
  }

  lemma WorkersIgnoreCopies(s: State, s': State, a: Action)
    requires SameButCopies(s, s') && Enabled(s, a) && OfWorkers(a)
    ensures Enabled(s', a) && SameButCopies(Next(s, a), Next(s', a))
  {
    hide AllIn, AnyIn, BeginScale, CanScale, ConfigureService, Decision, Dispatch, DropScaled, InConfig, LaunchVdu, NewConf,
         NoDup, RecordAck, Register, Running, ScaleVdus, ScanEntry, StartsWorker, Ungenerated;
    match a
    case DispatchNext(mgmtIp) => DispatchIgnoresStore(s.mgr, s'.mgr.nsConfig, mgmtIp);
    case Scan(id) => ScanIgnoresStore(s.mgr, s'.mgr.nsConfig, id);
    case Finish(id, out) =>
  }

  lemma DaemonIgnoresCopies(s: State, s': State, a: Action)
    requires SameButCopies(s, s') && Enabled(s, a)
    requires !OfCreation(a) && !OfScaling(a) && !OfOverlap(a) && !OfMessages(a) && !OfWorkers(a)
    ensures Enabled(s', a) && SameButCopies(Next(s, a), Next(s', a))
  {
    hide AllIn, AnyIn, BeginScale, CanScale, ConfigureService, Decision, Dispatch, DropScaled, InConfig, LaunchVdu, NewConf,
         NoDup, RecordAck, Register,  ScaleVdus, ScanEntry, StartsWorker, Ungenerated;
  }

  lemma CopiesDoNotMatter(s: State, s': State, a: Action)
    requires SameButCopies(s, s') && Enabled(s, a)
    ensures Enabled(s', a) && SameButCopies(Next(s, a), Next(s', a))
  {
    hide Enabled, Next, OfCreation, OfOverlap, SameButCopies;
    if OfCreation(a) {
      CreationIgnoresCopies(s, s', a);
    } else if OfScaling(a) && !a.HandleScale? {
      ScalingIgnoresCopies(s, s', a);
    } else if OfOverlap(a) {
      OverlapIgnoresCopies(s, s', a);
    } else if OfMessages(a) {
      HandlersIgnoreCopies(s, s', a);
    } else {
      assert !OfScaling(a);
      if OfWorkers(a) { WorkersIgnoreCopies(s, s', a); } else { DaemonIgnoresCopies(s, s', a); }
    }
  }

  /** ... and the copies never show: whatever run the one system can take the other can, with the same workers and the
      same acknowledgements. */
  lemma {:induction false} CopiesNeverShow(s: State, s': State, actions: seq<Action>)
    requires SameButCopies(s, s') && IsRun(s, actions)
    ensures IsRun(s', actions) && SameButCopies(After(s, actions), After(s', actions))
    decreases |actions|
  {
    hide SameButCopies, Enabled, Next;
    if actions != [] {
      CopiesDoNotMatter(s, s', actions[0]);
      CopiesNeverShow(Next(s, actions[0]), Next(s', actions[0]), actions[1..]);
    }
  }

  lemma {:induction false} CopiesAreCopies(ns: Conf, conf: Conf, n: nat, v: Vdu)
    requires forall c :: c in conf ==> InConfig(ns, c.vdu)
    ensures InConfig(ns + Copies(conf, n), v) == InConfig(ns, v)
  {
    InConfigSum(ns, Copies(conf, n), v);
    if n > 0 {
      CopiesAreCopies(ns, conf, n - 1, v);
      InConfigSum(ns, Copies(conf, n - 1), v);
      InConfigSum(conf, Copies(conf, n - 1), v);
      if InConfig(conf, v) {
        var i :| 0 <= i < |conf| && conf[i].vdu == v;
        assert conf[i] in conf;
      }
    }
  }

  lemma {:induction false} ScaleKeepsStored(m: Manager, conf: Conf, v: Vdu)
    requires InConfig(m.nsConfig, v)
    ensures InConfig(ScaleVdus(m, conf).nsConfig, v)
    decreases |conf|
  {
    hide InConfig, Replaced;
    if conf != [] {
      ReplacedKeeps(m.nsConfig, conf[0]);
      ScaleKeepsStored(ScaleOne(m, conf[0]), conf[1..], v);
    }
  }

  lemma StoreGrows(s: State, a: Action, v: Vdu)
    requires Enabled(s, a) && InConfig(s.mgr.nsConfig, v)
    ensures InConfig(Next(s, a).mgr.nsConfig, v)
  {
    hide AddDrivers, AllIn, AnyIn, ConfToks, Extracted, HasDependents, InConfig, NoDup, ScaleVdus, Ungenerated;
    match a
    case StartManager => InConfigSum(s.mgr.nsConfig, s.sent[0], v);
    case HandleConf(k) => InConfigSum(s.mgr.nsConfig, s.sent[k], v);
    case HandleScale => ScaleKeepsStored(s.mgr, s.scaleMsgs[0], v);
    case _ =>
  }

  lemma {:induction false} StoreGrowsOver(s: State, actions: seq<Action>, v: Vdu)
    requires IsRun(s, actions) && InConfig(s.mgr.nsConfig, v)
    ensures InConfig(After(s, actions).mgr.nsConfig, v)
    decreases |actions|
  {
    hide Enabled, Next, InConfig;
    if actions != [] {
      StoreGrows(s, actions[0], v);
      StoreGrowsOver(Next(s, actions[0]), actions[1..], v);
    }
  }

  /** The same system with and without the copies that handling a message again `n` times stores. */
  lemma OnlyCopies(s: State, k: nat, between: seq<Action>, n: nat)
    requires Enabled(s, HandleConf(k)) && IsRun(Next(s, HandleConf(k)), between)
    requires Running(After(Next(s, HandleConf(k)), between).mgr)
    ensures var e := After(Next(s, HandleConf(k)), between);
            var again := Repeat(HandleConf(k), n);
            IsRun(e, again) && SameButCopies(e, After(e, again))
  {
    var conf, s' := s.sent[k], Next(s, HandleConf(k));
    var e := After(s', between);
    assert s'.mgr.nsConfig == s.mgr.nsConfig + conf;
    hide After, Copies, Enabled, InConfig, IsRun, Next;
    DuplicateDelivery(s, k, between, n);
    InConfigGrows(s.mgr.nsConfig, conf);
    forall c | c in conf ensures InConfig(e.mgr.nsConfig, c.vdu) {
      StoreGrowsOver(s', between, c.vdu);
    }
    var e' := After(e, Repeat(HandleConf(k), n));
    forall v ensures InConfig(e.mgr.nsConfig, v) == InConfig(e'.mgr.nsConfig, v) {
      CopiesAreCopies(e.mgr.nsConfig, conf, n, v);
    }
  }

  lemma SameEitherWay(s: State, s': State)
    requires SameButCopies(s, s')
    ensures SameButCopies(s', s)
  {
  }

  /** A configuration message handled again `n` times, at any later moment, changes nothing any later step can tell:
      the runs possible with the repetitions are those possible without them, and lead to the same but for copies. */
  lemma DuplicatesHarmless(s: State, k: nat, between: seq<Action>, n: nat, future: seq<Action>)
    requires Enabled(s, HandleConf(k)) && IsRun(Next(s, HandleConf(k)), between)
    requires Running(After(Next(s, HandleConf(k)), between).mgr)
    ensures var e := After(Next(s, HandleConf(k)), between);
            var again := Repeat(HandleConf(k), n);
            && IsRun(e, again)
            && (IsRun(e, future) <==> IsRun(After(e, again), future))
            && (IsRun(e, future) ==> SameButCopies(After(e, future), After(After(e, again), future)))
  {
    hide After, Enabled, IsRun, Next, Repeat, SameButCopies;
    OnlyCopies(s, k, between, n);
    var e := After(Next(s, HandleConf(k)), between);
    var e' := After(e, Repeat(HandleConf(k), n));
    if IsRun(e, future) {
      CopiesNeverShow(e, e', future);
    }
    if IsRun(e', future) {
      SameEitherWay(e, e');
      CopiesNeverShow(e', e, future);
    }
  }

  // ---------- Names that repeat across VNFDs ----------

  lemma {:induction false} ExtractedShrinks(drv: map<string, Drv>, conf: Conf)
    ensures |Extracted(drv, conf)| <= |conf|
  {
    if conf != [] { ExtractedShrinks(drv, conf[1..]); }
  }

  /** An entry is taken over exactly when its name is new and no later entry of the message has it; so each new name is
      taken over once, as mentioned last. */
  lemma {:induction false} ExtractedIsLast(drv: map<string, Drv>, conf: Conf, c: VduConf)
    ensures c in Extracted(drv, conf) <==>
              c.vdu.name !in drv && exists i :: 0 <= i < |conf| && conf[i] == c && OnlyBefore(conf, c.vdu.name, i)
    ensures DistinctVduNames(Extracted(drv, conf))
  {
    if conf != [] {
      var head, rest := conf[0], conf[1..];
      ExtractedIsLast(drv, rest, c);
      assert forall j :: 0 <= j < |rest| ==> rest[j] == conf[j + 1];
      if i :| 0 <= i < |conf| && conf[i] == c && OnlyBefore(conf, c.vdu.name, i) {
        if i > 0 { assert rest[i - 1] == c && OnlyBefore(rest, c.vdu.name, i - 1); }
      }
      if i :| 0 <= i < |rest| && rest[i] == c && OnlyBefore(rest, c.vdu.name, i) {
        assert conf[i + 1] == c && OnlyBefore(conf, c.vdu.name, i + 1);
      }
      if head.vdu.name !in drv && OnlyBefore(conf, head.vdu.name, 0) {
        assert Extracted(drv, conf) == [head] + Extracted(drv, rest);
        assert conf[0] == head;
        HeadDiffers(drv, head, rest);
      } else {
        assert Extracted(drv, conf) == Extracted(drv, rest);
      }
    }
  }

  predicate OnlyBefore(conf: Conf, name: string, i: int) {
    forall j :: i < j < |conf| && 0 <= j ==> conf[j].vdu.name != name
  }

  lemma HeadDiffers(drv: map<string, Drv>, head: VduConf, rest: Conf)
    requires DistinctVduNames(Extracted(drv, rest)) && forall j :: 0 <= j < |rest| ==> rest[j].vdu.name != head.vdu.name
    ensures DistinctVduNames([head] + Extracted(drv, rest))
  {
    ExtractedWithin(drv, rest);
    var all, tail := [head] + Extracted(drv, rest), Extracted(drv, rest);
    forall i, j | 0 <= i < j < |all| ensures all[i].vdu.name != all[j].vdu.name {
      if i == 0 { assert tail[j - 1] in rest; } else { assert all[i] == tail[i - 1] && all[j] == tail[j - 1]; }
    }
  }

  /** No name of the message is known to the manager. */
  predicate AllNew(drv: map<string, Drv>, conf: Conf) {
    forall c :: c in conf ==> c.vdu.name !in drv
  }

  /** A message is kept whole exactly when its VDU names are distinct and none was used by an earlier one; a repeated
      name loses a VDU. */
  lemma {:induction false} KeptWholeIffDistinct(drv: map<string, Drv>, conf: Conf)
    ensures Extracted(drv, conf) == conf <==> DistinctVduNames(conf) && AllNew(drv, conf)
  {
    if conf != [] {
      KeptWholeIffDistinct(drv, conf[1..]);
      ExtractedShrinks(drv, conf[1..]);
      assert conf == [conf[0]] + conf[1..];
      if conf[0].vdu.name in drv || exists i :: 1 <= i < |conf| && conf[i].vdu.name == conf[0].vdu.name {
        assert |Extracted(drv, conf)| < |conf|;
      } else {
        assert Extracted(drv, conf) == [conf[0]] + Extracted(drv, conf[1..]);
        if DistinctVduNames(conf[1..]) {
          forall i, j | 0 <= i < j < |conf| ensures conf[i].vdu.name != conf[j].vdu.name {
            if i > 0 { assert conf[1..][i - 1].vdu.name != conf[1..][j - 1].vdu.name; }
          }
        }
      }
    }
  }

  // ---------- Scale-outs ----------

  /** However often a VDU was put on `conf_generated`, the scale message names it alone, with all of its servers. */
  lemma ScaleNamesOnlyScaled(s: State)
    requires Orderly(s) && Enabled(s, SendScale)
    ensures var v := s.orch.pc.vdu;
            && v in s.orch.insts && v in s.tpl.specs
            && Next(s, SendScale).scaleMsgs == s.scaleMsgs + [[VduConf(v, s.orch.insts[v], s.tpl.specs[v].driver)]]
  {
    var v := s.orch.pc.vdu;
    hide AllIn, AnyIn, Dispatch, HasDependents, NoDup, Orderly, ScaleVdus, TableOk, ToSet, Ungenerated;
    InvAlways(s);
    Parts(s);
    assert s.orch.pc == Scaling(v);
    ScaleConf(s.tpl, s.orch, v);
  }

  /** The manager queues the new server of the scaled VDU and no other. */
  lemma ScaleStartsOnlyNew(s: State)
    requires Orderly(s) && Enabled(s, HandleScale)
    ensures s.orch.pc.ScaleWaiting?
    ensures var v := s.orch.pc.vdu;
            && v in s.orch.insts && s.orch.insts[v] != []
            && Next(s, HandleScale).mgr.todo == s.mgr.todo + [Tok(v, s.orch.insts[v][|s.orch.insts[v]| - 1])]
  {
    hide AllIn, AnyIn, BeginScale, Decision, Dispatch, HasDependents, Inv, LaunchVdu, NewConf, NoDup, Orderly,
         RecordAck, Register, ScaleVdus, ScanEntry, StartsWorker, Ungenerated, WithSends, WorkerRecords;
    InvAlways(s);
    assert s.scaleMsgs != [] && Running(s.mgr);
    ScaleWaitsFor(s);
    assert s.mgr.started;
    HandleScaleOk(s, s.orch.pc.vdu);
  }

  /** Delivered a second time, a scale message queues the servers that are not COMPLETE yet once more: it starts
      nothing exactly when all of them are. */
  lemma ScaleTwice(m: Manager, c: VduConf)
    requires InConfig(m.nsConfig, c.vdu) && c.vdu.name in m.drv && m.drv[c.vdu.name].vdu.vnfd == c.vdu.vnfd
    ensures var once := ScaleOne(m, c);
            ScaleOne(once, c).todo == once.todo <==> forall i :: i in c.insts ==> i in m.drv[c.vdu.name].complete
  {
    var once, done := ScaleOne(m, c), m.drv[c.vdu.name].complete;
    ReplacedSame(m.nsConfig, c, c.vdu);
    assert once.drv[c.vdu.name].complete == done;
    NotInEmpty(c.insts, done);
    var more := ToksOf(c.vdu, NotIn(c.insts, done));
    assert ScaleOne(once, c).todo == once.todo + more;
    assert |more| == |NotIn(c.insts, done)|;
    assert |once.todo + more| == |once.todo| + |more|;
    if |more| == 0 {
      assert once.todo + more == once.todo;
    }
  }

  lemma {:induction false} NotInEmpty(insts: seq<Inst>, done: seq<Inst>)
    ensures NotIn(insts, done) == [] <==> forall i :: i in insts ==> i in done
  {
    if insts != [] {
      NotInEmpty(insts[1..], done);
      assert insts == [insts[0]] + insts[1..];
    }
  }

  lemma SettledFacts(t: Template, o: Orch)
    requires OrchOk(t, o) && o.pc.Idle?
    ensures NoDup(o.configured) && NoDup(o.deployed) && ToSet(o.deployed) == t.specs.Keys - o.dropped
    ensures o.insts.Keys == t.specs.Keys
    ensures forall v :: v in t.specs ==> v in o.configured || v in o.errored || v in o.dropped
  {
  }

  /** Between requests `deployed_vdus` holds, once, every VDU that no scale-out dropped because a boot failed, and
      `configured` (once) those of them that have not errored, each with as many distinct acknowledgements as servers.
      So a scale-out whose boot succeeds keeps the members of `deployed_vdus`, and of `configured` unless its VDU errors;
      one whose boot fails takes its VDU off both, and no later one puts it back. */
  lemma SettledLists(s: State)
    requires Orderly(s) && s.orch.pc.Idle?
    ensures NoDup(s.orch.deployed) && ToSet(s.orch.deployed) == s.tpl.specs.Keys - s.orch.dropped
    ensures NoDup(s.orch.configured)
    ensures forall v :: v in s.orch.configured <==> v in s.tpl.specs && v !in s.orch.errored && v !in s.orch.dropped
    ensures forall v :: v in s.orch.configured ==>
              v in s.orch.insts && |AcksOf(s.orch.acks, v)| == |s.orch.insts[v]|
              && ToSet(AcksOf(s.orch.acks, v)) == ToSet(s.orch.insts[v])
    ensures s.orch.dropped !! ToSet(s.orch.errored) && s.orch.dropped <= s.tpl.specs.Keys == s.orch.insts.Keys
  {
    var t, o := s.tpl, s.orch;
    hide AcksOf, Inv, LinkOk, NoDup, OrchOk, Orderly, TableOk, TokensOk, ValidTemplate;
    InvAlways(s);
    Parts(s);
    SettledFacts(t, o);
    forall v ensures v in o.configured <==> v in t.specs && v !in o.errored && v !in o.dropped {
      ListsMeanAcks(s, v);
      ConfiguredLaunched(t, o, v);
    }
    forall v | v in o.dropped ensures v in t.specs && v !in o.errored {
      ListsMeanAcks(s, v);
      DroppedLaunched(t, o, v);
    }
    forall v | v in o.configured
      ensures v in o.insts && |AcksOf(o.acks, v)| == |o.insts[v]| && ToSet(AcksOf(o.acks, v)) == ToSet(o.insts[v])
    {
      ListsMeanAcks(s, v);
      AcksWithin(s, v);
      ServersDistinct(t, o, v);
      NoDupWithin(AcksOf(o.acks, v), o.insts[v]);
    }
  }

  /** The VDUs whose boot failed in a scale-out of the run. */
  function FailedBoots(actions: seq<Action>): set<Vdu> {
    if actions == [] then {} else FailedBoot(actions[0]) + FailedBoots(actions[1..])
  }

  function FailedBoot(a: Action): set<Vdu> {
    if a.ScaleBootFails? || a.OverlapBootFails? then {a.v} else {}
  }

  lemma DroppedByOrch(s: State, a: Action)
    requires Enabled(s, a) && (OfCreation(a) || OfScaling(a) || OfOverlap(a))
    ensures Next(s, a).orch.dropped == s.orch.dropped + FailedBoot(a)
  {
    hide AllIn, AnyIn, CanScale, Deps, NewConf, NoDup, Ready, RemoveAll, RemoveFirst, Running, ScaleVdus, Ungenerated;
  }

  lemma DroppedElsewhere(s: State, a: Action)
    requires Enabled(s, a) && !OfCreation(a) && !OfScaling(a) && !OfOverlap(a)
    ensures Next(s, a).orch.dropped == s.orch.dropped
  {
    hide AllIn, AnyIn, CanScale, Dispatch, NoDup, Register, Running, ScanEntry, StartsWorker, WorkerRecords;
  }

  lemma DroppedStep(s: State, a: Action)
    requires Enabled(s, a)
    ensures Next(s, a).orch.dropped == s.orch.dropped + FailedBoot(a)
  {
    hide Enabled, Next;
    if OfCreation(a) || OfScaling(a) || OfOverlap(a) { DroppedByOrch(s, a); } else { DroppedElsewhere(s, a); }
  }

  /** Exactly the VDUs whose boot failed in a scale-out are dropped, and nothing brings one back. */
  lemma {:induction false} DroppedExactly(s: State, actions: seq<Action>)
    requires IsRun(s, actions)
    ensures After(s, actions).orch.dropped == s.orch.dropped + FailedBoots(actions)
    decreases |actions|
  {
    hide Enabled, FailedBoot, Next;
    if actions != [] {
      DroppedStep(s, actions[0]);
      DroppedExactly(Next(s, actions[0]), actions[1..]);
    }
  }

  lemma ScaleRaised(s: State)
    requires Enabled(s, ScaleRaise)
    ensures s.orch.pc.ScaleWaiting? && s.orch.pc.vdu in s.orch.errored
    ensures Next(s, ScaleRaise).orch == s.orch.(pc := Idle, status := Active)
  {
  }

  /** `create_scale` makes the service ACTIVE again even when the scaled VDU errored and so is not configured. */
  lemma ActiveAfterFailedScale(s: State)
    requires Orderly(s) && Enabled(s, ScaleRaise)
    ensures s.orch.pc.ScaleWaiting? && Next(s, ScaleRaise).orch.status.Active?
    ensures s.orch.pc.vdu in s.tpl.specs && s.orch.pc.vdu !in Next(s, ScaleRaise).orch.configured
  {
    hide *;
    ScaleRaised(s);
    InvAlways(s);
    Parts(s);
    ListsMeanAcks(s, s.orch.pc.vdu);
    LaunchedInTemplate(s.tpl, s.orch, s.orch.pc.vdu);
  }

  /** It also does when the boot of the new server fails; the VDU is then on none of the three lists, its servers and the
      other VDUs staying as they were. */
  lemma ActiveAfterFailedBoot(s: State, v: Vdu)
    requires Orderly(s) && Enabled(s, ScaleBootFails(v))
    ensures var s' := Next(s, ScaleBootFails(v));
            && s'.orch.status.Active? && s'.orch.insts == s.orch.insts && s'.scaleMsgs == s.scaleMsgs
            && v !in s'.orch.configured && v !in s'.orch.deployed && v !in s'.orch.confGenerated
            && forall u :: u != v ==>
                 && (u in s'.orch.configured <==> u in s.orch.configured)
                 && (u in s'.orch.deployed <==> u in s.orch.deployed)
                 && (u in s'.orch.confGenerated <==> u in s.orch.confGenerated)
  {
    InvAlways(s);
    Parts(s);
    hide *;
    var o := s.orch;
    BootFailureTakesOff(s, v);
    OncePerList(s.tpl, o);
    RemoveFirstMembers(o.configured, v);
    RemoveFirstMembers(o.deployed, v);
    RemoveAllMembers(o.confGenerated, v);
  }

  lemma OncePerList(t: Template, o: Orch)
    requires OrchOk(t, o)
    ensures NoDup(o.configured) && NoDup(o.deployed)
  {
  }

  lemma BootFailureTakesOff(s: State, v: Vdu)
    requires Enabled(s, ScaleBootFails(v))
    ensures var s', o := Next(s, ScaleBootFails(v)), s.orch;
            && s'.orch.status.Active? && s'.orch.insts == o.insts && s'.scaleMsgs == s.scaleMsgs
            && s'.orch.configured == RemoveFirst(o.configured, v) && s'.orch.deployed == RemoveFirst(o.deployed, v)
            && s'.orch.confGenerated == RemoveAll(o.confGenerated, v)
  {
  }
}
