/** The orchestrator's loops as methods that update its lists in place. Every statement that changes them is one
    action of the protocol, so an object's state is always a reachable state of the protocol. */
module Orchestrator {
  import opened Lists
  import opened DependencyGraph
  import opened Protocol
  import opened ProtocolInvariant
  import opened ProtocolPreservation
  import opened ProtocolManagerSteps
  import opened ProtocolSafety
  import opened ProtocolTheorems
  import opened ProtocolOutcomes
  import opened ProtocolStatus
  import opened ProtocolScaling
  import opened ProtocolProgress
  import opened ProtocolOverlap

  /** How `wait_for_acknowledgment` ends; `Hung` is a wait that nothing will ever end. */
  datatype WaitResult = Acked | RaisedError | Hung

  /** How a creation ends; `Spins` is a resolving loop that goes round without launching anything. */
  datatype Ending = Created | BootFailed | Failure | Stuck | Spins

  /** How a scale request ends; `Overlapping` is one let in while the orchestrator was not idle, its message sent. */
  datatype ScaleResult = Scaled | ScaleRaised | Refused | Overlapping

  /** How often `v` is named by the `updatesFrom` lists of the VDUs in `order`, and by whom. */
  function Dependents(t: Template, order: seq<Vdu>, v: Vdu): seq<Vdu> {
    if order == [] then []
    else Dependents(t, order[..|order| - 1], v)
         + (var u := order[|order| - 1]; Times(u, if u in t.specs then Occurrences(t.specs[u].deps, v) else 0))
  }

  function Times(u: Vdu, n: nat): seq<Vdu> {
    seq(n, i requires 0 <= i < n => u)
  }

  function Occurrences(list: seq<Vdu>, v: Vdu): nat {
    if list == [] then 0
    else Occurrences(list[..|list| - 1], v) + if list[|list| - 1] == v then 1 else 0
  }

  class Orchestrator {
    const tpl: Template
    var updatesFrom: map<Vdu, seq<Vdu>>
    var updatesTo: map<Vdu, seq<Vdu>>
    var status: ServiceStatus
    var configured: seq<Vdu>
    var errored: seq<Vdu>
    var confGenerated: seq<Vdu>
    var deployed: seq<Vdu>
    var acks: map<Vdu, seq<Inst>>
    var instances: map<Vdu, seq<Inst>>
    // The rest of the system: the channel and the VNF manager.
    var sent: seq<Conf>
    var scaleMsgs: seq<Conf>
    var net: multiset<Ack>
    var mgr: Manager
    // Where the orchestrator's thread is, and history.
    var pc: Pc
    var failed: seq<Tok>
    var round: nat
    var launchedIn: map<Vdu, nat>
    var dropped: set<Vdu>
    var others: seq<Pc>
    var scales: nat
    var refused: nat
    var overlapped: bool

    function Orch(): Orch reads this {
      Protocol.Orch(pc, status, configured, errored, confGenerated, deployed, acks, instances, failed, round, launchedIn,
                    dropped)
    }

    function Abs(): State reads this {
      State(tpl, Orch(), sent, scaleMsgs, net, mgr, others, scales, refused, overlapped)
    }

    /** The state is one the protocol reaches without a scale request beside the orchestrator's own thread. */
    ghost predicate Valid() reads this {
      Orderly(Abs())
    }

    /** No scale request has been made, so the service is still being created, or just created. */
    predicate Unasked() reads this {
      scales == 0 && refused == 0
    }

    lemma Fields()
      ensures Valid() <==> Orderly(Abs())
      ensures Abs() == State(tpl, Orch(), sent, scaleMsgs, net, mgr, others, scales, refused, overlapped)
      ensures Orch() == Protocol.Orch(pc, status, configured, errored, confGenerated, deployed, acks, instances, failed, round,
                                      launchedIn, dropped)
    {
    }

    constructor (t: Template)
      requires ValidTemplate(t)
      ensures Valid() && tpl == t && Abs() == Init(t)
    {
      tpl := t;
      updatesFrom, updatesTo := map[], map[];
      status, configured, errored, confGenerated, deployed, acks, instances := Pending, [], [], [], [], map[], map[];
      sent, scaleMsgs, net, mgr := [], [], multiset{}, NewManager;
      pc, failed, round, launchedIn, dropped := Launching([], Ready(Deps(t), t.order, [])), [], 0, map[], {};
      others, scales, refused, overlapped := [], 0, 0, false;
      new;
      Started(t);
    }

    // ---------- Acknowledgements ----------

    method RecordError(vdu: Vdu, inst: Inst)
      modifies `status, `errored, `failed
      ensures status.Failed? && errored == old(errored) + [vdu] && failed == old(failed) + [Tok(vdu, inst)]
    {
      errored := errored + [vdu];
      failed := failed + [Tok(vdu, inst)];
      status := Failed;
    }

    method RecordComplete(vdu: Vdu, inst: Inst)
      modifies `acks, `configured
      ensures vdu in acks && acks == old(acks)[vdu := acks[vdu]]
      ensures acks[vdu] == (if vdu in old(acks) then old(acks)[vdu] else []) + [inst]
      ensures configured == old(configured)
                            + (if vdu in instances && |instances[vdu]| <= |acks[vdu]| then [vdu] else [])
    {
      if vdu in acks && acks[vdu] != [] {
        acks := acks[vdu := acks[vdu] + [inst]];
      } else {
        acks := acks[vdu := [inst]];
        assert [] + [inst] == [inst];
      }
      if vdu in instances && |instances[vdu]| <= |acks[vdu]| {
        configured := configured + [vdu];
      }
    }

    /** An ERROR acknowledgement makes the service Failed and its VDU errored; a COMPLETE one is counted, and configures
        its VDU when as many are counted as it has servers. In both cases that is the protocol's step. */
    method BuildAcknowledgeList(a: Ack)
      modifies `status, `errored, `failed, `acks, `configured
      ensures a.status.Error? ==>
                && status.Failed? && errored == old(errored) + [a.vdu]
                && acks == old(acks) && configured == old(configured)
      ensures a.status.Complete? ==>
                && status == old(status) && errored == old(errored)
                && a.vdu in acks && acks == old(acks)[a.vdu := acks[a.vdu]]
                && acks[a.vdu] == (if a.vdu in old(acks) then old(acks)[a.vdu] else []) + [a.inst]
                && configured == old(configured)
                                 + (if a.vdu in instances && |instances[a.vdu]| <= |acks[a.vdu]| then [a.vdu] else [])
      ensures Abs() == old(Abs()).(orch := RecordAck(old(Orch()), a))
    {
      if a.status.Error? {
        RecordError(a.vdu, a.inst);
      } else {
        RecordComplete(a.vdu, a.inst);
      }
    }

    twostate predicate SameRequests() reads this {
      && dropped == old(dropped) && others == old(others)
      && scales == old(scales) && refused == old(refused) && overlapped == old(overlapped)
    }

    /** What other threads can do to the orchestrator while it sleeps. */
    twostate predicate OnlyAcked() reads this {
      && pc == old(pc) && confGenerated == old(confGenerated) && deployed == old(deployed) && instances == old(instances)
      && round == old(round) && launchedIn == old(launchedIn) && sent == old(sent) && SameRequests()
      && updatesFrom == old(updatesFrom) && updatesTo == old(updatesTo)
      && old(configured) <= configured && old(errored) <= errored
    }

    /** The channel hands over an acknowledgement. */
    method Receive(a: Ack)
      requires a in net
      modifies `net, `status, `errored, `failed, `acks, `configured
      ensures Abs() == old(Abs()).(net := old(net) - multiset{a}, orch := RecordAck(old(Orch()), a))
      ensures old(configured) <= configured && old(errored) <= errored
    {
      hide RecordAck;
      ghost var o := Orch();
      net := net - multiset{a};
      BuildAcknowledgeList(a);
      RecordedOnly(o, a);
    }

    /** What manager, threads and channel do among themselves. */
    method Elapse(s': State)
      requires s' == Abs().(scaleMsgs := s'.scaleMsgs, net := s'.net, mgr := s'.mgr)
      modifies `scaleMsgs, `net, `mgr
      ensures Abs() == s'
    {
      scaleMsgs, net, mgr := s'.scaleMsgs, s'.net, s'.mgr;
    }

    /** One turn of the waiting loop's sleep: something productive happens elsewhere, unless all is at rest. */
    method Sleep() returns (moved: bool)
      requires Valid() && sent != []
      modifies this
      ensures Valid() && OnlyAcked()
      ensures !moved ==> Abs() == old(Abs()) && Quiet(Abs())
      ensures moved ==> Closer(Abs(), old(Abs()))
    {
      hide Closer, Enabled, Inv, Next, OfOverlap, Orderly, Productive, Quiet, RecordAck;
      ghost var s := Abs();
      moved := !Quiet(Abs());
      if moved {
        SomeMove(s);
        var a: Action :| Productive(Abs(), a);
        Moves(s, a);
        if a.Deliver? {
          Receive(a.ack);
        } else {
          Elapse(Next(Abs(), a));
        }
      }
    }

    method WaitForAcknowledgment(vdus: seq<Vdu>) returns (r: WaitResult)
      requires Valid() && WaitsFor(Orch(), vdus)
      modifies this
      ensures Valid() && OnlyAcked()
      ensures r.Acked? ==> AllIn(vdus, configured) && !AnyIn(vdus, errored)
      ensures r.RaisedError? ==> AnyIn(vdus, errored)
      ensures r.Hung? ==> HasEmpty(tpl, vdus) && Serverless(instances, vdus)
    {
      hide HasEmpty, Left, Phase, Quiet, Orderly, Serverless, Untaught;
      var acknowledged := false;
      while !acknowledged
        invariant Valid() && OnlyAcked()
        invariant acknowledged ==> AllIn(vdus, configured) && !AnyIn(vdus, errored)
        decreases Untaught(Abs()), |mgr.todo|, |mgr.live|, Phase(mgr.daemon), Left(mgr.daemon), |net|, !acknowledged
      {
        var count := 0;
        for i := 0 to |vdus|
          modifies {}
          invariant 0 <= count <= i
          invariant count == i <==> forall j :: 0 <= j < i ==> vdus[j] in configured
          invariant forall j :: 0 <= j < i ==> vdus[j] !in errored
        {
          if vdus[i] in errored {
            assert AnyIn(vdus, errored);
            return RaisedError;
          } else if vdus[i] in configured {
            count := count + 1;
          }
        }
        assert !AnyIn(vdus, errored) && (AllIn(vdus, configured) <==> count == |vdus|);
        if count == |vdus| {
          acknowledged := true;
        } else {
          WaitingSent(Abs(), vdus);
          var moved := Sleep();
          if !moved {
            RestsUndecided(Abs(), vdus);
            return Hung;
          }
        }
      }
      r := Acked;
    }

    // ---------- The dependency dictionary ----------

    /** The lists of one VDU: its own `updatesFrom`, and its entry in the `updatesTo` of each VDU it names. */
    method AddDependencies(vdu: Vdu)
      requires vdu in updatesFrom && updatesFrom[vdu] == [] && vdu in tpl.specs && updatesTo.Keys == updatesFrom.Keys
      modifies `updatesFrom, `updatesTo
      ensures updatesFrom == old(updatesFrom)[vdu := tpl.specs[vdu].deps]
      ensures updatesFrom.Keys == old(updatesFrom).Keys && updatesTo.Keys == old(updatesTo).Keys
      ensures forall v :: v in updatesTo ==>
                updatesTo[v] == old(updatesTo)[v] + Times(vdu, Occurrences(tpl.specs[vdu].deps, v))
    {
      hide *;
      var deps := tpl.specs[vdu].deps;
      NoneYet(vdu, deps);
      for j := 0 to |deps|
        invariant updatesFrom == old(updatesFrom)[vdu := deps[..j]] && updatesTo.Keys == old(updatesTo).Keys
        invariant forall v :: v in updatesTo ==> updatesTo[v] == old(updatesTo)[v] + Times(vdu, Occurrences(deps[..j], v))
      {
        var dependent := deps[j];
        assert deps[..j + 1] == deps[..j] + [dependent];
        updatesFrom := updatesFrom[vdu := updatesFrom[vdu] + [dependent]];
        if dependent in updatesTo {
          updatesTo := updatesTo[dependent := updatesTo[dependent] + [vdu]];
        }
        OneMore(vdu, deps, j);
      }
      assert deps[..|deps|] == deps;
    }

    /** An entry with two empty lists for every VDU of the template. */
    method EmptyLists()
      requires ValidTemplate(tpl)
      modifies `updatesFrom, `updatesTo
      ensures updatesFrom.Keys == updatesTo.Keys == tpl.specs.Keys
      ensures forall v :: v in updatesFrom ==> updatesFrom[v] == [] && updatesTo[v] == []
    {
      hide *;
      InOrder(tpl);
      updatesFrom, updatesTo := map[], map[];
      for i := 0 to |tpl.order|
        invariant forall v :: v in updatesFrom <==> v in tpl.order[..i]
        invariant updatesTo.Keys == updatesFrom.Keys
        invariant forall v :: v in updatesFrom ==> updatesFrom[v] == [] && updatesTo[v] == []
      {
        updatesFrom := updatesFrom[tpl.order[i] := []];
        updatesTo := updatesTo[tpl.order[i] := []];
      }
      assert tpl.order[..|tpl.order|] == tpl.order;
    }

    method CreateDependencyDict()
      requires ValidTemplate(tpl)
      modifies `updatesFrom, `updatesTo
      ensures updatesFrom == Deps(tpl) && updatesTo.Keys == tpl.specs.Keys
      ensures forall v :: v in tpl.specs ==> updatesTo[v] == Dependents(tpl, tpl.order, v)
    {
      hide *;
      EmptyLists();
      NothingYet(tpl);
      for i := 0 to |tpl.order|
        invariant updatesFrom.Keys == updatesTo.Keys == tpl.specs.Keys
        invariant forall v :: v in tpl.specs ==> updatesFrom[v] == if v in tpl.order[..i] then tpl.specs[v].deps else []
        invariant forall v :: v in tpl.specs ==> updatesTo[v] == Dependents(tpl, tpl.order[..i], v)
      {
        NextInOrder(tpl, i);
        AddDependencies(tpl.order[i]);
        NextDependents(tpl, i);
      }
      InOrder(tpl);
      assert tpl.order[..|tpl.order|] == tpl.order;
      FromIsDeps(tpl, updatesFrom);
    }

    // ---------- Configuration messages ----------

    method GenerateVnfmConf() returns (conf: Conf)
      modifies `confGenerated
      ensures conf == NewConf(tpl, old(Orch()))
      ensures confGenerated == old(confGenerated) + Ungenerated(deployed, old(confGenerated))
    {
      hide ConfOf, Ungenerated;
      var current := [];
      UngeneratedNone(confGenerated);
      for i := 0 to |deployed|
        invariant current == Ungenerated(deployed[..i], confGenerated) && confGenerated == old(confGenerated)
      {
        UngeneratedSnoc(deployed[..i], deployed[i], confGenerated);
        assert deployed[..i + 1] == deployed[..i] + [deployed[i]];
        if deployed[i] !in confGenerated {
          current := current + [deployed[i]];
        }
      }
      assert deployed[..|deployed|] == deployed;
      conf := [];
      ConfOfNone(tpl, instances);
      for i := 0 to |current|
        invariant conf == ConfOf(tpl, instances, current[..i]) && confGenerated == old(confGenerated) + current[..i]
      {
        var vdu := current[i];
        ConfOfSnoc(tpl, instances, current[..i], vdu);
        assert current[..i + 1] == current[..i] + [vdu];
        conf := conf + [VduConf(vdu, if vdu in instances then instances[vdu] else [], vdu in tpl.specs && tpl.specs[vdu].driver)];
        confGenerated := confGenerated + [vdu];
      }
      assert current[..|current|] == current;
    }

    // ---------- Launching ----------

    /** The VDUs that update from nobody. */
    method IndependentVdus() returns (vdus: seq<Vdu>)
      requires ValidTemplate(tpl) && updatesFrom == Deps(tpl)
      ensures vdus == Ready(Deps(tpl), tpl.order, [])
    {
      hide *;
      InOrder(tpl);
      DepsKeys(tpl);
      vdus := [];
      ReadyNone(updatesFrom, []);
      for i := 0 to |tpl.order|
        invariant vdus == Ready(updatesFrom, tpl.order[..i], [])
      {
        assert tpl.order[..i + 1] == tpl.order[..i] + [tpl.order[i]] && tpl.order[i] in tpl.order;
        ReadySnoc(updatesFrom, tpl.order[..i], tpl.order[i], []);
        if |updatesFrom[tpl.order[i]]| == 0 {
          vdus := vdus + [tpl.order[i]];
        } else {
          assert updatesFrom[tpl.order[i]][0] in updatesFrom[tpl.order[i]];
        }
      }
      assert tpl.order[..|tpl.order|] == tpl.order;
    }

    /** The unconfigured VDUs all of whose dependencies are configured. */
    method ReadyVdus() returns (vdus: seq<Vdu>)
      requires ValidTemplate(tpl) && updatesFrom == Deps(tpl)
      ensures vdus == Ready(Deps(tpl), tpl.order, configured)
    {
      hide *;
      InOrder(tpl);
      DepsKeys(tpl);
      vdus := [];
      ReadyNone(updatesFrom, configured);
      for i := 0 to |tpl.order|
        invariant vdus == Ready(updatesFrom, tpl.order[..i], configured)
      {
        var vdu := tpl.order[i];
        assert tpl.order[..i + 1] == tpl.order[..i] + [vdu] && vdu in tpl.order;
        ReadySnoc(updatesFrom, tpl.order[..i], vdu, configured);
        if vdu !in configured {
          var launchedDependencies := 0;
          var from := updatesFrom[vdu];
          for j := 0 to |from|
            invariant 0 <= launchedDependencies <= j
            invariant launchedDependencies == j <==> forall k :: 0 <= k < j ==> from[k] in configured
          {
            if from[j] in configured {
              launchedDependencies := launchedDependencies + 1;
            }
          }
          if launchedDependencies == |from| {
            vdus := vdus + [vdu];
          }
        }
      }
      assert tpl.order[..|tpl.order|] == tpl.order;
    }

    /** What a launch leaves alone. */
    twostate predicate OnlyLaunched() reads this {
      && configured == old(configured) && errored == old(errored) && confGenerated == old(confGenerated)
      && round == old(round) && SameRequests()
      && updatesFrom == old(updatesFrom) && updatesTo == old(updatesTo)
    }

    lemma Launched(s: State, vdu: Vdu, names: seq<Inst>, done: seq<Vdu>, todo: seq<Vdu>)
      requires Orderly(s) && s.orch.pc == Launching(done, [vdu] + todo)
      requires vdu in s.tpl.specs && NoDup(names) && |names| == s.tpl.specs[vdu].count
      requires Abs() == s.(orch := LaunchVdu(s.orch, vdu, names).(pc := Launching(done + [vdu], todo)))
      ensures Valid()
    {
      hide NoDup, Orderly;
      OrderlyNext(s, Launch(names));
      assert ([vdu] + todo)[1..] == todo;
    }

    method Booted(vdu: Vdu, names: seq<Inst>, done: seq<Vdu>, todo: seq<Vdu>)
      requires Valid() && pc == Launching(done, [vdu] + todo)
      requires vdu in tpl.specs && NoDup(names) && |names| == tpl.specs[vdu].count
      modifies `instances, `deployed, `launchedIn, `pc
      ensures Valid() && pc == Launching(done + [vdu], todo) && deployed == old(deployed) + [vdu]
      ensures instances == old(instances)[vdu := names]
    {
      hide NoDup, Orderly;
      ghost var s := Abs();
      instances := instances[vdu := names];
      deployed := deployed + [vdu];
      launchedIn := launchedIn[vdu := round];
      pc := Launching(done + [vdu], todo);
      Launched(s, vdu, names, done, todo);
    }

    method GiveUp()
      requires Valid() && pc.Launching? && pc.todo != []
      modifies `pc, `status
      ensures Valid() && pc.Aborted? && status.Failed?
    {
      hide Enabled, Next, Orderly;
      ghost var s := Abs();
      pc, status := Aborted, Failed;
      BootFailStep(s);
      OrderlyNext(s, BootFails);
    }

    /** Boots the next VDU of the wave; the boot may fail, which ends the creation. */
    method LaunchVnfd(vdu: Vdu, done: seq<Vdu>, todo: seq<Vdu>) returns (booted: bool)
      requires Valid() && pc == Launching(done, [vdu] + todo)
      modifies this
      ensures Valid() && OnlyLaunched()
      ensures booted ==> pc == Launching(done + [vdu], todo) && deployed == old(deployed) + [vdu]
      ensures booted ==> vdu in instances && vdu in tpl.specs && |instances[vdu]| == tpl.specs[vdu].count
                         && instances == old(instances)[vdu := instances[vdu]]
      ensures !booted ==> pc.Aborted? && status.Failed?
    {
      hide NoDup, Valid;
      KnownNext(done, vdu, todo);
      booted := *;
      if booted {
        SomeNames(tpl.specs[vdu].count);
        var names: seq<Inst> :| NoDup(names) && |names| == tpl.specs[vdu].count;
        Booted(vdu, names, done, todo);
      } else {
        GiveUp();
      }
    }

    lemma KnownNext(done: seq<Vdu>, vdu: Vdu, todo: seq<Vdu>)
      requires Valid() && pc == Launching(done, [vdu] + todo)
      ensures vdu in tpl.specs
    {
      NextIsKnown(Abs(), done, vdu, todo);
    }

    method LaunchAll(vdus: seq<Vdu>) returns (booted: bool)
      requires Valid() && pc == Launching([], vdus)
      modifies this
      ensures Valid() && OnlyLaunched()
      ensures booted ==> pc == Launching(vdus, [])
      ensures !booted ==> pc.Aborted? && status.Failed?
    {
      hide Valid;
      for i := 0 to |vdus|
        invariant Valid() && OnlyLaunched() && pc == Launching(vdus[..i], vdus[i..])
      {
        assert vdus[i..] == [vdus[i]] + vdus[i + 1..] && vdus[..i + 1] == vdus[..i] + [vdus[i]];
        booted := LaunchVnfd(vdus[i], vdus[..i], vdus[i + 1..]);
        if !booted { return; }
      }
      assert vdus[..|vdus|] == vdus && vdus[|vdus|..] == [];
      booted := true;
    }

    // ---------- Sending a wave and waiting for it ----------

    method MarkGenerated(vdus: seq<Vdu>)
      modifies `confGenerated
      ensures confGenerated == old(confGenerated) + vdus
    {
      for i := 0 to |vdus|
        invariant confGenerated == old(confGenerated) + vdus[..i]
      {
        confGenerated := confGenerated + [vdus[i]];
      }
    }

    lemma Sent(s: State, vdus: seq<Vdu>)
      requires Orderly(s) && s.orch.pc == Launching(vdus, [])
      requires Abs() == s.(sent := s.sent + [NewConf(s.tpl, s.orch)], orch := WaveSent(s.orch, vdus))
      ensures Valid()
    {
      hide NewConf, Orderly, Ungenerated;
      OrderlyNext(s, SendConf);
    }

    method SendWave(vdus: seq<Vdu>)
      requires Valid() && pc == Launching(vdus, [])
      modifies this
      ensures Valid() && pc == Waiting(vdus) && sent == old(sent) + [NewConf(tpl, old(Orch()))]
      ensures configured == old(configured) && errored == old(errored) && round == old(round) && SameRequests()
      ensures updatesFrom == old(updatesFrom) && updatesTo == old(updatesTo)
    {
      hide Enabled, NewConf, Next, Orderly, Ungenerated;
      ghost var s := Abs();
      var conf := GenerateVnfmConf();
      if round > 0 {
        MarkGenerated(vdus);
      } else {
        assert confGenerated + [] == confGenerated;
      }
      sent := sent + [conf];
      pc := Waiting(vdus);
      Sent(s, vdus);
    }

    /** Waits until the wave is configured; an errored VDU ends the creation. */
    method AwaitWave(vdus: seq<Vdu>) returns (r: WaitResult)
      requires Valid() && pc == Waiting(vdus)
      modifies this
      ensures Valid() && round == old(round) && SameRequests()
      ensures updatesFrom == old(updatesFrom) && updatesTo == old(updatesTo) && old(configured) <= configured
      ensures r.Acked? ==> pc == Deciding && AllIn(vdus, configured)
      ensures r.RaisedError? ==> errored != [] && pc.Aborted?
      ensures r.Hung? ==> HasEmpty(tpl, vdus)
    {
      hide AllIn, Enabled, HasEmpty, Next, Orderly, Serverless;
      assert WaitsFor(Orch(), vdus);
      r := WaitForAcknowledgment(vdus);
      ghost var s := Abs();
      if r.Acked? {
        pc := Deciding;
        AckedStep(s, vdus);
        OrderlyNext(s, Acknowledged);
      } else if r.RaisedError? {
        assert errored != [];
        pc := Aborted;
        RaiseStep(s, vdus);
        OrderlyNext(s, Raise);
      }
    }

    // ---------- Creating a service ----------

    /** How a creation ends says what the template and the run were like. */
    ghost predicate EndsAs(e: Ending) reads this {
      var g := Deps(tpl);
      match e
      case Created => ToSet(configured) == tpl.specs.Keys && errored == [] && !HasEmpty(tpl, tpl.order)
                      && forall v :: v in g ==> !Unresolvable(g, v)
      case BootFailed => status.Failed?
      case Failure => errored != [] && status.Failed?
      case Stuck => HasEmpty(tpl, tpl.order)
      case Spins => (exists v :: v in g && Unresolvable(g, v))
                    && forall v :: v in configured <==> v in g && !Unresolvable(g, v)
    }

    lemma FailureIsFailed()
      requires Valid() && Unasked() && errored != []
      ensures status.Failed?
    {
      hide Orderly;
      StatusExact(Abs());
    }

    /** One turn of the resolving loop: launch what has become ready, tell the manager, and wait. */
    method NextWave(vdus: seq<Vdu>) returns (e: Ending)
      requires Valid() && pc == Deciding && |tpl.specs| != |configured| && Unasked()
      requires vdus == Ready(Deps(tpl), tpl.order, configured) && vdus != []
      modifies this
      ensures Valid() && Unasked() && updatesFrom == old(updatesFrom) && updatesTo == old(updatesTo)
      ensures !e.Created? && !e.Spins? ==> EndsAs(e)
      ensures e.Created? ==> pc == Deciding && |configured| > |old(configured)|
      ensures !e.Spins?
    {
      hide Abs, AllIn, Deps, HasEmpty, Ready, ToSet, Unresolvable, Valid;
      ghost var s := Abs();
      StartWave(vdus);
      ghost var before := configured;
      var booted := LaunchAll(vdus);
      if !booted { return BootFailed; }
      SendWave(vdus);
      var r := AwaitWave(vdus);
      NewAndMaybeEmpty(tpl, vdus, before);
      match r {
        case RaisedError =>
          FailureIsFailed();
          e := Failure;
        case Hung => e := Stuck;
        case Acked =>
          MoreConfigured(before, configured, vdus);
          e := Ending.Created;
      }
    }

    method StartWave(vdus: seq<Vdu>)
      requires Valid() && pc == Deciding && |tpl.specs| != |configured|
      requires vdus == Ready(Deps(tpl), tpl.order, configured)
      modifies `pc, `round
      ensures Valid() && pc == Launching([], vdus)
    {
      hide Deps, Enabled, Next, Orderly, Ready;
      ghost var s := Abs();
      pc, round := Launching([], vdus), round + 1;
      DecideStep(s);
      OrderlyNext(s, Decide);
    }

    /** The waves after the first. Without boot failures and errors the loop ends by itself exactly when every VDU is
        resolvable and has servers, having configured all of them; otherwise it hangs on a VDU without servers, or
        configures the resolvable ones and spins. */
    method ResolveDependency() returns (e: Ending)
      requires Valid() && pc == Deciding && updatesFrom == Deps(tpl) && Unasked()
      modifies this
      ensures Valid() && Unasked() && EndsAs(e)
      ensures e.Created? ==> pc.Deciding? && |tpl.specs| == |configured|
    {
      hide *;
      FewConfigured();
      while |tpl.specs| != |configured|
        invariant Valid() && pc == Deciding && updatesFrom == Deps(tpl) && Unasked()
        invariant |configured| <= |tpl.specs| && ValidTemplate(tpl)
        decreases |tpl.specs| - |configured|
      {
        var vdus := ReadyVdus();
        if vdus == [] {
          NothingLeft();
          return Spins;
        }
        e := NextWave(vdus);
        if !e.Created? { return; }
        FewConfigured();
      }
      AllLeft();
      e := Ending.Created;
    }

    /** The first wave: every VDU without dependencies. */
    method FirstWave() returns (e: Ending)
      requires Valid() && Abs() == Init(tpl)
      modifies this
      ensures Valid() && Unasked() && updatesFrom == Deps(tpl)
      ensures e.Created? ==> pc == Deciding
      ensures !e.Created? ==> EndsAs(e)
    {
      hide AllIn, Deps, HasEmpty, Ready, ToSet, Unresolvable;
      var independent := Prepare();
      var booted := LaunchAll(independent);
      if !booted { return BootFailed; }
      SendWave(independent);
      var r := AwaitWave(independent);
      NewAndMaybeEmpty(tpl, independent, []);
      match r {
        case RaisedError =>
          FailureIsFailed();
          e := Failure;
        case Hung => e := Stuck;
        case Acked => e := Ending.Created;
      }
    }

    method Prepare() returns (independent: seq<Vdu>)
      requires Valid() && Abs() == Init(tpl)
      modifies `updatesFrom, `updatesTo
      ensures Valid() && updatesFrom == Deps(tpl) && Unasked()
      ensures pc == Launching([], independent) && independent == Ready(Deps(tpl), tpl.order, [])
    {
      hide Dependents, Deps, Init, Orderly, Ready, ValidTemplate;
      FewConfigured();
      ghost var s := Abs();
      CreateDependencyDict();
      independent := IndependentVdus();
      Fresh(s, independent);
    }

    /** Creates the service. It ends ACTIVE exactly when the creation succeeds. */
    method DeployVnfs() returns (e: Ending)
      requires Valid() && Abs() == Init(tpl)
      modifies this
      ensures Valid() && EndsAs(e)
      ensures status.Active? <==> e.Created?
    {
      hide *;
      e := FirstWave();
      if e.Created? {
        e := ResolveDependency();
      }
      if e.Created? {
        SetActive();
      } else {
        NotActive(e);
      }
    }

    /** The dictionary is no part of the protocol's state. */
    lemma Fresh(s: State, independent: seq<Vdu>)
      requires s == Init(tpl) && Orderly(s) && Abs() == s && independent == Ready(Deps(tpl), tpl.order, [])
      ensures Valid() && pc == Launching([], independent) && Unasked()
    {
    }

    method SetActive()
      requires Valid() && pc == Deciding && |tpl.specs| == |configured| && EndsAs(Ending.Created)
      modifies `pc, `status
      ensures Valid() && EndsAs(Ending.Created) && status.Active? && pc.Idle?
    {
      hide Deps, Enabled, HasEmpty, Next, Orderly, Ready, ToSet, Unresolvable;
      ghost var s := Abs();
      pc, status := Idle, Active;
      DecideStep(s);
      OrderlyNext(s, Decide);
    }

    lemma NotActive(e: Ending)
      requires Valid() && EndsAs(e) && !e.Created? && Unasked()
      ensures !status.Active?
    {
      hide AcksOf, Deps, Orderly, ToSet, Unresolvable, ValidTemplate;
      if status.Active? {
        ActiveMeansConfigured(Abs());
        FewConfigured();
        InOrder(tpl);
        DepsKeys(tpl);
      }
    }

    // ---------- Scaling out ----------

    method ForgetGenerated(vdu: Vdu)
      modifies `confGenerated
      ensures confGenerated == RemoveAll(old(confGenerated), vdu)
    {
      hide *;
      while vdu in confGenerated
        invariant RemoveAll(confGenerated, vdu) == RemoveAll(old(confGenerated), vdu)
        decreases |confGenerated|
      {
        RemoveFirstThenAll(confGenerated, vdu);
        confGenerated := RemoveFirst(confGenerated, vdu);
      }
      RemoveFirstThenAll(confGenerated, vdu);
    }

    method TakeOffLists(vdu: Vdu)
      modifies `status, `configured, `confGenerated, `deployed
      ensures status == InProgress && configured == RemoveFirst(old(configured), vdu)
      ensures confGenerated == RemoveAll(old(confGenerated), vdu) && deployed == RemoveFirst(old(deployed), vdu)
    {
      hide *;
      status := InProgress;
      configured := RemoveFirst(configured, vdu);
      ForgetGenerated(vdu);
      deployed := RemoveFirst(deployed, vdu);
    }

    method AppendServer(vdu: Vdu, name: Inst)
      requires vdu in instances
      modifies `deployed, `instances
      ensures deployed == old(deployed) + [vdu] && instances == old(instances)[vdu := old(instances)[vdu] + [name]]
    {
      instances := instances[vdu := instances[vdu] + [name]];
      deployed := deployed + [vdu];
    }

    lemma ServerAdded(s: State, vdu: Vdu, name: Inst)
      requires Orderly(s) && s.orch.pc.Idle? && CanScale(s.tpl, s.orch, vdu)
      requires vdu in s.orch.insts && name !in s.orch.insts[vdu]
      requires Abs() == s.(orch := BeginScale(s.orch, vdu, name), scales := s.scales + 1)
      ensures Valid()
    {
      hide CanScale, Orderly;
      OrderlyNext(s, Scale(vdu, name));
    }

    method AddServer(vdu: Vdu, name: Inst)
      requires Valid() && pc.Idle? && CanScale(tpl, Orch(), vdu) && vdu in instances && name !in instances[vdu]
      modifies `status, `configured, `confGenerated, `deployed, `instances, `pc, `scales
      ensures Valid() && configured == RemoveFirst(old(configured), vdu)
      ensures deployed == RemoveFirst(old(deployed), vdu) + [vdu]
      ensures pc == Scaling(vdu) && instances == old(instances)[vdu := old(instances)[vdu] + [name]]
    {
      hide CanScale, Orderly, RemoveAll, RemoveFirst;
      ghost var s := Abs();
      TakeOffLists(vdu);
      AppendServer(vdu, name);
      pc, scales := Scaling(vdu), scales + 1;
      ServerAdded(s, vdu, name);
    }

    lemma VduLost(s: State, vdu: Vdu)
      requires Orderly(s) && s.orch.pc.Idle? && CanScale(s.tpl, s.orch, vdu)
      requires Abs() == s.(orch := DropScaled(s.orch, vdu), scales := s.scales + 1)
      ensures Valid()
    {
      hide CanScale, Orderly;
      OrderlyNext(s, ScaleBootFails(vdu));
    }

    /** The boot raises, and `create_scale` catches the exception. */
    method LoseVdu(vdu: Vdu)
      requires Valid() && pc.Idle? && CanScale(tpl, Orch(), vdu)
      modifies `status, `configured, `confGenerated, `deployed, `scales, `dropped
      ensures Valid() && configured == RemoveFirst(old(configured), vdu) && deployed == RemoveFirst(old(deployed), vdu)
      ensures status.Active? && dropped == old(dropped) + {vdu}
    {
      hide CanScale, Orderly, RemoveAll, RemoveFirst;
      ghost var s := Abs();
      TakeOffLists(vdu);
      status, scales, dropped := Active, scales + 1, dropped + {vdu};
      VduLost(s, vdu);
    }

    /** Takes the VDU off the three lists and boots one more server for it; when the boot fails the request ends. */
    method PrepareScale(vdu: Vdu) returns (booted: bool)
      requires Valid() && pc.Idle? && CanScale(tpl, Orch(), vdu)
      modifies `status, `configured, `confGenerated, `deployed, `instances, `pc, `scales, `dropped
      ensures Valid() && configured == RemoveFirst(old(configured), vdu)
      ensures booted ==> pc == Scaling(vdu) && dropped == old(dropped) && deployed == RemoveFirst(old(deployed), vdu) + [vdu]
      ensures booted ==> vdu in old(instances) && vdu in instances && Added(old(instances)[vdu], instances[vdu])
                         && instances == old(instances)[vdu := instances[vdu]]
      ensures !booted ==> pc == Idle && status.Active? && dropped == old(dropped) + {vdu}
                          && deployed == RemoveFirst(old(deployed), vdu) && instances == old(instances)
    {
      hide *;
      Fields();
      CanScaleMeans(tpl, Orch(), vdu);
      booted := *;
      if booted {
        NewName(instances[vdu]);
        var name: Inst :| name !in instances[vdu];
        AddedOne(instances[vdu], name);
        AddServer(vdu, name);
      } else {
        LoseVdu(vdu);
      }
    }

    lemma ScaleIsSent(s: State, vdu: Vdu)
      requires Orderly(s) && s.orch.pc == Scaling(vdu)
      requires Abs() == s.(scaleMsgs := s.scaleMsgs + [NewConf(s.tpl, s.orch)], orch := ScaleSent(s.orch, vdu))
      ensures Valid() && vdu in s.orch.insts && vdu in s.tpl.specs
      ensures NewConf(s.tpl, s.orch) == [VduConf(vdu, s.orch.insts[vdu], s.tpl.specs[vdu].driver)]
    {
      hide NewConf, Orderly, Ungenerated;
      ScaleNamesOnlyScaled(s);
      OrderlyNext(s, SendScale);
      assert Next(s, SendScale).scaleMsgs[|s.scaleMsgs|] == NewConf(s.tpl, s.orch);
    }

    method SendScaleMessage(vdu: Vdu)
      requires Valid() && pc == Scaling(vdu)
      modifies `confGenerated, `scaleMsgs, `pc
      ensures Valid() && pc == ScaleWaiting(vdu) && vdu in instances && vdu in tpl.specs
      ensures scaleMsgs == old(scaleMsgs) + [[VduConf(vdu, instances[vdu], tpl.specs[vdu].driver)]]
    {
      hide Enabled, NewConf, Next, Orderly, Ungenerated;
      ghost var s := Abs();
      var conf := GenerateVnfmConf();
      scaleMsgs := scaleMsgs + [conf];
      pc := ScaleWaiting(vdu);
      ScaleIsSent(s, vdu);
    }

    /** Between requests the lists hold what `SettledLists` says. */
    ghost predicate ListsSettled() reads this {
      && ToSet(deployed) == tpl.specs.Keys - dropped
      && (forall v :: v in configured <==> v in tpl.specs && v !in errored && v !in dropped)
    }

    /** What the caller makes of the wait's end: an error surfaces as an exception, after which the service is ACTIVE. */
    method Settle(vdu: Vdu, r: WaitResult) returns (ok: bool)
      requires Valid() && pc == ScaleWaiting(vdu) && !r.Hung?
      requires r.Acked? ==> AllIn([vdu], configured) && !AnyIn([vdu], errored)
      requires r.RaisedError? ==> AnyIn([vdu], errored)
      modifies `pc, `status
      ensures Valid() && pc == Idle && (ok <==> vdu in configured)
    {
      hide AcksOf, Enabled, Next, Orderly;
      ghost var s := Abs();
      ListsMeanAcks(s, vdu);
      pc := Idle;
      ok := r.Acked?;
      if ok {
        assert vdu in [vdu];
        ScaleDoneStep(s, vdu);
        OrderlyNext(s, ScaleDone);
      } else {
        status := Active;
        ScaleRaiseStep(s, vdu);
        OrderlyNext(s, ScaleRaise);
      }
    }

    /** Tells the manager about the new server and waits until it is configured or errors. */
    method AwaitScale(vdu: Vdu) returns (ok: bool)
      requires Valid() && pc == Scaling(vdu) && vdu in instances && instances[vdu] != []
      modifies this
      ensures Valid() && pc.Idle? && (ok <==> vdu in configured) && SameRequests()
      ensures instances == old(instances) && deployed == old(deployed) && old(configured) <= configured
    {
      hide Abs, AllIn, AnyIn, HasEmpty, Valid;
      SendScaleMessage(vdu);
      assert WaitsFor(Orch(), [vdu]);
      var wait := WaitForAcknowledgment([vdu]);
      assert !Serverless(instances, [vdu]);
      ok := Settle(vdu, wait);
    }

    /** What scaling out one VDU does when the orchestrator is idle. A VDU not on `configured` makes `list.remove` raise
        before anything changed. Any other gets exactly one more server, and ends configured again unless that server
        errors; or its boot fails, and it is dropped. */
    twostate predicate OneScaled(vdu: Vdu, r: ScaleResult) reads this {
      && ListsSettled() && refused == old(refused) && (r.Scaled? || r.ScaleRaised?)
      && instances.Keys == old(instances).Keys
      && (forall v :: v in old(configured) && v != vdu ==> v in configured)
      && (forall v :: v in instances && v != vdu ==> instances[v] == old(instances)[v])
      && (if vdu !in old(configured) then r.ScaleRaised? && Abs() == old(Abs())
          else
            && vdu in instances && (r.Scaled? <==> vdu in configured)
            && (if vdu in dropped then r.ScaleRaised? && instances == old(instances) && dropped == old(dropped) + {vdu}
                else Added(old(instances)[vdu], instances[vdu]) && dropped == old(dropped)))
    }

    lemma MayScale(vdu: Vdu)
      requires vdu in configured && vdu in instances && !HasDependents(tpl, vdu)
      ensures CanScale(tpl, Orch(), vdu)
    {
    }

    lemma Settled()
      requires Valid() && pc.Idle?
      ensures ListsSettled() && NoDup(configured) && forall v :: v in configured ==> v in instances
    {
      hide AcksOf, NoDup, Orderly, ToSet;
      SettledLists(Abs());
    }

    /** It cannot wait forever. */
    method ScaleIdle(vdu: Vdu) returns (r: ScaleResult)
      requires Valid() && pc.Idle? && !HasDependents(tpl, vdu)
      modifies this
      ensures Valid() && pc.Idle? && OneScaled(vdu, r)
    {
      hide Abs, Added, AllIn, AnyIn, CanScale, HasDependents, HasEmpty, NoDup, RemoveFirst, ToSet, Valid;
      Settled();
      RemoveFirstMembers(configured, vdu);
      if vdu !in configured {
        // `list.remove` raises, and nothing has been changed yet.
        return ScaleRaised;
      }
      MayScale(vdu);
      var booted := PrepareScale(vdu);
      if !booted {
        Settled();
        return ScaleRaised;
      }
      AddedSome(old(instances)[vdu], instances[vdu]);
      var ok := AwaitScale(vdu);
      r := if ok then Scaled else ScaleRaised;
      Settled();
    }

    method BeginBeside(vdu: Vdu)
      modifies `others, `scales, `overlapped
      ensures others == old(others) + [Scaling(vdu)] && scales == old(scales) + 1 && overlapped
    {
      others, scales, overlapped := others + [Scaling(vdu)], scales + 1, true;
    }

    lemma AddedBeside(s: State, vdu: Vdu, name: Inst)
      requires Orderly(s) && !s.orch.pc.Idle? && s.orch.status.Active? && CanScale(s.tpl, s.orch, vdu)
      requires vdu in s.orch.insts && name !in s.orch.insts[vdu]
      requires Abs() == s.(orch := BeginScale(s.orch, vdu, name).(pc := s.orch.pc), others := s.others + [Scaling(vdu)],
                           scales := s.scales + 1, overlapped := true)
      ensures Reachable(Abs())
    {
      hide CanScale, Reachable;
      ReachableNext(s, OverlapScale(vdu, name));
    }

    method AddBeside(vdu: Vdu, name: Inst)
      requires Valid() && !pc.Idle? && status.Active? && CanScale(tpl, Orch(), vdu)
      requires vdu in instances && name !in instances[vdu]
      modifies `status, `configured, `confGenerated, `deployed, `instances, `others, `scales, `overlapped
      ensures Reachable(Abs()) && overlapped && others == old(others) + [Scaling(vdu)]
      ensures configured == RemoveFirst(old(configured), vdu) && deployed == RemoveFirst(old(deployed), vdu) + [vdu]
      ensures instances == old(instances)[vdu := old(instances)[vdu] + [name]]
      ensures confGenerated == RemoveAll(old(confGenerated), vdu)
    {
      hide CanScale, Orderly, Reachable, RemoveAll, RemoveFirst;
      ghost var s := Abs();
      TakeOffLists(vdu);
      AppendServer(vdu, name);
      BeginBeside(vdu);
      AddedBeside(s, vdu, name);
    }

    lemma LostBeside(s: State, vdu: Vdu)
      requires Orderly(s) && !s.orch.pc.Idle? && s.orch.status.Active? && CanScale(s.tpl, s.orch, vdu)
      requires Abs() == s.(orch := DropScaled(s.orch, vdu), scales := s.scales + 1, overlapped := true)
      ensures Reachable(Abs())
    {
      hide CanScale, Reachable;
      ReachableNext(s, OverlapBootFails(vdu));
    }

    method LoseBeside(vdu: Vdu)
      requires Valid() && !pc.Idle? && status.Active? && CanScale(tpl, Orch(), vdu)
      modifies `status, `configured, `confGenerated, `deployed, `scales, `dropped, `overlapped
      ensures Reachable(Abs()) && status.Active? && dropped == old(dropped) + {vdu}
      ensures configured == RemoveFirst(old(configured), vdu) && deployed == RemoveFirst(old(deployed), vdu)
    {
      hide CanScale, Orderly, Reachable, RemoveAll, RemoveFirst;
      ghost var s := Abs();
      TakeOffLists(vdu);
      status, scales, dropped, overlapped := Active, scales + 1, dropped + {vdu}, true;
      LostBeside(s, vdu);
    }

    lemma SentBeside(s: State, before: seq<Pc>, vdu: Vdu)
      requires Reachable(s) && s.overlapped && s.others == before + [Scaling(vdu)]
      requires Abs() == s.(scaleMsgs := s.scaleMsgs + [NewConf(s.tpl, s.orch)], others := before + [ScaleWaiting(vdu)],
                           orch := s.orch.(confGenerated := s.orch.confGenerated
                                                            + Ungenerated(s.orch.deployed, s.orch.confGenerated)))
      ensures Reachable(Abs())
    {
      hide NewConf, Reachable, Ungenerated;
      assert s.others[|before|] == Scaling(vdu) && s.others[|before| := ScaleWaiting(vdu)] == before + [ScaleWaiting(vdu)];
      ReachableNext(s, OverlapSend(|before|));
    }

    method SendBeside(vdu: Vdu, ghost before: seq<Pc>)
      requires Reachable(Abs()) && overlapped && others == before + [Scaling(vdu)]
      modifies `confGenerated, `scaleMsgs, `others
      ensures Reachable(Abs()) && others == before + [ScaleWaiting(vdu)]
      ensures scaleMsgs == old(scaleMsgs) + [NewConf(tpl, old(Orch()))]
    {
      hide NewConf, Reachable, Ungenerated;
      ghost var s := Abs();
      var conf := GenerateVnfmConf();
      scaleMsgs := scaleMsgs + [conf];
      others := others[..|others| - 1] + [ScaleWaiting(vdu)];
      SentBeside(s, before, vdu);
    }

    /** What a request does that is let in while the orchestrator is not idle, up to its message: the lists change under
        the orchestrator's own thread, and the message also names the VDUs launched since the last one. */
    method ScaleBeside(vdu: Vdu) returns (r: ScaleResult)
      requires Valid() && !pc.Idle? && status.Active? && !HasDependents(tpl, vdu)
      modifies `status, `configured, `confGenerated, `deployed, `instances, `others, `scales, `dropped, `overlapped
      modifies `scaleMsgs
      ensures Reachable(Abs()) && refused > 0
      ensures r.Overlapping? || (r.ScaleRaised? && status.Active?)
      ensures vdu !in old(configured) ==> r.ScaleRaised? && Abs() == old(Abs())
      ensures vdu in old(configured) ==> configured == RemoveFirst(old(configured), vdu)
      ensures vdu in old(configured) && r.ScaleRaised? ==>
                deployed == RemoveFirst(old(deployed), vdu) && instances == old(instances) && scaleMsgs == old(scaleMsgs)
      ensures r.Overlapping? ==>
                && vdu in old(instances) && vdu in instances && Added(old(instances)[vdu], instances[vdu])
                && instances == old(instances)[vdu := instances[vdu]]
                && deployed == RemoveFirst(old(deployed), vdu) + [vdu] && others == old(others) + [ScaleWaiting(vdu)]
                && |scaleMsgs| == |old(scaleMsgs)| + 1
                && ConfVdus(scaleMsgs[|old(scaleMsgs)|]) == {vdu} + (ToSet(old(deployed)) - ToSet(old(confGenerated)))
    {
      hide *;
      ghost var s := Abs();
      Fields();
      RefusedBefore(s);
      OrderlyReachable(s);
      if vdu !in configured {
        return ScaleRaised;
      }
      ConfiguredHasServers(s, vdu);
      MayScale(vdu);
      var booted := *;
      if !booted {
        LoseBeside(vdu);
        return ScaleRaised;
      }
      NewName(instances[vdu]);
      var name: Inst :| name !in instances[vdu];
      AddedOne(instances[vdu], name);
      AddBeside(vdu, name);
      Fields();
      UnsentNamed(s, Orch(), vdu, name);
      SendBeside(vdu, s.others);
      r := Overlapping;
    }

    /** Scales out one VDU, as the loop of a request does it. */
    method ScaleOut(vdu: Vdu) returns (r: ScaleResult)
      requires Valid() && (pc.Idle? || status.Active?) && !HasDependents(tpl, vdu)
      modifies this
      ensures Reachable(Abs()) && refused == old(refused)
      ensures old(pc).Idle? ==> Valid() && pc.Idle? && OneScaled(vdu, r)
      ensures !old(pc).Idle? ==> refused > 0 && (r.Overlapping? || (r.ScaleRaised? && status.Active?))
      ensures !old(pc).Idle? && vdu !in old(configured) ==> r.ScaleRaised? && Abs() == old(Abs())
      ensures !old(pc).Idle? && vdu in old(configured) ==> configured == RemoveFirst(old(configured), vdu)
      ensures r.Overlapping? ==>
                && vdu in old(instances) && vdu in instances && Added(old(instances)[vdu], instances[vdu])
                && instances == old(instances)[vdu := instances[vdu]]
                && |scaleMsgs| == |old(scaleMsgs)| + 1
                && ConfVdus(scaleMsgs[|old(scaleMsgs)|]) == {vdu} + (ToSet(old(deployed)) - ToSet(old(confGenerated)))
    {
      hide Abs, Added, ConfVdus, HasDependents, ListsSettled, Orderly, Reachable, RemoveFirst, ToSet;
      if pc.Idle? {
        r := ScaleIdle(vdu);
        OrderlyReachable(Abs());
      } else {
        r := ScaleBeside(vdu);
      }
    }

    /** The loop of a request that finds the orchestrator idle. */
    method ScaleEach(vdus: seq<Vdu>) returns (r: ScaleResult)
      requires Valid() && pc.Idle? && forall v :: v in vdus ==> !HasDependents(tpl, v)
      modifies this
      ensures Valid() && pc.Idle? && ListsSettled() && refused == old(refused) && (r.Scaled? || r.ScaleRaised?)
      ensures instances.Keys == old(instances).Keys && old(dropped) <= dropped <= old(dropped) + ToSet(vdus)
      ensures forall v :: v in old(configured) && v !in vdus ==> v in configured
      ensures forall v :: v in instances && v !in vdus ==> instances[v] == old(instances)[v]
      ensures r.Scaled? ==> dropped == old(dropped) && forall v :: v in vdus ==> v in configured
      ensures r.Scaled? ==> forall v :: v in instances ==> |instances[v]| == |old(instances)[v]| + Occurrences(vdus, v)
    {
      hide HasDependents, ListsSettled, NoDup, Occurrences, Orderly, Reachable, RemoveFirst, Valid;
      Settled();
      NoneOf(vdus);
      r := Scaled;
      for i := 0 to |vdus|
        invariant Valid() && pc.Idle? && ListsSettled() && refused == old(refused) && r.Scaled?
        invariant instances.Keys == old(instances).Keys && dropped == old(dropped)
        invariant forall v :: v in old(configured) && v !in vdus ==> v in configured
        invariant forall v :: v in instances && v !in vdus ==> instances[v] == old(instances)[v]
        invariant forall v :: v in vdus[..i] ==> v in configured
        invariant forall v :: v in instances ==> |instances[v]| == |old(instances)[v]| + Occurrences(vdus[..i], v)
      {
        OneMoreOf(vdus, i);
        r := ScaleOut(vdus[i]);
        if !r.Scaled? { return; }
      }
      assert vdus[..|vdus|] == vdus;
    }

    /** Before a request is refused, ACTIVE means idle. */
    lemma NotBeside()
      requires Valid()
      ensures Reachable(Abs()) && (refused == 0 && status.Active? ==> pc.Idle?)
    {
      hide Reachable;
      if refused == 0 { GuardMeansIdle(Abs()); }
    }

    method Refuse()
      requires Valid()
      modifies `status, `refused
      ensures Valid() && status.Active?
      ensures if old(status).Active? then Abs() == old(Abs())
              else Abs() == old(Abs()).(orch := old(Orch()).(status := Active), refused := old(refused) + 1)
    {
      hide Enabled, Next, Reachable;
      ghost var s := Abs();
      if !status.Active? {
        status, refused := Active, refused + 1;
        RefuseStep(s);
        OrderlyNext(s, RefuseScale);
      }
    }

    method Report()
      requires Valid() && pc.Idle?
      modifies `status
      ensures Valid() && status.Active?
    {
      hide Enabled, Next, Reachable;
      ghost var s := Abs();
      if !status.Active? {
        status := Active;
        ReportStep(s);
        OrderlyNext(s, ReportScale);
      }
    }

    /** Scales the VDUs of a policy out one after the other. A request to a service that is not ACTIVE is refused; that
        makes the service ACTIVE, which alone lets a later request in while the orchestrator is not idle. Any other
        request finds it idle, leaves the service ACTIVE, and touches only what it was made for. */
    method CreateScale(vdus: seq<Vdu>) returns (r: ScaleResult)
      requires Valid() && forall v :: v in vdus ==> !HasDependents(tpl, v)
      modifies this
      ensures Reachable(Abs())
      ensures old(refused) == 0 && old(status).Active? ==> old(pc).Idle?
      ensures r.Refused? <==> !old(status).Active? || vdus == []
      ensures old(status).Active? && vdus == [] ==> Abs() == old(Abs())
      ensures !old(status).Active? ==>
                r.Refused? && Abs() == old(Abs()).(orch := old(Orch()).(status := Active), refused := old(refused) + 1)
      ensures r.Overlapping? ==> old(status).Active? && !old(pc).Idle? && old(refused) > 0
      ensures !r.Overlapping? ==> status.Active?
      ensures old(status).Active? && old(pc).Idle? ==>
                && Valid() && pc.Idle? && ListsSettled() && refused == old(refused)
                && instances.Keys == old(instances).Keys
                && old(dropped) <= dropped <= old(dropped) + ToSet(vdus)
                && (forall v :: v in old(configured) && v !in vdus ==> v in configured)
                && (forall v :: v in instances && v !in vdus ==> instances[v] == old(instances)[v])
      ensures r.Scaled? ==>
                && old(status).Active? && old(pc).Idle? && dropped == old(dropped)
                && (forall v :: v in vdus ==> v in configured)
                && (forall v :: v in instances ==> |instances[v]| == |old(instances)[v]| + Occurrences(vdus, v))
    {
      hide *;
      Fields();
      NotBeside();
      if !status.Active? || vdus == [] {
        Refuse();
        Fields();
        NotBeside();
        if pc.Idle? { Settled(); }
        return Refused;
      }
      if !pc.Idle? {
        r := ScaleOut(vdus[0]);
        return;
      }
      r := ScaleEach(vdus);
      Report();
      Settled();
      NotBeside();
    }

    lemma FewConfigured()
      requires Valid()
      ensures |configured| <= |tpl.specs| && ValidTemplate(tpl)
    {
      hide Orderly, ValidTemplate;
      TemplateOk(Abs());
    }

    lemma NothingLeft()
      requires Valid() && pc == Deciding && |tpl.specs| != |configured| && Ready(Deps(tpl), tpl.order, configured) == []
      ensures EndsAs(Spins)
    {
      hide Deps, HasEmpty, Orderly, Ready, ToSet, Unresolvable;
      SpinsForUnresolvable(Abs());
    }

    lemma AllLeft()
      requires Valid() && pc == Deciding && |tpl.specs| == |configured| && Unasked()
      ensures EndsAs(Ending.Created)
    {
      hide Deps, HasEmpty, Orderly, ToSet, Unresolvable;
      AllResolved(Abs());
    }
  }

  // ---------- Loop steps of the methods above ----------

  lemma InOrder(t: Template)
    requires ValidTemplate(t)
    ensures forall v :: v in t.order <==> v in t.specs
  {
    forall v ensures v in t.order <==> v in t.specs {
      assert v in ToSet(t.order) <==> v in t.specs.Keys;
    }
  }

  lemma FromIsDeps(t: Template, from: Graph)
    requires from.Keys == t.specs.Keys && forall v :: v in t.specs ==> from[v] == t.specs[v].deps
    ensures from == Deps(t)
  {
  }

  lemma NextInOrder(t: Template, i: nat)
    requires ValidTemplate(t) && i < |t.order|
    ensures t.order[i] in t.specs && t.order[i] !in t.order[..i]
    ensures forall v :: v in t.order[..i + 1] <==> v in t.order[..i] || v == t.order[i]
  {
    InOrder(t);
    assert t.order[i] in t.order;
    assert t.order[..i + 1] == t.order[..i] + [t.order[i]];
  }

  lemma NothingYet(t: Template)
    ensures forall v :: Dependents(t, t.order[..0], v) == []
  {
  }

  lemma NoneYet(u: Vdu, deps: seq<Vdu>)
    ensures forall v :: Times(u, Occurrences(deps[..0], v)) == []
  {
  }

  lemma OneMore(u: Vdu, deps: seq<Vdu>, j: nat)
    requires j < |deps|
    ensures forall v :: Times(u, Occurrences(deps[..j + 1], v))
                        == Times(u, Occurrences(deps[..j], v)) + if v == deps[j] then [u] else []
  {
    assert deps[..j + 1][..j] == deps[..j];
  }

  lemma NoneOf(list: seq<Vdu>)
    ensures forall v :: Occurrences(list[..0], v) == 0
  {
  }

  lemma OneMoreOf(list: seq<Vdu>, i: nat)
    requires i < |list|
    ensures list[i] in list && list[..i + 1] == list[..i] + [list[i]]
    ensures forall v :: Occurrences(list[..i + 1], v) == Occurrences(list[..i], v) + if v == list[i] then 1 else 0
  {
    assert list[..i + 1][..i] == list[..i];
  }

  lemma NextDependents(t: Template, i: nat)
    requires i < |t.order| && t.order[i] in t.specs
    ensures forall v :: Dependents(t, t.order[..i + 1], v) ==
                        Dependents(t, t.order[..i], v) + Times(t.order[i], Occurrences(t.specs[t.order[i]].deps, v))
  {
    assert t.order[..i + 1][..i] == t.order[..i];
  }

  lemma {:induction false} OccurrencesCount(list: seq<Vdu>, v: Vdu)
    ensures Occurrences(list, v) == multiset(list)[v]
  {
    if list != [] {
      OccurrencesCount(list[..|list| - 1], v);
      assert list == list[..|list| - 1] + [list[|list| - 1]];
    }
  }

  lemma {:induction false} TimesCount(u: Vdu, n: nat, w: Vdu)
    ensures multiset(Times(u, n))[w] == if w == u then n else 0
  {
    if n > 0 {
      TimesCount(u, n - 1, w);
      assert Times(u, n) == Times(u, n - 1) + [u];
    }
  }

  /** `updatesTo` is the converse of `updatesFrom`, multiplicities included: `u` is listed under `v` as often as `u`'s
      own list names `v`. */
  lemma {:induction false} UpdatesToIsConverse(t: Template, order: seq<Vdu>, u: Vdu, v: Vdu)
    requires NoDup(order) && forall w :: w in order ==> w in t.specs
    ensures multiset(Dependents(t, order, v))[u] == if u in order then multiset(t.specs[u].deps)[v] else 0
  {
    if order != [] {
      var init, last := order[..|order| - 1], order[|order| - 1];
      assert order == init + [last];
      UpdatesToIsConverse(t, init, u, v);
      OccurrencesCount(t.specs[last].deps, v);
      TimesCount(last, Occurrences(t.specs[last].deps, v), u);
      assert Dependents(t, order, v) == Dependents(t, init, v) + Times(last, Occurrences(t.specs[last].deps, v));
      assert multiset(Dependents(t, order, v))
             == multiset(Dependents(t, init, v)) + multiset(Times(last, Occurrences(t.specs[last].deps, v)));
    }
  }

  /** A VDU's dependents are listed in the order of the template. */
  lemma {:induction false} DependentsInOrder(t: Template, order: seq<Vdu>, v: Vdu, a: nat, b: nat)
    requires a <= b < |Dependents(t, order, v)|
    ensures exists p, q :: 0 <= p <= q < |order| && order[p] == Dependents(t, order, v)[a] && order[q] == Dependents(t, order, v)[b]
  {
    var init, last := order[..|order| - 1], |order| - 1;
    var before := Dependents(t, init, v);
    var list := Dependents(t, order, v);
    if b < |before| {
      DependentsInOrder(t, init, v, a, b);
      var p, q :| 0 <= p <= q < |init| && init[p] == before[a] && init[q] == before[b];
      assert order[p] == list[a] && order[q] == list[b];
    } else if a < |before| {
      DependentsInOrder(t, init, v, a, a);
      var p, q :| 0 <= p <= q < |init| && init[p] == before[a] && init[q] == before[a];
      assert order[p] == list[a] && order[last] == list[b];
    } else {
      assert order[last] == list[a] && order[last] == list[b];
    }
  }

  lemma UngeneratedNone(generated: seq<Vdu>)
    ensures Ungenerated([], generated) == []
  {
  }

  lemma {:induction false} UngeneratedSnoc(list: seq<Vdu>, v: Vdu, generated: seq<Vdu>)
    ensures Ungenerated(list + [v], generated) == Ungenerated(list, generated) + if v in generated then [] else [v]
  {
    if list == [] {
      assert [] + [v] == [v] && [v][1..] == [];
    } else {
      UngeneratedSnoc(list[1..], v, generated);
      assert (list + [v])[1..] == list[1..] + [v];
    }
  }

  lemma ConfOfNone(t: Template, insts: map<Vdu, seq<Inst>>)
    ensures ConfOf(t, insts, []) == []
  {
  }

  lemma {:induction false} ConfOfSnoc(t: Template, insts: map<Vdu, seq<Inst>>, list: seq<Vdu>, v: Vdu)
    ensures ConfOf(t, insts, list + [v]) ==
            ConfOf(t, insts, list)
            + [VduConf(v, if v in insts then insts[v] else [], v in t.specs && t.specs[v].driver)]
  {
    if list == [] {
      assert [] + [v] == [v] && [v][1..] == [];
    } else {
      ConfOfSnoc(t, insts, list[1..], v);
      assert (list + [v])[1..] == list[1..] + [v];
    }
  }

  // ---------- The actions the statements perform ----------

  lemma NextIsKnown(s: State, done: seq<Vdu>, v: Vdu, todo: seq<Vdu>)
    requires Orderly(s) && s.orch.pc == Launching(done, [v] + todo)
    ensures v in s.tpl.specs
  {
    hide *;
    InvAlways(s);
    Parts(s);
    LaunchFacts(s.tpl, s.orch, done, v, todo);
  }

  /** There are always enough names. */
  lemma SomeNames(n: nat)
    ensures exists names: seq<Inst> :: NoDup(names) && |names| == n
  {
    var names := seq(n, i requires 0 <= i < n => seq(i, j => 'x'));
    assert forall i, j :: 0 <= i < j < n ==> |names[i]| != |names[j]|;
    assert NoDup(names) && |names| == n;
  }

  lemma BootFailStep(s: State)
    requires s.orch.pc.Launching? && s.orch.pc.todo != []
    ensures Enabled(s, BootFails) && Next(s, BootFails) == s.(orch := s.orch.(pc := Aborted, status := Failed))
  {
  }

  lemma AckedStep(s: State, wave: seq<Vdu>)
    requires s.orch.pc == Waiting(wave) && AllIn(wave, s.orch.configured) && !AnyIn(wave, s.orch.errored)
    ensures Enabled(s, Acknowledged) && Next(s, Acknowledged) == s.(orch := s.orch.(pc := Deciding))
  {
  }

  lemma RaiseStep(s: State, wave: seq<Vdu>)
    requires s.orch.pc == Waiting(wave) && AnyIn(wave, s.orch.errored)
    ensures Enabled(s, Raise) && Next(s, Raise) == s.(orch := s.orch.(pc := Aborted))
  {
  }

  lemma DecideStep(s: State)
    requires s.orch.pc.Deciding?
    ensures Enabled(s, Decide)
    ensures Next(s, Decide) ==
            if |s.tpl.specs| == |s.orch.configured| then s.(orch := s.orch.(pc := Idle, status := Active))
            else s.(orch := s.orch.(pc := Launching([], Ready(Deps(s.tpl), s.tpl.order, s.orch.configured)), round := s.orch.round + 1))
  {
  }

  /** One more server, of a new name. */
  ghost predicate Added(before: seq<Inst>, after: seq<Inst>) {
    exists name :: name !in before && after == before + [name]
  }

  lemma AddedOne(before: seq<Inst>, name: Inst)
    requires name !in before
    ensures Added(before, before + [name])
  {
  }

  lemma AddedSome(before: seq<Inst>, after: seq<Inst>)
    requires Added(before, after)
    ensures after != []
  {
  }

  lemma CanScaleMeans(t: Template, o: Orch, v: Vdu)
    requires CanScale(t, o, v)
    ensures v in o.configured && v in o.insts
  {
  }

  lemma OrderlyReachable(s: State)
    requires Orderly(s)
    ensures Reachable(s)
  {
  }

  /** Only a refused request makes a service ACTIVE whose orchestrator is not idle. */
  lemma RefusedBefore(s: State)
    requires Orderly(s) && s.orch.status.Active? && !s.orch.pc.Idle?
    ensures s.refused > 0
  {
    hide Reachable;
    if s.refused == 0 { GuardMeansIdle(s); }
  }

  lemma UnsentNamed(s: State, o: Orch, v: Vdu, name: Inst)
    requires Orderly(s) && v in s.orch.configured && v in s.orch.insts && name !in s.orch.insts[v]
    requires o.insts == s.orch.insts[v := s.orch.insts[v] + [name]] && o.confGenerated == RemoveAll(s.orch.confGenerated, v)
    requires o.deployed == RemoveFirst(s.orch.deployed, v) + [v] && o.dropped == s.orch.dropped
    ensures ConfVdus(NewConf(s.tpl, o)) == {v} + (ToSet(s.orch.deployed) - ToSet(s.orch.confGenerated))
  {
    hide *;
    InvAlways(s);
    Parts(s);
    UnsentAfter(s.tpl, s.orch, o, v, name, s.mgr.drv);
  }

  lemma ConfiguredHasServers(s: State, v: Vdu)
    requires Orderly(s) && v in s.orch.configured
    ensures v in s.orch.insts
  {
    hide *;
    ListsMeanAcks(s, v);
  }

  lemma ScaleDoneStep(s: State, v: Vdu)
    requires s.orch.pc == ScaleWaiting(v) && v !in s.orch.errored && v in s.orch.configured
    ensures Enabled(s, ScaleDone) && Next(s, ScaleDone) == s.(orch := s.orch.(pc := Idle))
  {
  }

  lemma ScaleRaiseStep(s: State, v: Vdu)
    requires s.orch.pc == ScaleWaiting(v) && v in s.orch.errored
    ensures Enabled(s, ScaleRaise) && Next(s, ScaleRaise) == s.(orch := s.orch.(pc := Idle, status := Active))
  {
  }

  lemma ReportStep(s: State)
    requires s.orch.pc.Idle? && !s.orch.status.Active?
    ensures Enabled(s, ReportScale) && Next(s, ReportScale) == s.(orch := s.orch.(status := Active))
  {
  }

  lemma RefuseStep(s: State)
    requires !s.orch.status.Active?
    ensures Enabled(s, RefuseScale)
    ensures Next(s, RefuseScale) == s.(orch := s.orch.(status := Active), refused := s.refused + 1)
  {
  }

  lemma {:induction false} NewName(names: seq<Inst>)
    ensures exists name: Inst :: name !in names
  {
    var n := Longest(names);
    var name := seq(n + 1, i => 'x');
    assert name !in names;
  }

  /** A length no name of the list exceeds. */
  lemma {:induction false} Longest(names: seq<Inst>) returns (n: nat)
    ensures forall name :: name in names ==> |name| <= n
  {
    n := 0;
    if names != [] {
      var rest := Longest(names[1..]);
      n := if |names[0]| > rest then |names[0]| else rest;
      assert names == [names[0]] + names[1..];
    }
  }

  lemma TemplateOk(s: State)
    requires Orderly(s)
    ensures ValidTemplate(s.tpl) && |s.orch.configured| <= |s.tpl.specs|
  {
    hide *;
    InvAlways(s);
    Parts(s);
    OrderFacts(s.tpl, s.orch);
    AllInTemplate(s.tpl, s.orch);
    NoDupCard(s.orch.configured);
    SubsetCard(ToSet(s.orch.configured), s.tpl.specs.Keys);
    assert |s.tpl.specs.Keys| == |s.tpl.specs|;
  }

  lemma ReadyNone(g: Graph, done: seq<Vdu>)
    ensures Ready(g, [], done) == []
  {
  }

  lemma DepsKeys(t: Template)
    ensures Deps(t).Keys == t.specs.Keys && forall v :: v in t.specs ==> Deps(t)[v] == t.specs[v].deps
  {
  }

  lemma {:induction false} ReadySnoc(g: Graph, order: seq<Vdu>, v: Vdu, done: seq<Vdu>)
    ensures Ready(g, order + [v], done) ==
            Ready(g, order, done) + if v !in done && v in g && forall d :: d in g[v] ==> d in done then [v] else []
  {
    if order == [] {
      assert [] + [v] == [v] && [v][1..] == [];
    } else {
      ReadySnoc(g, order[1..], v, done);
      assert (order + [v])[1..] == order[1..] + [v];
    }
  }

  // ---------- What a resolving loop can end in ----------

  lemma NewAndMaybeEmpty(t: Template, vdus: seq<Vdu>, configured: seq<Vdu>)
    requires vdus == Ready(Deps(t), t.order, configured)
    ensures HasEmpty(t, vdus) ==> HasEmpty(t, t.order)
    ensures forall v :: v in vdus ==> v !in configured
  {
    ReadyMembers(Deps(t), t.order, configured);
  }

  /** A wave that was not empty leaves fewer VDUs to configure. */
  lemma MoreConfigured(before: seq<Vdu>, after: seq<Vdu>, vdus: seq<Vdu>)
    requires vdus != [] && before <= after && AllIn(vdus, after) && forall v :: v in vdus ==> v !in before
    ensures |before| < |after|
  {
    assert vdus[0] in vdus;
    assert |before| == |after| ==> before == after;
  }

  lemma NoWaveLeft(g: Graph, r: nat, v: Vdu)
    requires Wave(g, r) == {}
    ensures v in Closure(g, r) <==> v in Closure(g, |g|)
  {
    ClosureGrows(g, r);
    assert Closure(g, r + 1) == Closure(g, r) by {
      assert forall u :: u in Closure(g, r + 1) && u !in Closure(g, r) ==> u in Wave(g, r);
    }
    ResolvableIffConfigurable(g, v);
    if r <= |g| { ClosureSettles(g, r, |g|); }
    if v in Closure(g, |g|) && |g| < r { ClosureMonotone(g, |g|, r); }
  }

  lemma NothingReady(t: Template, o: Orch)
    requires ValidTemplate(t) && OrchOk(t, o) && o.pc.Deciding?
    ensures ToSet(o.configured) == Closure(Deps(t), o.round + 1)
    ensures ToSet(Ready(Deps(t), t.order, o.configured)) == Wave(Deps(t), o.round + 1)
  {
    ReadyIsWave(Deps(t), t.order, o.configured, o.round + 1);
  }

  /** With nothing ready, exactly the resolvable VDUs are configured; and some VDU is not. */
  lemma SpinsForUnresolvable(s: State)
    requires Orderly(s) && s.orch.pc.Deciding? && Ready(Deps(s.tpl), s.tpl.order, s.orch.configured) == []
    requires |s.tpl.specs| != |s.orch.configured|
    ensures var g := Deps(s.tpl);
            && (exists v :: v in g && Unresolvable(g, v))
            && forall v :: v in s.orch.configured <==> v in g && !Unresolvable(g, v)
  {
    var t, o, g := s.tpl, s.orch, Deps(s.tpl);
    hide Closure, Deps, Orderly, Ready, TableOk, Unresolvable;
    TemplateOk(s);
    InvAlways(s);
    Parts(s);
    NothingReady(t, o);
    NotAllConfigured(t, o);
    AllInTemplate(t, o);
    DepsKeys(t);
    assert Wave(g, o.round + 1) == {};
    forall v ensures v in o.configured <==> v in g && !Unresolvable(g, v) {
      NoWaveLeft(g, o.round + 1, v);
      ResolvableIffConfigurable(g, v);
      assert v in o.configured <==> v in ToSet(o.configured);
      assert v in ToSet(o.configured) ==> v in t.specs.Keys;
    }
    var u :| u in t.specs.Keys && u !in Closure(g, o.round + 1);
    assert u in g && Unresolvable(g, u);
  }

  lemma AllResolved(s: State)
    requires Orderly(s) && s.orch.pc.Deciding? && |s.tpl.specs| == |s.orch.configured| && Requests(s) == 0
    ensures ToSet(s.orch.configured) == s.tpl.specs.Keys && s.orch.errored == [] && !HasEmpty(s.tpl, s.tpl.order)
    ensures forall v :: v in Deps(s.tpl) ==> !Unresolvable(Deps(s.tpl), v)
  {
    var t, o, g := s.tpl, s.orch, Deps(s.tpl);
    hide Closure, Deps, HeightIs, Orderly, TableOk, Unresolvable;
    InvAlways(s);
    Parts(s);
    OrchFinish(t, o);
    DepsKeys(t);
    assert forall v :: v in o.configured <==> v in t.specs.Keys;
    forall v | v in g ensures !Unresolvable(g, v) {
      ListsMeanAcks(s, v);
      LaunchRoundIsHeight(s, v, 0);
    }
    if HasEmpty(t, t.order) {
      var v :| v in t.order && v in t.specs && t.specs[v].count == 0;
      CreatedAlways(s);
      ListsMeanAcks(s, v);
    }
    if o.errored != [] {
      var v := o.errored[0];
      ListsMeanAcks(s, v);
      LaunchedInTemplate(t, o, v);
    }
  }

  lemma RecordedOnly(o: Orch, a: Ack)
    ensures var o' := RecordAck(o, a);
            && o'.pc == o.pc && o'.confGenerated == o.confGenerated && o'.deployed == o.deployed && o'.insts == o.insts
            && o'.round == o.round && o'.launchedIn == o.launchedIn && o'.dropped == o.dropped
            && o.configured <= o'.configured && o.errored <= o'.errored
  {
  }

  /** What an environment action leaves alone. */
  lemma Elsewhere(s: State, a: Action)
    requires Productive(s, a)
    ensures Enabled(s, a) && !OfOverlap(a) && (a.Deliver? ==> a.ack in s.net)
    ensures var s' := Next(s, a);
            && s'.tpl == s.tpl && s'.sent == s.sent && s'.others == s.others
            && s'.scales == s.scales && s'.refused == s.refused && s'.overlapped == s.overlapped
            && (if a.Deliver? then s' == s.(net := s.net - multiset{a.ack}, orch := RecordAck(s.orch, a.ack)) else s'.orch == s.orch)
  {
    hide AllIn, AnyIn, CanScale, Dispatch, Handled, NoDup, RecordAck, Register, Running, ScaleVdus, ScanEntry, StartsWorker,
         Ungenerated, WorkerRecords;
  }

  lemma SomeMove(s: State)
    requires Orderly(s) && s.sent != [] && !Quiet(s)
    ensures exists a :: Productive(s, a)
  {
    hide *;
    InvAlways(s);
    MovesOrRests(s);
  }

  lemma Moves(s: State, a: Action)
    requires Orderly(s) && Productive(s, a)
    ensures Enabled(s, a) && (a.Deliver? ==> a.ack in s.net)
    ensures var s' := Next(s, a);
            && Orderly(s') && Closer(s', s)
            && (if a.Deliver? then s' == s.(net := s.net - multiset{a.ack}, orch := RecordAck(s.orch, a.ack))
                else s' == s.(scaleMsgs := s'.scaleMsgs, net := s'.net, mgr := s'.mgr))
  {
    hide *;
    Elsewhere(s, a);
    OrderlyNext(s, a);
    ProductiveCloser(s, a);
  }

  predicate WaitsFor(o: Orch, vdus: seq<Vdu>) {
    o.pc == Waiting(vdus) || (o.pc.ScaleWaiting? && vdus == [o.pc.vdu])
  }

  lemma ScaledLaunched(t: Template, o: Orch)
    requires OrchOk(t, o) && o.pc.ScaleWaiting?
    ensures o.pc.vdu in o.insts
  {
  }

  lemma WaitedLaunched(t: Template, o: Orch, vdus: seq<Vdu>, v: Vdu)
    requires OrchOk(t, o) && WaitsFor(o, vdus) && v in vdus
    ensures v in o.insts && v in t.specs && |o.insts[v]| >= t.specs[v].count
  {
    hide OrchOk;
    if o.pc.Waiting? { WaveFacts(t, o, v); } else { ScaledLaunched(t, o); }
    WaveFacts(t, o, v);
  }

  lemma WaitingSent(s: State, vdus: seq<Vdu>)
    requires Orderly(s) && WaitsFor(s.orch, vdus) && vdus != []
    ensures s.sent != []
  {
    var v, o := vdus[0], s.orch;
    hide ConfVdus, Orderly, TableOk;
    InvAlways(s);
    Parts(s);
    WaitedLaunched(s.tpl, o, vdus, v);
    assert o.pc.Waiting? || o.pc.ScaleWaiting?;
    LaunchedSent(s.tpl, o.pc, o.insts, o.acks, s.sent, s.scaleMsgs, s.mgr.drv, s.mgr.nsConfig, v);
  }

  lemma RestsUndecided(s: State, vdus: seq<Vdu>)
    requires Orderly(s) && Quiet(s) && WaitsFor(s.orch, vdus)
    requires !AnyIn(vdus, s.orch.errored) && !AllIn(vdus, s.orch.configured)
    ensures HasEmpty(s.tpl, vdus) && Serverless(s.orch.insts, vdus)
  {
    var o := s.orch;
    hide Inv, LinkOk, OrchOk, Quiet, Orderly, TableOk, TokensOk, ValidTemplate;
    InvAlways(s);
    Parts(s);
    var v :| v in vdus && v !in o.configured;
    WaitedLaunched(s.tpl, o, vdus, v);
    assert o.pc.Waiting? || o.pc.ScaleWaiting?;
    DecidedAtRest(s, v);
  }

  ghost predicate Serverless(insts: map<Vdu, seq<Inst>>, vdus: seq<Vdu>) {
    exists v :: v in vdus && v in insts && insts[v] == []
  }

  /** Some VDU of the list is to have no server at all, so nothing will ever acknowledge it. */
  ghost predicate HasEmpty(t: Template, vdus: seq<Vdu>) {
    exists v :: v in vdus && v in t.specs && t.specs[v].count == 0
  }
}
