/** A run in which a refused request has the next one let in while the service is still being created: after it a VDU is
    launched a second time, or a scale message names a VDU nobody scaled. */
module ProtocolRefusal {
  import opened Lists
  import opened DependencyGraph
  import opened Protocol
  import opened ProtocolInvariant
  import opened ProtocolPreservation
  import opened ProtocolManagerSteps
  import opened ProtocolSafety
  import opened ProtocolTheorems
  import opened ProtocolScaling
  import opened ProtocolOverlap

  const W := Vdu("f", "w")
  const V := Vdu("f", "v")
  const A := Vdu("f", "a")

  /** Three VDUs of one server without a driver, of which one depends on another. */
  const THREE := Template(map[W := Spec([], 1, false), V := Spec([], 1, false), A := Spec([V], 1, false)], [W, V, A])

  lemma ThreeValid()
    ensures ValidTemplate(THREE)
  {
    hide NoDup;
    assert ToSet(THREE.order) == {W, V, A} == THREE.specs.Keys;
    assert NoDup(THREE.order) by { ThreeApart(); }
  }

  lemma ThreeApart()
    ensures NoDup([W, V, A])
  {
    assert "w"[0] != "v"[0] && "w"[0] != "a"[0] && "v"[0] != "a"[0];
  }

  lemma ReadyCons(g: Graph, v: Vdu, rest: seq<Vdu>, done: seq<Vdu>)
    ensures Ready(g, [v] + rest, done) ==
            (if v !in done && v in g && forall d :: d in g[v] ==> d in done then [v] else []) + Ready(g, rest, done)
  {
  }

  lemma ThreeWaves()
    ensures Ready(Deps(THREE), THREE.order, []) == [W, V]
    ensures Ready(Deps(THREE), THREE.order, [W, V]) == [A]
  {
    var g := Deps(THREE);
    assert g[W] == [] && g[V] == [] && g[A] == [V] && V in g[A];
    assert Ready(g, [], []) == [] == Ready(g, [], [W, V]);
    hide Deps, Ready;
    ReadyCons(g, A, [], []);
    ReadyCons(g, V, [A], []);
    ReadyCons(g, W, [V, A], []);
    ReadyCons(g, A, [], [W, V]);
    ReadyCons(g, V, [A], [W, V]);
    ReadyCons(g, W, [V, A], [W, V]);
    assert [A] + [] == [A] && [V] + [A] == [V, A] && [W] + [V, A] == THREE.order;
  }

  const FIRST: Conf := [VduConf(W, ["w0"], false), VduConf(V, ["v0"], false)]

  /** The orchestrator between the launches of the first wave and of the second. */
  function FirstWave(pc: Pc, generated: seq<Vdu>, configured: seq<Vdu>, acks: map<Vdu, seq<Inst>>): Orch {
    Orch(pc, Pending, configured, [], generated, [W, V], acks, map[W := ["w0"], V := ["v0"]], [], 0, map[W := 0, V := 0], {})
  }

  lemma OneName(name: Inst)
    ensures NoDup([name])
  {
  }

  lemma FirstWaveLaunched() returns (s: State)
    ensures Orderly(s)
    ensures s == State(THREE, FirstWave(Launching([W, V], []), [], [], map[]), [], [], multiset{}, NewManager, [], 0, 0, false)
  {
    hide NoDup, Ready, Reachable, ValidTemplate;
    ThreeValid();
    ThreeWaves();
    var s0 := Init(THREE);
    Started(THREE);
    assert s0.orch.pc == Launching([], [W] + [V]);
    OneName("w0");
    OneName("v0");
    OrderlyNext(s0, Launch(["w0"]));
    var s1 := Next(s0, Launch(["w0"]));
    assert s1.orch.pc == Launching([W], [V]);
    OrderlyNext(s1, Launch(["v0"]));
    s := Next(s1, Launch(["v0"]));
    assert s.orch.pc == Launching([W, V], []);
  }

  lemma FirstMessage(o: Orch)
    requires o.deployed == [W, V] && o.confGenerated == [] && o.insts == map[W := ["w0"], V := ["v0"]]
    ensures Ungenerated(o.deployed, o.confGenerated) == [W, V] && NewConf(THREE, o) == FIRST
  {
    assert [W, V][1..] == [V] && [V][1..] == [];
    assert Ungenerated([V], []) == [V];
    ConfOfEntries(THREE, o.insts, [W, V]);
  }

  lemma FirstToks()
    ensures ConfToks(FIRST) == [Tok(W, "w0"), Tok(V, "v0")]
    ensures Extracted(map[], FIRST) == FIRST
    ensures AddDrivers(map[], FIRST) == map["w" := Drv(W, ["w0"], false, []), "v" := Drv(V, ["v0"], false, [])]
  {
    assert "w"[0] != "v"[0];
    assert FIRST[1..] == [FIRST[1]] && [FIRST[1]][1..] == [];
    assert ConfToks([FIRST[1]]) == [Tok(V, "v0")];
    assert ToksOf(W, ["w0"]) == [Tok(W, "w0")];
    KeptWholeIffDistinct(map[], FIRST);
    assert AddDrivers(map["w" := Drv(W, ["w0"], false, [])], [FIRST[1]])
        == map["w" := Drv(W, ["w0"], false, []), "v" := Drv(V, ["v0"], false, [])];
  }

  /** The manager while it dispatches the servers of the first wave. */
  function Told(todo: seq<Tok>, w: seq<Inst>, v: seq<Inst>): Manager {
    Manager(true, FIRST, map["w" := Drv(W, ["w0"], false, w), "v" := Drv(V, ["v0"], false, v)], todo, map[], {}, 0, NotStarted)
  }

  lemma FirstWaveTold() returns (s: State)
    ensures Orderly(s)
    ensures s == State(THREE, FirstWave(Waiting([W, V]), [W, V], [], map[]), [FIRST], [], multiset{},
                       Told([Tok(W, "w0"), Tok(V, "v0")], [], []), [], 0, 0, false)
  {
    var s0 := FirstWaveLaunched();
    hide AddDrivers, ConfToks, Extracted, NewConf, Orderly, Ungenerated;
    FirstMessage(s0.orch);
    OrderlyNext(s0, SendConf);
    var s1 := Next(s0, SendConf);
    assert [] + [W, V] + [] == [W, V];
    assert [] + [FIRST] == [FIRST];
    FirstToks();
    OrderlyNext(s1, StartManager);
    s := Next(s1, StartManager);
    assert [] + FIRST == FIRST && [] + [Tok(W, "w0"), Tok(V, "v0")] == [Tok(W, "w0"), Tok(V, "v0")];
  }

  lemma FirstDispatched(mgmtIp: bool)
    ensures Dispatch(Told([Tok(W, "w0"), Tok(V, "v0")], [], []), mgmtIp)
         == Sends(Told([Tok(V, "v0")], ["w0"], []), [Ack(W, "w0", Complete)])
    ensures Dispatch(Told([Tok(V, "v0")], ["w0"], []), mgmtIp)
         == Sends(Told([], ["w0"], ["v0"]), [Ack(V, "v0", Complete)])
  {
    assert "w"[0] != "v"[0];
    assert [] + ["w0"] == ["w0"] && [] + ["v0"] == ["v0"];
    var drv0 := Told([], [], []).drv;
    assert MarkComplete(drv0, "w", "w0") == Told([], ["w0"], []).drv;
    assert MarkComplete(Told([], ["w0"], []).drv, "v", "v0") == Told([], ["w0"], ["v0"]).drv;
  }

  lemma FirstWaveSentBack() returns (s: State)
    ensures Orderly(s)
    ensures s == State(THREE, FirstWave(Waiting([W, V]), [W, V], [], map[]), [FIRST], [],
                       multiset{Ack(W, "w0", Complete), Ack(V, "v0", Complete)}, Told([], ["w0"], ["v0"]), [], 0, 0, false)
  {
    var s0 := FirstWaveTold();
    hide Dispatch, Orderly, StartsWorker;
    FirstDispatched(false);
    OrderlyNext(s0, DispatchNext(false));
    var s1 := Next(s0, DispatchNext(false));
    assert s1.net == multiset{Ack(W, "w0", Complete)};
    OrderlyNext(s1, DispatchNext(false));
    s := Next(s1, DispatchNext(false));
  }

  lemma FirstRecorded(pc: Pc, generated: seq<Vdu>)
    ensures RecordAck(FirstWave(pc, generated, [], map[]), Ack(W, "w0", Complete))
         == FirstWave(pc, generated, [W], map[W := ["w0"]])
    ensures RecordAck(FirstWave(pc, generated, [W], map[W := ["w0"]]), Ack(V, "v0", Complete))
         == FirstWave(pc, generated, [W, V], map[W := ["w0"], V := ["v0"]])
  {
    assert "w"[0] != "v"[0];
    assert [] + ["w0"] == ["w0"] && [] + ["v0"] == ["v0"] && [] + [W] == [W] && [W] + [V] == [W, V];
    assert map[W := ["w0"]][V := ["v0"]] == map[W := ["w0"], V := ["v0"]];
  }

  /** A state of the resolving loop in which the first wave is configured and a request has been refused. */
  function FirstWaveDone(): State {
    State(THREE, FirstWave(Deciding, [W, V], [W, V], map[W := ["w0"], V := ["v0"]]).(status := Active), [FIRST], [],
          multiset{}, Told([], ["w0"], ["v0"]), [], 0, 1, false)
  }

  lemma FirstWaveConfigured()
    ensures Orderly(FirstWaveDone())
  {
    var s0 := FirstWaveSentBack();
    hide NoDup, Orderly, RecordAck, Told;
    var a, b := Ack(W, "w0", Complete), Ack(V, "v0", Complete);
    FirstRecorded(Waiting([W, V]), [W, V]);
    OrderlyNext(s0, Deliver(a));
    var s1 := Next(s0, Deliver(a));
    assert s1.net == multiset{b};
    OrderlyNext(s1, Deliver(b));
    var s2 := Next(s1, Deliver(b));
    assert s2.net == multiset{};
    OrderlyNext(s2, Acknowledged);
    var s3 := Next(s2, Acknowledged);
    OrderlyNext(s3, RefuseScale);
    assert Next(s3, RefuseScale) == FirstWaveDone();
  }

  lemma FirstWaveFacts()
    ensures var s := FirstWaveDone();
            && s.tpl == THREE && s.others == [] && s.orch.pc.Deciding? && s.orch.status.Active?
            && W in s.orch.insts && s.orch.insts[W] == ["w0"] && CanScale(THREE, s.orch, W)
  {
  }

  /** So, refused once, a service under creation lets in a request that makes the loop launch a VDU a second time. */
  lemma LaunchedTwice()
    ensures var s := FirstWaveDone();
            && Reachable(s) && Enabled(s, OverlapScale(W, "w1")) && Enabled(Next(s, OverlapScale(W, "w1")), Decide)
            && var s' := Next(Next(s, OverlapScale(W, "w1")), Decide);
               s'.orch.pc.Launching? && W in s'.orch.pc.todo && W in s'.orch.insts && W in s'.orch.deployed
  {
    hide CanScale, Enabled, FirstWaveDone, Next, Reachable;
    FirstWaveConfigured();
    FirstWaveFacts();
    OverlapRelaunches(FirstWaveDone(), W, "w1");
  }

  /** ... or, one launch later, one whose message names a VDU that was not scaled. */
  lemma NamesOthers()
    ensures exists s: State ::
              && Reachable(s) && s.orch.pc == Launching([A], [])
              && Enabled(s, OverlapScale(W, "w1")) && Enabled(Next(s, OverlapScale(W, "w1")), OverlapSend(0))
              && var s' := Next(Next(s, OverlapScale(W, "w1")), OverlapSend(0));
                 s'.scaleMsgs != [] && ConfVdus(s'.scaleMsgs[0]) == {W, A}
  {
    var s := SecondWaveLaunched();
    assert CanScale(THREE, s.orch, W);
    assert ToSet(s.orch.deployed) - ToSet(s.orch.confGenerated) == {A};
    hide Orderly, CanScale, Enabled, Next, Reachable;
    OverlapNamesUnsent(s, W, "w1");
  }

  lemma SecondWaveLaunched() returns (s: State)
    ensures Orderly(s) && s.tpl == THREE && s.others == [] && s.scaleMsgs == []
    ensures s.orch.pc == Launching([A], []) && s.orch.status.Active?
    ensures s.orch.configured == [W, V] == s.orch.confGenerated && s.orch.deployed == [W, V, A]
    ensures W in s.orch.insts && s.orch.insts[W] == ["w0"]
  {
    hide NoDup, Orderly, Ready, Told;
    FirstWaveConfigured();
    var s0 := FirstWaveDone();
    ThreeWaves();
    OrderlyNext(s0, Decide);
    var s1 := Next(s0, Decide);
    assert s1.orch.pc == Launching([], [A]);
    OneName("a0");
    OrderlyNext(s1, Launch(["a0"]));
    s := Next(s1, Launch(["a0"]));
    assert s.orch.pc == Launching([A], []);
  }
}
