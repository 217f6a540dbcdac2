/** The orchestrator's own actions keep the invariant. */
module ProtocolPreservation {
  import opened Lists
  import opened DependencyGraph
  import opened Protocol
  import opened ProtocolInvariant

  // ---------- Consequences of conservation ----------

  /** A server on an acknowledgement list is on it once, is known to the manager and is nowhere else. */
  lemma AcksDistinct(m: Manager, net: multiset<Ack>, acks: map<Vdu, seq<Inst>>, failed: seq<Tok>, v: Vdu)
    requires TokensOk(m, net, acks, failed)
    ensures NoDup(AcksOf(acks, v)) && forall i :: i in AcksOf(acks, v) ==> Known(m.drv, v, i)
  {
    var list := AcksOf(acks, v);
    forall i ensures multiset(list)[i] <= 1 && (i in list ==> Known(m.drv, v, i)) {
      assert Weight(m.todo, m.table, net, acks, failed, v, i) == B(Known(m.drv, v, i));
      assert i in list <==> multiset(list)[i] > 0;
    }
    NoDupFromCount(list);
  }

  /** The acknowledged servers of a VDU are distinct servers of it, and all of them exactly when it is configured. */
  lemma AcksWithin(s: State, v: Vdu)
    requires Inv(s)
    ensures NoDup(AcksOf(s.orch.acks, v))
    ensures forall i :: i in AcksOf(s.orch.acks, v) ==> v in s.orch.insts && i in s.orch.insts[v]
    ensures AcksOf(s.orch.acks, v) != [] ==> v in s.orch.insts
    ensures v in s.orch.insts ==> |AcksOf(s.orch.acks, v)| <= |s.orch.insts[v]|
    ensures v in s.orch.insts ==> (v in s.orch.configured <==>
              v !in s.orch.dropped && s.orch.insts[v] != [] && forall i :: i in s.orch.insts[v] ==> i in AcksOf(s.orch.acks, v))
  {
    var o, m := s.orch, s.mgr;
    AcksDistinct(m, s.net, o.acks, o.failed, v);
    var list := AcksOf(o.acks, v);
    if list != [] {
      assert list[0] in list;
    }
    if v in o.insts {
      NoDupWithin(list, o.insts[v]);
    }
  }

  /** An errored VDU has a server whose failure was counted and which is not acknowledged, so it is not configured. */
  lemma ErroredNotConfigured(s: State, v: Vdu) returns (i: Inst)
    requires Inv(s) && v in s.orch.errored
    ensures Known(s.mgr.drv, v, i) && i !in AcksOf(s.orch.acks, v) && Tok(v, i) in s.orch.failed
    ensures v in s.orch.insts && i in s.orch.insts[v] && v !in s.orch.configured
  {
    var o, m := s.orch, s.mgr;
    var k :| 0 <= k < |o.errored| && o.errored[k] == v;
    i := o.failed[k].inst;
    assert o.failed[k] == Tok(v, i);
    assert multiset(o.failed)[Tok(v, i)] > 0;
    assert Weight(m.todo, m.table, s.net, o.acks, o.failed, v, i) == B(Known(m.drv, v, i));
    assert i in AcksOf(o.acks, v) <==> multiset(AcksOf(o.acks, v))[i] > 0;
    AcksWithin(s, v);
  }

  lemma UnlaunchedUnknown(t: Template, o: Orch, untold: set<Vdu>, drv: map<string, Drv>, ns: Conf)
    requires ValidTemplate(t) && DrvOk(t, o.insts, untold, drv, ns)
    ensures forall v :: v in t.specs && v !in o.insts ==> v.name !in drv
  {
    forall v | v in t.specs && v !in o.insts ensures v.name !in drv {
      assert v.name in drv ==> SameName(drv[v.name].vdu, v);
    }
  }

  // ---------- Orchestrator: creation ----------

  /** Only the program counter changes, and no launch or scale message is involved. */
  lemma MoveLink(t: Template, pc: Pc, insts: map<Vdu, seq<Inst>>, acks: map<Vdu, seq<Inst>>,
                 sent: seq<Conf>, scaleMsgs: seq<Conf>, drv: map<string, Drv>, ns: Conf, pc': Pc)
    requires LinkOk(t, pc, insts, acks, sent, scaleMsgs, drv, ns)
    requires scaleMsgs == [] && Untold(pc, []) == {} == Untold(pc', [])
    requires pc'.Aborted? || (!pc.Aborted? && JustLaunched(pc) == {} == JustLaunched(pc'))
    requires WaveUnknown(t, pc', sent, drv)
    ensures LinkOk(t, pc', insts, acks, sent, scaleMsgs, drv, ns)
  {
  }

  lemma StartRoundOk(t: Template, o: Orch, r: nat)
    requires ValidTemplate(t) && OrchOk(t, o) && (o.pc.Deciding? || o.pc.Aborted?)
    requires ToSet(o.configured) == ToSet(o.deployed) == Closure(Deps(t), r) == ToSet(o.confGenerated)
    ensures OrchOk(t, StartRound(t, o, r))
    ensures forall v :: v in StartRound(t, o, r).pc.todo ==> v in t.specs && v !in o.insts
  {
    hide DepsConfigured, ErrorsOk, ListsOk, RoundsOk, TopoOrder;
    var wave := Ready(Deps(t), t.order, o.configured);
    ReadyIsWave(Deps(t), t.order, o.configured, r);
    forall v | v in wave ensures v in t.specs && v !in o.insts {
      assert v in ToSet(wave);
    }
    assert [] + wave == wave;
  }

  lemma OrchFresh(t: Template, o: Orch)
    requires o == Orch(Aborted, Pending, [], [], [], [], map[], map[], [], 0, map[], {})
    ensures OrchOk(t, o)
  {
  }

  lemma LinkFresh(t: Template, pc: Pc)
    requires pc.Launching? && pc.done == [] && forall v :: v in pc.todo ==> v in t.specs
    ensures LinkOk(t, pc, map[], map[], [], [], map[], [])
  {
    assert pc.done + pc.todo == pc.todo;
    assert JustLaunched(pc) == {};
  }

  lemma InitOk(t: Template)
    requires ValidTemplate(t)
    ensures Inv(Init(t))
  {
    var o := Orch(Aborted, Pending, [], [], [], [], map[], map[], [], 0, map[], {});
    var o' := StartRound(t, o, 0);
    OrchFresh(t, o);
    StartRoundOk(t, o, 0);
    LinkFresh(t, o'.pc);
    assert TokensOk(NewManager, multiset{}, map[], []);
    assert InitOrch(t) == o' && o'.insts == map[] && o'.acks == map[] && o'.failed == [];
    assert TableOk(NewManager);
    hide *;
    Assemble(Init(t));
  }

  lemma AllConfigured(t: Template, o: Orch)
    requires OrchOk(t, o) && o.pc.Deciding? && |t.specs| == |o.configured|
    ensures ToSet(o.configured) == ToSet(o.confGenerated) == t.specs.Keys == o.insts.Keys && o.dropped == {}
  {
    hide DepsConfigured, ErrorsOk, NoDup, RoundsOk, ToSet, TopoOrder;
    NoDupCard(o.configured);
    assert Closure(Deps(t), o.round + 1) <= Deps(t).Keys;
    SubsetCard(ToSet(o.configured), t.specs.Keys);
  }

  lemma OrchFinish(t: Template, o: Orch)
    requires OrchOk(t, o) && o.pc.Deciding? && |t.specs| == |o.configured|
    ensures ToSet(o.configured) == t.specs.Keys
    ensures OrchOk(t, o.(pc := Idle, status := Active))
  {
    hide DepsConfigured, ErrorsOk, InstsOk, ListsOk, NoDup, RoundsOk, TopoOrder;
    AllConfigured(t, o);
    forall v | v in t.specs ensures v in o.configured {
      assert v in ToSet(o.configured);
    }
  }

  lemma CreatedOk(s: State)
    requires Inv(s) && s.orch.pc.Deciding? && |s.tpl.specs| == |s.orch.configured|
    ensures Inv(s.(orch := s.orch.(pc := Idle, status := Active)))
  {
    var t, o, m := s.tpl, s.orch, s.mgr;
    Parts(s);
    OrchFinish(t, o);
    MoveLink(t, o.pc, o.insts, o.acks, s.sent, s.scaleMsgs, m.drv, m.nsConfig, Idle);
    hide *;
    Assemble(s.(orch := o.(pc := Idle, status := Active)));
  }

  lemma LinkNextRound(t: Template, o: Orch, sent: seq<Conf>, scaleMsgs: seq<Conf>, drv: map<string, Drv>, ns: Conf, r: nat)
    requires ValidTemplate(t) && LinkOk(t, o.pc, o.insts, o.acks, sent, scaleMsgs, drv, ns) && o.pc.Deciding?
    requires forall v :: v in StartRound(t, o, r).pc.todo ==> v in t.specs && v !in o.insts
    ensures LinkOk(t, StartRound(t, o, r).pc, o.insts, o.acks, sent, scaleMsgs, drv, ns)
  {
    var wave := StartRound(t, o, r).pc.todo;
    UnlaunchedUnknown(t, o, {}, drv, ns);
    assert [] + wave == wave;
    MoveLink(t, o.pc, o.insts, o.acks, sent, scaleMsgs, drv, ns, Launching([], wave));
  }

  lemma NextRoundOk(s: State)
    requires Inv(s) && s.orch.pc.Deciding?
    ensures Inv(s.(orch := StartRound(s.tpl, s.orch, s.orch.round + 1)))
  {
    var t, o, m := s.tpl, s.orch, s.mgr;
    var o' := StartRound(t, o, o.round + 1);
    Parts(s);
    StartRoundOk(t, o, o.round + 1);
    assert o'.insts == o.insts && o'.acks == o.acks && o'.failed == o.failed;
    hide *;
    LinkNextRound(t, o, s.sent, s.scaleMsgs, m.drv, m.nsConfig, o.round + 1);
    Assemble(s.(orch := o'));
  }

  /** The VDU launched next is new, in the template, and has its dependencies configured. */
  lemma LaunchFacts(t: Template, o: Orch, done: seq<Vdu>, v: Vdu, todo: seq<Vdu>)
    requires OrchOk(t, o) && o.pc == Launching(done, [v] + todo)
    ensures v in t.specs && v in Wave(Deps(t), o.round)
    ensures v !in o.configured && v !in o.deployed && v !in o.insts
    ensures forall d :: d in t.specs[v].deps ==> d in o.configured
  {
    var g := Deps(t);
    var wave := done + ([v] + todo);
    assert wave[|done|] == v;
    assert v in ToSet(wave);
    assert v !in ToSet(o.configured);
    assert forall i :: 0 <= i < |done| ==> wave[i] == done[i];
    assert v !in ToSet(o.deployed);
    forall d | d in g[v] ensures d in o.configured {
      assert d in ToSet(o.configured);
    }
  }

  lemma LaunchWave(t: Template, done: seq<Vdu>, v: Vdu, todo: seq<Vdu>, r: nat,
                   configured: seq<Vdu>, deployed: seq<Vdu>, generated: seq<Vdu>, dropped: set<Vdu>)
    requires WaveOk(t, Launching(done, [v] + todo), r, configured, deployed, generated, dropped)
    ensures WaveOk(t, Launching(done + [v], todo), r, configured, deployed + [v], generated, dropped)
  {
    assert done + [v] + todo == done + ([v] + todo);
    assert ToSet(deployed + [v]) == ToSet(deployed) + {v};
    assert ToSet(done + [v]) == ToSet(done) + {v};
  }

  lemma InstsLaunch(t: Template, insts: map<Vdu, seq<Inst>>, deployed: seq<Vdu>, launchedIn: map<Vdu, nat>,
                    v: Vdu, names: seq<Inst>, r: nat, dropped: set<Vdu>)
    requires InstsOk(t, insts, deployed, dropped) && v !in dropped && RoundsOk(t, insts, launchedIn)
    requires v in t.specs && v !in insts && NoDup(names) && |names| == t.specs[v].count && v in Wave(Deps(t), r)
    ensures InstsOk(t, insts[v := names], deployed + [v], dropped) && RoundsOk(t, insts[v := names], launchedIn[v := r])
  {
    assert insts[v := names].Keys == insts.Keys + {v};
    assert InstsOk(t, insts[v := names], deployed + [v], dropped) by {
      hide RoundsOk, Wave;
      assert v !in ToSet(deployed);
      assert ToSet(deployed + [v]) == ToSet(deployed) + {v};
    }
    assert RoundsOk(t, insts[v := names], launchedIn[v := r]) by {
      hide InstsOk, NoDup, ToSet, Wave;
      assert launchedIn[v := r].Keys == launchedIn.Keys + {v};
    }
  }

  lemma ListsLaunch(g: Graph, insts: map<Vdu, seq<Inst>>, acks: map<Vdu, seq<Inst>>,
                    deployed: seq<Vdu>, configured: seq<Vdu>, v: Vdu, names: seq<Inst>, dropped: set<Vdu>)
    requires ListsOk(configured, insts, acks, dropped) && v !in insts && AcksOf(acks, v) == []
    requires DepsConfigured(g, deployed, configured) && v in g && forall d :: d in g[v] ==> d in configured
    ensures ListsOk(configured, insts[v := names], acks, dropped) && DepsConfigured(g, deployed + [v], configured)
  {
  }

  lemma OrchLaunch(t: Template, o: Orch, names: seq<Inst>, done: seq<Vdu>, v: Vdu, todo: seq<Vdu>)
    requires OrchOk(t, o) && o.pc == Launching(done, [v] + todo)
    requires v in t.specs && AcksOf(o.acks, v) == [] && NoDup(names) && |names| == t.specs[v].count
    ensures OrchOk(t, LaunchVdu(o, v, names).(pc := Launching(done + [v], todo)))
  {
    LaunchFacts(t, o, done, v, todo);
    LaunchWave(t, done, v, todo, o.round, o.configured, o.deployed, o.confGenerated, o.dropped);
    InstsLaunch(t, o.insts, o.deployed, o.launchedIn, v, names, o.round, o.dropped);
    ListsLaunch(Deps(t), o.insts, o.acks, o.deployed, o.configured, v, names, o.dropped);
  }

  lemma LinkLaunch(t: Template, insts: map<Vdu, seq<Inst>>, acks: map<Vdu, seq<Inst>>, sent: seq<Conf>,
                   scaleMsgs: seq<Conf>, drv: map<string, Drv>, ns: Conf, names: seq<Inst>,
                   done: seq<Vdu>, v: Vdu, todo: seq<Vdu>)
    requires LinkOk(t, Launching(done, [v] + todo), insts, acks, sent, scaleMsgs, drv, ns) && v !in insts
    ensures LinkOk(t, Launching(done + [v], todo), insts[v := names], acks, sent, scaleMsgs, drv, ns)
  {
    assert done + [v] + todo == done + ([v] + todo);
    assert ToSet(done + [v]) == ToSet(done) + {v};
    assert insts[v := names].Keys == insts.Keys + {v};
  }

  lemma LaunchOk(s: State, names: seq<Inst>, done: seq<Vdu>, v: Vdu, todo: seq<Vdu>)
    requires Inv(s) && s.orch.pc == Launching(done, [v] + todo) && v in s.tpl.specs
    requires NoDup(names) && |names| == s.tpl.specs[v].count
    ensures Inv(s.(orch := LaunchVdu(s.orch, v, names).(pc := Launching(done + [v], todo))))
  {
    var t, o, m := s.tpl, s.orch, s.mgr;
    Parts(s);
    LaunchFacts(t, o, done, v, todo);
    AcksWithin(s, v);
    OrchLaunch(t, o, names, done, v, todo);
    LinkLaunch(t, o.insts, o.acks, s.sent, s.scaleMsgs, m.drv, m.nsConfig, names, done, v, todo);
    hide *;
    Assemble(s.(orch := LaunchVdu(o, v, names).(pc := Launching(done + [v], todo))));
  }

  // ---------- Orchestrator: sending and waiting ----------

  lemma {:induction false} UngeneratedMembers(deployed: seq<Vdu>, generated: seq<Vdu>)
    ensures forall v :: v in Ungenerated(deployed, generated) <==> v in deployed && v !in generated
    ensures NoDup(deployed) ==> NoDup(Ungenerated(deployed, generated))
  {
    if deployed != [] {
      UngeneratedMembers(deployed[1..], generated);
      assert deployed == [deployed[0]] + deployed[1..];
    }
  }

  lemma {:induction false} ConfOfEntries(t: Template, insts: map<Vdu, seq<Inst>>, vs: seq<Vdu>)
    requires forall v :: v in vs ==> v in insts && v in t.specs
    ensures |ConfOf(t, insts, vs)| == |vs| && ConfVdus(ConfOf(t, insts, vs)) == ToSet(vs)
    ensures forall k :: 0 <= k < |vs| ==>
              ConfOf(t, insts, vs)[k] == VduConf(vs[k], insts[vs[k]], t.specs[vs[k]].driver)
  {
    if vs != [] {
      ConfOfEntries(t, insts, vs[1..]);
      assert ToSet(vs) == {vs[0]} + ToSet(vs[1..]);
    }
  }

  lemma {:induction false} SentAppend(sent: seq<Conf>, conf: Conf)
    ensures SentVdus(sent + [conf]) == SentVdus(sent) + ConfVdus(conf)
  {
    if sent != [] {
      SentAppend(sent[1..], conf);
      assert (sent + [conf])[1..] == sent[1..] + [conf];
    }
  }

  /** The message built names exactly the launched VDUs that no earlier message named, with their servers. */
  lemma NewConfOk(t: Template, o: Orch, drv: map<string, Drv>)
    requires InstsOk(t, o.insts, o.deployed, o.dropped)
    ensures ConfOk(t, o.insts, drv, NewConf(t, o))
    ensures ConfVdus(NewConf(t, o)) == ToSet(o.deployed) - ToSet(o.confGenerated)
  {
    var vs := Ungenerated(o.deployed, o.confGenerated);
    UngeneratedMembers(o.deployed, o.confGenerated);
    forall v | v in vs ensures v in o.insts {
      assert v in ToSet(o.deployed);
    }
    ConfOfEntries(t, o.insts, vs);
    assert ToSet(vs) == ToSet(o.deployed) - ToSet(o.confGenerated);
  }

  /** After the message was built every deployed VDU is on the `conf_generated` list. */
  lemma GeneratedAfter(deployed: seq<Vdu>, generated: seq<Vdu>, extra: seq<Vdu>)
    requires ToSet(generated) <= ToSet(deployed) && ToSet(extra) <= ToSet(deployed)
    ensures ToSet(generated + Ungenerated(deployed, generated) + extra) == ToSet(deployed)
  {
    UngeneratedMembers(deployed, generated);
    var all := generated + Ungenerated(deployed, generated) + extra;
    forall v ensures v in ToSet(all) <==> v in ToSet(deployed) {
      assert v in ToSet(generated) <==> v in generated;
      assert v in ToSet(extra) <==> v in extra;
    }
  }

  /** The orchestrator's state after a wave was sent. */
  function WaveSent(o: Orch, done: seq<Vdu>): Orch {
    o.(pc := Waiting(done),
       confGenerated := o.confGenerated + Ungenerated(o.deployed, o.confGenerated) + if o.round > 0 then done else [])
  }

  lemma WaveSend(t: Template, done: seq<Vdu>, r: nat, configured: seq<Vdu>, deployed: seq<Vdu>,
                 generated: seq<Vdu>, extra: seq<Vdu>, dropped: set<Vdu>)
    requires WaveOk(t, Launching(done, []), r, configured, deployed, generated, dropped) && (extra == [] || extra == done)
    ensures WaveOk(t, Waiting(done), r, configured, deployed, generated + Ungenerated(deployed, generated) + extra, dropped)
    ensures ToSet(done) == ToSet(deployed) - ToSet(generated)
  {
    ClosureGrows(Deps(t), r);
    assert done + [] == done;
    assert ToSet(deployed) == Closure(Deps(t), r + 1);
    GeneratedAfter(deployed, generated, extra);
  }

  lemma OrchSend(t: Template, o: Orch, done: seq<Vdu>)
    requires OrchOk(t, o) && o.pc == Launching(done, [])
    ensures OrchOk(t, WaveSent(o, done)) && ToSet(done) == ToSet(o.deployed) - ToSet(o.confGenerated)
  {
    WaveSend(t, done, o.round, o.configured, o.deployed, o.confGenerated, if o.round > 0 then done else [],
             o.dropped);
  }

  lemma LinkSend(t: Template, insts: map<Vdu, seq<Inst>>, acks: map<Vdu, seq<Inst>>, sent: seq<Conf>,
                 scaleMsgs: seq<Conf>, drv: map<string, Drv>, ns: Conf, done: seq<Vdu>, conf: Conf)
    requires LinkOk(t, Launching(done, []), insts, acks, sent, scaleMsgs, drv, ns)
    requires ConfOk(t, insts, drv, conf) && ConfVdus(conf) == ToSet(done)
    ensures LinkOk(t, Waiting(done), insts, acks, sent + [conf], scaleMsgs, drv, ns)
  {
    SentAppend(sent, conf);
  }

  lemma SendConfOk(s: State, done: seq<Vdu>)
    requires Inv(s) && s.orch.pc == Launching(done, [])
    ensures Inv(s.(sent := s.sent + [NewConf(s.tpl, s.orch)], orch := WaveSent(s.orch, done)))
  {
    var t, o, m := s.tpl, s.orch, s.mgr;
    var o' := WaveSent(o, done);
    Parts(s);
    OrchSend(t, o, done);
    NewConfOk(t, o, m.drv);
    assert o'.pc == Waiting(done) && o'.insts == o.insts && o'.acks == o.acks && o'.failed == o.failed;
    hide *;
    LinkSend(t, o.insts, o.acks, s.sent, s.scaleMsgs, m.drv, m.nsConfig, done, NewConf(t, o));
    Assemble(s.(sent := s.sent + [NewConf(t, o)], orch := o'));
  }

  lemma OrchWaveDone(t: Template, o: Orch, wave: seq<Vdu>)
    requires OrchOk(t, o) && o.pc == Waiting(wave) && AllIn(wave, o.configured)
    ensures OrchOk(t, o.(pc := Deciding))
  {
    var c := Closure(Deps(t), o.round + 1);
    forall v | v in c ensures v in ToSet(o.configured) {
      assert v in ToSet(wave) || v in Closure(Deps(t), o.round);
    }
    forall v | v in o.configured ensures v in ToSet(o.deployed) {
    }
    assert ToSet(o.configured) == c;
  }

  lemma AcknowledgedOk(s: State, wave: seq<Vdu>)
    requires Inv(s) && s.orch.pc == Waiting(wave) && AllIn(wave, s.orch.configured)
    ensures Inv(s.(orch := s.orch.(pc := Deciding)))
  {
    var t, o, m := s.tpl, s.orch, s.mgr;
    Parts(s);
    OrchWaveDone(t, o, wave);
    MoveLink(t, o.pc, o.insts, o.acks, s.sent, s.scaleMsgs, m.drv, m.nsConfig, Deciding);
    hide *;
    Assemble(s.(orch := o.(pc := Deciding)));
  }

  lemma OrchAbort(t: Template, o: Orch, status: ServiceStatus)
    requires OrchOk(t, o) && (o.pc.Waiting? || o.pc.Launching?)
    ensures OrchOk(t, o.(pc := Aborted, status := status))
  {
    hide DepsConfigured, ErrorsOk, InstsOk, ListsOk, RoundsOk, ToSet, TopoOrder;
  }

  lemma AbortOk(s: State, status: ServiceStatus)
    requires Inv(s) && (s.orch.pc.Waiting? || s.orch.pc.Launching?)
    ensures Inv(s.(orch := s.orch.(pc := Aborted, status := status)))
  {
    var t, o, m := s.tpl, s.orch, s.mgr;
    Parts(s);
    OrchAbort(t, o, status);
    MoveLink(t, o.pc, o.insts, o.acks, s.sent, s.scaleMsgs, m.drv, m.nsConfig, Aborted);
    hide *;
    Assemble(s.(orch := o.(pc := Aborted, status := status)));
  }

  // ---------- Orchestrator: scaling ----------

  lemma {:induction false} RemoveFirstSnoc(list: seq<Vdu>, x: Vdu, v: Vdu)
    ensures RemoveFirst(list + [x], v) == if v in list then RemoveFirst(list, v) + [x] else if x == v then list else list + [x]
  {
    if list != [] {
      RemoveFirstSnoc(list[1..], x, v);
      assert (list + [x])[1..] == list[1..] + [x];
      assert list == [list[0]] + list[1..];
    }
  }

  /** Taking a VDU nobody depends on out of the list leaves the others in dependency order. */
  lemma {:induction false} TopoRemove(g: Graph, list: seq<Vdu>, v: Vdu)
    requires TopoOrder(g, list) && NoDup(list) && forall u :: u in g ==> v !in g[u]
    ensures TopoOrder(g, RemoveFirst(list, v))
  {
    if list != [] {
      var init, last := list[..|list| - 1], list[|list| - 1];
      assert list == init + [last];
      TopoRemove(g, init, v);
      RemoveFirstSnoc(init, last, v);
      RemoveFirstMembers(init, v);
      if v in init {
        var rest := RemoveFirst(init, v);
        assert (rest + [last])[..|rest|] == rest;
      }
    }
  }

  lemma InstsScale(t: Template, insts: map<Vdu, seq<Inst>>, deployed: seq<Vdu>, dropped: set<Vdu>, v: Vdu, name: Inst)
    requires InstsOk(t, insts, deployed, dropped) && v in insts && v !in dropped && name !in insts[v]
    ensures InstsOk(t, insts[v := insts[v] + [name]], RemoveFirst(deployed, v) + [v], dropped)
    ensures insts[v := insts[v] + [name]].Keys == insts.Keys
  {
    var deployed' := RemoveFirst(deployed, v) + [v];
    RemoveFirstMembers(deployed, v);
    assert v in ToSet(deployed);
    forall u ensures u in ToSet(deployed') <==> u in ToSet(deployed) {
    }
  }

  lemma ListsScale(g: Graph, insts: map<Vdu, seq<Inst>>, acks: map<Vdu, seq<Inst>>, deployed: seq<Vdu>,
                   configured: seq<Vdu>, dropped: set<Vdu>, v: Vdu, name: Inst)
    requires ListsOk(configured, insts, acks, dropped) && v in insts && |AcksOf(acks, v)| <= |insts[v]|
    requires TopoOrder(g, configured) && DepsConfigured(g, deployed, configured) && NoDup(deployed)
    requires v in deployed && forall u :: u in g ==> v !in g[u]
    ensures ListsOk(RemoveFirst(configured, v), insts[v := insts[v] + [name]], acks, dropped)
    ensures TopoOrder(g, RemoveFirst(configured, v))
    ensures DepsConfigured(g, RemoveFirst(deployed, v) + [v], RemoveFirst(configured, v))
  {
    RemoveFirstMembers(configured, v);
    RemoveFirstMembers(deployed, v);
    TopoRemove(g, configured, v);
  }

  lemma WaveScale(t: Template, r: nat, insts: map<Vdu, seq<Inst>>, configured: seq<Vdu>, errored: seq<Vdu>,
                  deployed: seq<Vdu>, generated: seq<Vdu>, dropped: set<Vdu>, v: Vdu, name: Inst)
    requires WaveOk(t, Idle, r, configured, deployed, generated, dropped)
    requires SettledOk(t, Idle, insts, configured, errored, dropped)
    requires NoDup(configured) && v in insts
    ensures WaveOk(t, Scaling(v), r, RemoveFirst(configured, v), RemoveFirst(deployed, v) + [v], RemoveAll(generated, v), dropped)
    ensures SettledOk(t, Scaling(v), insts[v := insts[v] + [name]], RemoveFirst(configured, v), errored, dropped)
  {
    RemoveAllMembers(generated, v);
    RemoveFirstMembers(configured, v);
    assert ToSet(RemoveAll(generated, v)) == ToSet(generated) - {v};
    assert insts[v := insts[v] + [name]].Keys == insts.Keys;
  }

  lemma OrchScale(t: Template, o: Orch, v: Vdu, name: Inst)
    requires OrchOk(t, o) && o.pc.Idle? && v in o.configured && v in o.insts && name !in o.insts[v]
    requires !HasDependents(t, v) && |AcksOf(o.acks, v)| <= |o.insts[v]|
    ensures OrchOk(t, BeginScale(o, v, name))
  {
    var g := Deps(t);
    assert v in ToSet(o.deployed);
    assert forall u :: u in g ==> v !in g[u];
    InstsScale(t, o.insts, o.deployed, o.dropped, v, name);
    ListsScale(g, o.insts, o.acks, o.deployed, o.configured, o.dropped, v, name);
    WaveScale(t, o.round, o.insts, o.configured, o.errored, o.deployed, o.confGenerated, o.dropped, v, name);
  }

  lemma LinkScale(t: Template, insts: map<Vdu, seq<Inst>>, acks: map<Vdu, seq<Inst>>, sent: seq<Conf>,
                  scaleMsgs: seq<Conf>, drv: map<string, Drv>, ns: Conf, v: Vdu, name: Inst)
    requires LinkOk(t, Idle, insts, acks, sent, scaleMsgs, drv, ns)
    requires v in insts && v.name in drv && forall i :: i in insts[v] ==> i in AcksOf(acks, v)
    ensures LinkOk(t, Scaling(v), insts[v := insts[v] + [name]], acks, sent, scaleMsgs, drv, ns)
  {
    var insts' := insts[v := insts[v] + [name]];
    assert insts'[v][..|insts'[v]| - 1] == insts[v];
    assert insts'.Keys == insts.Keys;
    assert SentOk(t, insts', drv, sent);
  }

  /** All servers of a configured VDU are known to the manager and acknowledged. */
  lemma ConfiguredKnown(s: State, v: Vdu)
    requires Inv(s) && v in s.orch.configured
    ensures v in s.orch.insts && v.name in s.mgr.drv
    ensures forall i :: i in s.orch.insts[v] ==> i in AcksOf(s.orch.acks, v)
    ensures |AcksOf(s.orch.acks, v)| <= |s.orch.insts[v]|
  {
    AcksWithin(s, v);
    AcksDistinct(s.mgr, s.net, s.orch.acks, s.orch.failed, v);
    assert s.orch.insts[v][0] in s.orch.insts[v];
  }

  lemma ScaleBegins(s: State, v: Vdu, name: Inst)
    requires Inv(s) && s.orch.pc.Idle? && v in s.orch.configured && v in s.orch.insts
    requires !HasDependents(s.tpl, v) && name !in s.orch.insts[v]
    ensures Inv(s.(orch := BeginScale(s.orch, v, name)))
  {
    var t, o, m := s.tpl, s.orch, s.mgr;
    var o' := BeginScale(o, v, name);
    assert o'.pc == Scaling(v) && o'.insts == o.insts[v := o.insts[v] + [name]] && o'.acks == o.acks && o'.failed == o.failed;
    Parts(s);
    ConfiguredKnown(s, v);
    hide *;
    OrchScale(t, o, v, name);
    LinkScale(t, o.insts, o.acks, s.sent, s.scaleMsgs, m.drv, m.nsConfig, v, name);
    Assemble(s.(orch := o'));
  }

  /** The orchestrator's state after a scale message was sent. */
  function ScaleSent(o: Orch, v: Vdu): Orch {
    o.(pc := ScaleWaiting(v), confGenerated := o.confGenerated + Ungenerated(o.deployed, o.confGenerated))
  }

  lemma OnlyMissing(deployed: seq<Vdu>, generated: seq<Vdu>, v: Vdu)
    requires NoDup(deployed) && v in deployed && ToSet(generated) == ToSet(deployed) - {v}
    ensures Ungenerated(deployed, generated) == [v]
    ensures ToSet(generated + Ungenerated(deployed, generated)) == ToSet(deployed)
  {
    var vs := Ungenerated(deployed, generated);
    UngeneratedMembers(deployed, generated);
    forall u ensures u in vs <==> u == v {
      assert u in deployed <==> u in ToSet(deployed);
      assert u in generated <==> u in ToSet(generated);
    }
    NoDupCard(vs);
    assert ToSet(vs) == {v};
    assert vs[0] in vs;
    assert ToSet(generated + [v]) == ToSet(generated) + {v};
  }

  /** A scale message names exactly the scaled VDU, with all of its servers. */
  lemma ScaleConf(t: Template, o: Orch, v: Vdu)
    requires OrchOk(t, o) && o.pc == Scaling(v)
    ensures v in o.insts && v in t.specs && NewConf(t, o) == [VduConf(v, o.insts[v], t.specs[v].driver)]
    ensures ToSet(o.confGenerated + Ungenerated(o.deployed, o.confGenerated)) == t.specs.Keys - o.dropped
  {
    assert v in ToSet(o.deployed);
    OnlyMissing(o.deployed, o.confGenerated, v);
    ConfOfEntries(t, o.insts, [v]);
  }

  lemma OrchSendScale(t: Template, o: Orch, v: Vdu)
    requires OrchOk(t, o) && o.pc == Scaling(v)
    ensures OrchOk(t, ScaleSent(o, v))
  {
    hide DepsConfigured, ErrorsOk, InstsOk, ListsOk, RoundsOk, ToSet, TopoOrder;
    ScaleConf(t, o, v);
  }

  lemma LinkSendScale(t: Template, insts: map<Vdu, seq<Inst>>, acks: map<Vdu, seq<Inst>>, sent: seq<Conf>,
                      scaleMsgs: seq<Conf>, drv: map<string, Drv>, ns: Conf, v: Vdu)
    requires LinkOk(t, Scaling(v), insts, acks, sent, scaleMsgs, drv, ns) && v in t.specs && v in insts
    ensures LinkOk(t, ScaleWaiting(v), insts, acks, sent, scaleMsgs + [[VduConf(v, insts[v], t.specs[v].driver)]], drv, ns)
  {
    assert scaleMsgs == [];
  }

  lemma SendScaleOk(s: State, v: Vdu)
    requires Inv(s) && s.orch.pc == Scaling(v)
    ensures Inv(s.(scaleMsgs := s.scaleMsgs + [NewConf(s.tpl, s.orch)], orch := ScaleSent(s.orch, v)))
  {
    var t, o, m := s.tpl, s.orch, s.mgr;
    var o' := ScaleSent(o, v);
    Parts(s);
    ScaleConf(t, o, v);
    OrchSendScale(t, o, v);
    LinkSendScale(t, o.insts, o.acks, s.sent, s.scaleMsgs, m.drv, m.nsConfig, v);
    assert o'.pc == ScaleWaiting(v) && o'.insts == o.insts && o'.acks == o.acks && o'.failed == o.failed;
    hide *;
    Assemble(s.(scaleMsgs := s.scaleMsgs + [NewConf(t, o)], orch := o'));
  }

  /** Once the scaled VDU is configured again, or errored, its message has been handled. */
  lemma ScaleHandled(s: State, v: Vdu)
    requires Inv(s) && s.orch.pc == ScaleWaiting(v) && (v in s.orch.configured || v in s.orch.errored)
    ensures s.scaleMsgs == []
  {
    var o := s.orch;
    AcksWithin(s, v);
    AcksDistinct(s.mgr, s.net, o.acks, o.failed, v);
    if v in o.errored {
      var i := ErroredNotConfigured(s, v);
    } else {
      var i := o.insts[v][|o.insts[v]| - 1];
      assert Known(s.mgr.drv, v, i);
    }
  }

  lemma LinkSettle(t: Template, insts: map<Vdu, seq<Inst>>, acks: map<Vdu, seq<Inst>>,
                   sent: seq<Conf>, drv: map<string, Drv>, ns: Conf, v: Vdu)
    requires LinkOk(t, ScaleWaiting(v), insts, acks, sent, [], drv, ns)
    ensures LinkOk(t, Idle, insts, acks, sent, [], drv, ns)
  {
  }

  lemma OrchSettle(t: Template, o: Orch, v: Vdu, status: ServiceStatus)
    requires OrchOk(t, o) && o.pc == ScaleWaiting(v) && (v in o.configured || v in o.errored)
    ensures OrchOk(t, o.(pc := Idle, status := status))
  {
    hide DepsConfigured, ErrorsOk, InstsOk, ListsOk, RoundsOk, ToSet, TopoOrder;
  }

  lemma ScaleEndOk(s: State, v: Vdu, status: ServiceStatus)
    requires Inv(s) && s.orch.pc == ScaleWaiting(v) && (v in s.orch.configured || v in s.orch.errored)
    ensures Inv(s.(orch := s.orch.(pc := Idle, status := status)))
  {
    var t, o, m := s.tpl, s.orch, s.mgr;
    Parts(s);
    ScaleHandled(s, v);
    hide *;
    OrchSettle(t, o, v, status);
    LinkSettle(t, o.insts, o.acks, s.sent, m.drv, m.nsConfig, v);
    Assemble(s.(orch := o.(pc := Idle, status := status)));
  }

  // ---------- A scale-out whose boot fails ----------

  lemma InstsDrop(t: Template, insts: map<Vdu, seq<Inst>>, deployed: seq<Vdu>, dropped: set<Vdu>, v: Vdu)
    requires InstsOk(t, insts, deployed, dropped) && v in insts
    ensures InstsOk(t, insts, RemoveFirst(deployed, v), dropped + {v})
  {
    RemoveFirstMembers(deployed, v);
    forall u ensures u in ToSet(RemoveFirst(deployed, v)) <==> u in insts.Keys - (dropped + {v}) {
      assert u in ToSet(deployed) <==> u in deployed;
    }
  }

  lemma ListsDrop(g: Graph, insts: map<Vdu, seq<Inst>>, acks: map<Vdu, seq<Inst>>, deployed: seq<Vdu>,
                  configured: seq<Vdu>, dropped: set<Vdu>, v: Vdu)
    requires ListsOk(configured, insts, acks, dropped) && NoDup(deployed)
    requires TopoOrder(g, configured) && DepsConfigured(g, deployed, configured) && forall u :: u in g ==> v !in g[u]
    ensures ListsOk(RemoveFirst(configured, v), insts, acks, dropped + {v})
    ensures TopoOrder(g, RemoveFirst(configured, v))
    ensures DepsConfigured(g, RemoveFirst(deployed, v), RemoveFirst(configured, v))
  {
    RemoveFirstMembers(configured, v);
    RemoveFirstMembers(deployed, v);
    TopoRemove(g, configured, v);
  }

  lemma WaveDrop(t: Template, r: nat, insts: map<Vdu, seq<Inst>>, configured: seq<Vdu>, errored: seq<Vdu>,
                 deployed: seq<Vdu>, generated: seq<Vdu>, dropped: set<Vdu>, v: Vdu)
    requires WaveOk(t, Idle, r, configured, deployed, generated, dropped)
    requires SettledOk(t, Idle, insts, configured, errored, dropped) && NoDup(configured)
    ensures WaveOk(t, Idle, r, RemoveFirst(configured, v), RemoveFirst(deployed, v), RemoveAll(generated, v), dropped + {v})
    ensures SettledOk(t, Idle, insts, RemoveFirst(configured, v), errored, dropped + {v})
  {
    RemoveAllMembers(generated, v);
    RemoveFirstMembers(configured, v);
    assert ToSet(RemoveAll(generated, v)) == ToSet(generated) - {v};
  }

  lemma OrchDrop(t: Template, o: Orch, v: Vdu)
    requires OrchOk(t, o) && o.pc.Idle? && CanScale(t, o, v)
    ensures OrchOk(t, DropScaled(o, v))
  {
    assert forall u :: u in Deps(t) ==> v !in Deps(t)[u];
    InstsDrop(t, o.insts, o.deployed, o.dropped, v);
    ListsDrop(Deps(t), o.insts, o.acks, o.deployed, o.configured, o.dropped, v);
    WaveDrop(t, o.round, o.insts, o.configured, o.errored, o.deployed, o.confGenerated, o.dropped, v);
  }

  /** The servers of a dropped VDU stay launched and acknowledged, so the manager notices nothing. */
  lemma DropOk(s: State, v: Vdu)
    requires Inv(s) && s.orch.pc.Idle? && CanScale(s.tpl, s.orch, v)
    ensures Inv(s.(orch := DropScaled(s.orch, v)))
  {
    var o, o' := s.orch, DropScaled(s.orch, v);
    assert o'.pc == o.pc && o'.insts == o.insts && o'.acks == o.acks && o'.failed == o.failed;
    hide *;
    Parts(s);
    OrchDrop(s.tpl, o, v);
    Assemble(s.(orch := o'));
  }
}
