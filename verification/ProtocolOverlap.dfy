/** Scale requests and the service's status: when the code's guard, ACTIVE, means that the orchestrator is idle, and what
    a request does that the guard lets in while it is not. */
module ProtocolOverlap {
  import opened Lists
  import opened DependencyGraph
  import opened Protocol
  import opened ProtocolInvariant
  import opened ProtocolPreservation
  import opened ProtocolManagerSteps
  import opened ProtocolSafety
  import opened ProtocolTheorems
  import opened ProtocolOutcomes
  import opened ProtocolScaling

  // ---------- Without a refused request ----------

  /** A service is ACTIVE only while its orchestrator is idle, so no request runs beside the orchestrator's thread. */
  predicate Calm(s: State) {
    s.refused == 0 ==> !s.overlapped && s.others == [] && (s.orch.status.Active? ==> s.orch.pc.Idle?)
  }

  lemma CalmOrch(s: State, a: Action)
    requires Calm(s) && Enabled(s, a) && (OfCreation(a) || OfScaling(a) || OfOverlap(a))
    ensures Calm(Next(s, a))
  {
    hide AllIn, AnyIn, CanScale, Deps, NewConf, NoDup, Ready, RemoveAll, RemoveFirst, Running, ScaleVdus, Ungenerated;
  }

  lemma CalmElsewhere(s: State, a: Action)
    requires Calm(s) && Enabled(s, a) && !OfCreation(a) && !OfScaling(a) && !OfOverlap(a)
    ensures Calm(Next(s, a))
  {
    hide AllIn, AnyIn, CanScale, Dispatch, NoDup, Register, Running, ScanEntry, StartsWorker, WorkerRecords;
  }

  lemma CalmStep(s: State, a: Action)
    requires Calm(s) && Enabled(s, a)
    ensures Calm(Next(s, a))
  {
    hide *;
    if OfCreation(a) || OfScaling(a) || OfOverlap(a) { CalmOrch(s, a); } else { CalmElsewhere(s, a); }
  }

  lemma {:induction false} CalmRun(s: State, actions: seq<Action>)
    requires Calm(s) && IsRun(s, actions)
    ensures Calm(After(s, actions))
    decreases |actions|
  {
    hide Calm, Enabled, Next;
    if actions != [] {
      CalmStep(s, actions[0]);
      CalmRun(Next(s, actions[0]), actions[1..]);
    }
  }

  /** Until a scale request is refused, the guard that admits one and the idle orchestrator agree: a request is admitted
      only when the orchestrator is idle, and the run is one without overlapping requests. */
  lemma GuardMeansIdle(s: State)
    requires Reachable(s) && s.refused == 0
    ensures Orderly(s)
    ensures s.orch.status.Active? ==> s.orch.pc.Idle?
  {
    hide Ready, Deps;
    var actions :| ValidTemplate(s.tpl) && IsRun(Init(s.tpl), actions) && After(Init(s.tpl), actions) == s;
    CalmRun(Init(s.tpl), actions);
  }

  /** Until a scale request is refused, an ACTIVE service has every VDU configured if and only if none has errored and
      no scale-out failed to boot its server; and the VDUs it lacks are exactly those. */
  lemma ActiveExactly(s: State)
    requires Reachable(s) && s.refused == 0 && s.orch.status.Active?
    ensures s.orch.pc.Idle?
    ensures (forall v :: v in s.tpl.specs ==> v in s.orch.configured) <==> s.orch.errored == [] && s.orch.dropped == {}
    ensures forall v :: v in s.tpl.specs && v !in s.orch.configured <==> v in s.orch.errored || v in s.orch.dropped
  {
    var t, o := s.tpl, s.orch;
    hide *;
    GuardMeansIdle(s);
    SettledLists(s);
    InvAlways(s);
    Parts(s);
    forall v ensures v in t.specs && v !in o.configured <==> v in o.errored || v in o.dropped {
      ListsMeanAcks(s, v);
      if v in o.insts { LaunchedInTemplate(t, o, v); }
    }
    if o.errored != [] {
      assert o.errored[0] in o.errored;
    }
  }

  // ---------- After a refused request ----------

  lemma OverlapBegins(s: State, w: Vdu, name: Inst)
    requires s.orch.status.Active? && !s.orch.pc.Idle? && CanScale(s.tpl, s.orch, w) && name !in s.orch.insts[w]
    ensures Enabled(s, OverlapScale(w, name))
    ensures Next(s, OverlapScale(w, name)) ==
            s.(orch := BeginScale(s.orch, w, name).(pc := s.orch.pc), others := s.others + [Scaling(w)],
               scales := s.scales + 1, overlapped := true)
  {
    hide CanScale, BeginScale;
  }

  lemma Overlapped(t: Template, o: Orch, w: Vdu, name: Inst)
    requires CanScale(t, o, w)
    ensures w in o.configured && w in o.insts
    ensures var o' := BeginScale(o, w, name).(pc := o.pc);
            && o'.pc == o.pc && o'.insts == o.insts[w := o.insts[w] + [name]]
            && o'.configured == RemoveFirst(o.configured, w) && o'.confGenerated == RemoveAll(o.confGenerated, w)
            && o'.deployed == RemoveFirst(o.deployed, w) + [w] && o'.dropped == o.dropped
  {
  }

  lemma ShrunkConfigured(t: Template, o: Orch, w: Vdu)
    requires OrchOk(t, o) && w in o.configured
    ensures NoDup(o.configured) && |RemoveFirst(o.configured, w)| < |t.specs|
    ensures w in t.specs && forall d :: d in t.specs[w].deps ==> d in o.configured && d != w
  {
    hide DepsConfigured, ErrorsOk, InstsOk, RoundsOk, SettledOk, WaveOk;
    ConfiguredLaunched(t, o, w);
    AllInTemplate(t, o);
    NoDupCard(o.configured);
    SubsetCard(ToSet(o.configured), t.specs.Keys);
    RemoveFirstThenAll(o.configured, w);
    var k :| 0 <= k < |o.configured| && o.configured[k] == w;
    forall d | d in t.specs[w].deps ensures d in o.configured && d != w {
      OrderByIndex(Deps(t), o.configured, k, d);
    }
  }

  /** Off the list, the VDU is ready again: its dependencies are still configured. */
  lemma ReadyAgain(t: Template, o: Orch, w: Vdu)
    requires ValidTemplate(t) && OrchOk(t, o) && w in o.configured
    ensures |RemoveFirst(o.configured, w)| < |t.specs|
    ensures w in Ready(Deps(t), t.order, RemoveFirst(o.configured, w))
  {
    hide OrchOk, Ready, RemoveFirst;
    ShrunkConfigured(t, o, w);
    RemoveFirstMembers(o.configured, w);
    ReadyMembers(Deps(t), t.order, RemoveFirst(o.configured, w));
    assert w in ToSet(t.order);
  }

  lemma NextRound(s: State)
    requires s.orch.pc.Deciding? && |s.orch.configured| != |s.tpl.specs|
    ensures Enabled(s, Decide)
    ensures var o' := Next(s, Decide).orch;
            && o'.pc == Launching([], Ready(Deps(s.tpl), s.tpl.order, s.orch.configured))
            && o'.insts == s.orch.insts && o'.deployed == s.orch.deployed
  {
  }

  /** A request admitted while the resolving loop decides has its VDU launched again: the loop's next round finds the VDU
      off the `configured` list and ready, although its servers are up. */
  lemma OverlapRelaunches(s: State, w: Vdu, name: Inst)
    requires Orderly(s) && s.orch.pc.Deciding? && s.orch.status.Active?
    requires CanScale(s.tpl, s.orch, w) && name !in s.orch.insts[w]
    ensures Enabled(s, OverlapScale(w, name)) && Enabled(Next(s, OverlapScale(w, name)), Decide)
    ensures var s' := Next(Next(s, OverlapScale(w, name)), Decide);
            s'.orch.pc.Launching? && w in s'.orch.pc.todo && w in s'.orch.insts && w in s'.orch.deployed
  {
    hide *;
    OverlapBegins(s, w, name);
    Overlapped(s.tpl, s.orch, w, name);
    InvAlways(s);
    Parts(s);
    ReadyAgain(s.tpl, s.orch, w);
    NextRound(Next(s, OverlapScale(w, name)));
    assert w in RemoveFirst(s.orch.deployed, w) + [w];
  }

  lemma UnsentAfter(t: Template, o: Orch, o': Orch, w: Vdu, name: Inst, drv: map<string, Drv>)
    requires OrchOk(t, o) && w in o.configured && w in o.insts && name !in o.insts[w]
    requires o'.insts == o.insts[w := o.insts[w] + [name]] && o'.confGenerated == RemoveAll(o.confGenerated, w)
    requires o'.deployed == RemoveFirst(o.deployed, w) + [w] && o'.dropped == o.dropped
    ensures ConfVdus(NewConf(t, o')) == {w} + (ToSet(o.deployed) - ToSet(o.confGenerated))
  {
    hide ConfVdus, DepsConfigured, ErrorsOk, NewConf, RoundsOk, SettledOk, TopoOrder, WaveOk;
    InstsScale(t, o.insts, o.deployed, o.dropped, w, name);
    NewConfOk(t, o', drv);
    RemoveFirstMembers(o.deployed, w);
    RemoveAllMembers(o.confGenerated, w);
    forall v ensures v in ToSet(o'.deployed) - ToSet(o'.confGenerated)
                     <==> v in {w} + (ToSet(o.deployed) - ToSet(o.confGenerated)) {
    }
  }

  lemma OverlapSends(s: State, others: seq<Pc>, w: Vdu)
    requires s.others == others + [Scaling(w)]
    ensures Enabled(s, OverlapSend(|others|))
    ensures var s' := Next(s, OverlapSend(|others|));
            && s'.scaleMsgs == s.scaleMsgs + [NewConf(s.tpl, s.orch)] && s'.orch.deployed == s.orch.deployed
            && s'.orch.confGenerated == s.orch.confGenerated + Ungenerated(s.orch.deployed, s.orch.confGenerated)
  {
    hide NewConf, Ungenerated;
    assert s.others[|others|] == Scaling(w);
  }

  lemma AllMarked(deployed: seq<Vdu>, generated: seq<Vdu>)
    ensures forall v :: v in deployed ==> v in generated + Ungenerated(deployed, generated)
  {
    UngeneratedMembers(deployed, generated);
  }

  /** The message of a request admitted while the orchestrator is not idle names, besides the scaled VDU, every VDU that
      was launched and is in no message yet; so it names the scaled VDU alone if and only if there is no such VDU. All of
      them are marked then. */
  lemma OverlapNamesUnsent(s: State, w: Vdu, name: Inst)
    requires Orderly(s) && !s.orch.pc.Idle? && s.orch.status.Active?
    requires CanScale(s.tpl, s.orch, w) && name !in s.orch.insts[w]
    ensures Enabled(s, OverlapScale(w, name)) && Enabled(Next(s, OverlapScale(w, name)), OverlapSend(|s.others|))
    ensures var s' := Next(Next(s, OverlapScale(w, name)), OverlapSend(|s.others|));
            var unsent := ToSet(s.orch.deployed) - ToSet(s.orch.confGenerated);
            && |s'.scaleMsgs| == |s.scaleMsgs| + 1
            && ConfVdus(s'.scaleMsgs[|s.scaleMsgs|]) == {w} + unsent
            && (ConfVdus(s'.scaleMsgs[|s.scaleMsgs|]) == {w} <==> unsent <= {w})
            && forall v :: v in s'.orch.deployed ==> v in s'.orch.confGenerated
  {
    hide *;
    OverlapBegins(s, w, name);
    Overlapped(s.tpl, s.orch, w, name);
    var s1 := Next(s, OverlapScale(w, name));
    OverlapSends(s1, s.others, w);
    AllMarked(s1.orch.deployed, s1.orch.confGenerated);
    InvAlways(s);
    Parts(s);
    UnsentAfter(s.tpl, s.orch, BeginScale(s.orch, w, name).(pc := s.orch.pc), w, name, s.mgr.drv);
  }
}
