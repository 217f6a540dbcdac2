/** The inductive invariant of the deployment protocol: it holds initially, and every action outside an overlapping scale
    request keeps it. */
module ProtocolInvariant {
  import opened Lists
  import opened DependencyGraph
  import opened Protocol

  // ---------- Token conservation ----------

  function B(b: bool): nat { if b then 1 else 0 }

  ghost predicate InTable(table: map<ThreadId, Entry>, v: Vdu, i: Inst) {
    exists id :: id in table && table[id].tok == Tok(v, i)
  }

  /** The manager has been told about this server. */
  predicate Known(drv: map<string, Drv>, v: Vdu, i: Inst) {
    v.name in drv && drv[v.name].vdu == v && i in drv[v.name].insts
  }

  /** How often a server occurs between the manager's handler and the orchestrator's records. */
  ghost function Weight(todo: seq<Tok>, table: map<ThreadId, Entry>, net: multiset<Ack>,
                        acks: map<Vdu, seq<Inst>>, failed: seq<Tok>, v: Vdu, i: Inst): nat
  {
    multiset(todo)[Tok(v, i)] + B(InTable(table, v, i))
    + net[Ack(v, i, Complete)] + net[Ack(v, i, Error)]
    + multiset(AcksOf(acks, v))[i] + multiset(failed)[Tok(v, i)]
  }

  ghost predicate Conserved(todo: seq<Tok>, table: map<ThreadId, Entry>, net: multiset<Ack>,
                            acks: map<Vdu, seq<Inst>>, failed: seq<Tok>, drv: map<string, Drv>)
  {
    forall v, i :: Weight(todo, table, net, acks, failed, v, i) == B(Known(drv, v, i))
  }

  // ---------- The other parts ----------

  ghost predicate InstsOk(t: Template, insts: map<Vdu, seq<Inst>>, deployed: seq<Vdu>, dropped: set<Vdu>) {
    && (forall v :: v in insts ==> v in t.specs && NoDup(insts[v]) && |insts[v]| >= t.specs[v].count)
    && NoDup(deployed) && ToSet(deployed) == insts.Keys - dropped
  }

  /** A VDU dropped by a scale-out has all of its servers acknowledged. Only after creation are there any. */
  ghost predicate DroppedOk(pc: Pc, dropped: set<Vdu>, insts: map<Vdu, seq<Inst>>, acks: map<Vdu, seq<Inst>>) {
    && (dropped == {} || pc.Idle? || pc.Scaling? || pc.ScaleWaiting?)
    && (forall v :: v in dropped ==> v !in Busy(pc) && v in insts && 0 < |insts[v]| <= |AcksOf(acks, v)|)
  }

  /** The round each VDU was launched in is the wave it belongs to. */
  ghost predicate RoundsOk(t: Template, insts: map<Vdu, seq<Inst>>, launchedIn: map<Vdu, nat>) {
    && launchedIn.Keys == insts.Keys
    && (forall v :: v in launchedIn ==> v in Wave(Deps(t), launchedIn[v]))
  }

  /** A VDU is on the `configured` list exactly when it has as many acknowledgements as servers, and was not dropped. */
  ghost predicate ListsOk(configured: seq<Vdu>, insts: map<Vdu, seq<Inst>>, acks: map<Vdu, seq<Inst>>, dropped: set<Vdu>) {
    && NoDup(configured)
    && (forall v :: v in configured <==> v in insts && v !in dropped && 0 < |insts[v]| <= |AcksOf(acks, v)|)
  }

  /** Behind every entry of `errored` is the server whose configuration failed. */
  predicate ErrorsOk(errored: seq<Vdu>, failed: seq<Tok>) {
    |failed| == |errored| && forall k :: 0 <= k < |failed| ==> errored[k] == failed[k].vdu
  }

  /** Every member comes after all of its dependencies. */
  predicate TopoOrder(g: Graph, list: seq<Vdu>) {
    list == [] ||
    var last := list[|list| - 1];
    && last in g && (forall d :: d in g[last] ==> d in list[..|list| - 1])
    && TopoOrder(g, list[..|list| - 1])
  }

  predicate DepsConfigured(g: Graph, deployed: seq<Vdu>, configured: seq<Vdu>) {
    forall v :: v in deployed ==> v in g && forall d :: d in g[v] ==> d in configured
  }

  /** What has been deployed, configured and put into messages at each place of the orchestrator's program. */
  ghost predicate WaveOk(t: Template, pc: Pc, r: nat, configured: seq<Vdu>, deployed: seq<Vdu>, generated: seq<Vdu>,
                         dropped: set<Vdu>)
  {
    var g := Deps(t);
    match pc
    case Launching(done, todo) =>
      && NoDup(done + todo) && ToSet(done + todo) == Wave(g, r)
      && ToSet(configured) == Closure(g, r) == ToSet(generated)
      && ToSet(deployed) == Closure(g, r) + ToSet(done)
    case Waiting(wave) =>
      && ToSet(wave) == Wave(g, r)
      && Closure(g, r) <= ToSet(configured)
      && ToSet(deployed) == Closure(g, r + 1) == ToSet(generated)
    case Deciding =>
      ToSet(configured) == ToSet(deployed) == Closure(g, r + 1) == ToSet(generated)
    case Aborted => true
    case Idle => ToSet(generated) == t.specs.Keys - dropped
    case Scaling(v) => v in t.specs && ToSet(generated) == t.specs.Keys - dropped - {v}
    case ScaleWaiting(v) => v in t.specs && ToSet(generated) == t.specs.Keys - dropped
  }

  /** The VDU a scale request is busy with. */
  function Busy(pc: Pc): set<Vdu> {
    match pc
    case Scaling(v) => {v}
    case ScaleWaiting(v) => {v}
    case _ => {}
  }

  /** After creation every VDU has been launched, and is configured unless it failed, was dropped or is being scaled. */
  ghost predicate SettledOk(t: Template, pc: Pc, insts: map<Vdu, seq<Inst>>, configured: seq<Vdu>, errored: seq<Vdu>,
                            dropped: set<Vdu>)
  {
    pc.Idle? || pc.Scaling? || pc.ScaleWaiting? ==>
      && insts.Keys == t.specs.Keys
      && forall v :: v in t.specs ==> v in configured || v in errored || v in dropped || v in Busy(pc)
  }

  /** The VDUs of a wave being launched are in the template, in no message yet and new to the manager. */
  ghost predicate WaveUnknown(t: Template, pc: Pc, sent: seq<Conf>, drv: map<string, Drv>) {
    pc.Launching? ==> forall v :: v in pc.done + pc.todo ==> v in t.specs && v.name !in drv && v !in SentVdus(sent)
  }

  ghost predicate TableOk(m: Manager) {
    && (forall id :: id in m.table ==> id < m.nextId)
    && m.live <= m.table.Keys
    && (forall id :: id in m.table ==> (m.table[id].result.NoResult? <==> id in m.live))
    && (forall a, b :: a in m.table && b in m.table && m.table[a].tok == m.table[b].tok ==> a == b)
    && DaemonOk(m.table, m.daemon)
    && (!m.started ==> m == NewManager)
  }

  /** No recorded result is left behind: a scan still has it ahead, and a blocked daemon has none. */
  ghost predicate DaemonOk(table: map<ThreadId, Entry>, daemon: Daemon) {
    && (daemon.Blocked? ==> forall id :: id in table ==> table[id].result.NoResult?)
    && (daemon.Scanning? ==> daemon.left <= table.Keys
                             && forall id :: id in table && table[id].result.Result? ==> id in daemon.left)
  }

  /** The VDU whose scale message the manager has not handled yet. */
  function Untold(pc: Pc, scaleMsgs: seq<Conf>): set<Vdu> {
    match pc
    case Scaling(v) => {v}
    case ScaleWaiting(v) => if scaleMsgs != [] then {v} else {}
    case _ => {}
  }

  /** The servers of a VDU the manager should know: all but a freshly scaled one it was not told about. */
  function Expected(insts: map<Vdu, seq<Inst>>, pending: set<Vdu>, v: Vdu): seq<Inst>
    requires v in insts
  {
    if v in pending && |insts[v]| > 0 then insts[v][..|insts[v]| - 1] else insts[v]
  }

  ghost predicate DrvOk(t: Template, insts: map<Vdu, seq<Inst>>, pending: set<Vdu>,
                        drv: map<string, Drv>, nsConfig: Conf)
  {
    forall n :: n in drv ==>
      var d := drv[n];
      && d.vdu.name == n && d.vdu in insts && d.vdu in t.specs && d.driver == t.specs[d.vdu].driver
      && d.insts == Expected(insts, pending, d.vdu)
      && InConfig(nsConfig, d.vdu)
  }

  /** An instance is in the manager's COMPLETE list exactly when its COMPLETE acknowledgement was sent. */
  ghost predicate CompleteOk(drv: map<string, Drv>, net: multiset<Ack>, acks: map<Vdu, seq<Inst>>) {
    && (forall n :: n in drv ==> drv[n].vdu.name == n)
    && forall n, i :: n in drv ==>
      (i in drv[n].complete <==> net[Ack(drv[n].vdu, i, Complete)] > 0 || i in AcksOf(acks, drv[n].vdu))
  }

  predicate EntryOk(t: Template, insts: map<Vdu, seq<Inst>>, drv: map<string, Drv>, c: VduConf) {
    && c.vdu in t.specs && c.vdu in insts && c.driver == t.specs[c.vdu].driver
    && c.insts <= insts[c.vdu]
    && (c.vdu.name !in drv ==> c.insts == insts[c.vdu])
  }

  predicate DistinctVdus(conf: Conf) {
    forall i, j | 0 <= i < j < |conf| :: conf[i].vdu != conf[j].vdu
  }

  predicate ConfOk(t: Template, insts: map<Vdu, seq<Inst>>, drv: map<string, Drv>, conf: Conf) {
    DistinctVdus(conf) && forall c :: c in conf ==> EntryOk(t, insts, drv, c)
  }

  predicate SentOk(t: Template, insts: map<Vdu, seq<Inst>>, drv: map<string, Drv>, sent: seq<Conf>) {
    forall conf :: conf in sent ==> ConfOk(t, insts, drv, conf)
  }

  function ConfVdus(conf: Conf): set<Vdu> {
    if conf == [] then {} else {conf[0].vdu} + ConfVdus(conf[1..])
  }

  function SentVdus(sent: seq<Conf>): set<Vdu> {
    if sent == [] then {} else ConfVdus(sent[0]) + SentVdus(sent[1..])
  }

  function JustLaunched(pc: Pc): set<Vdu> {
    if pc.Launching? then ToSet(pc.done) else {}
  }

  /** While a scale message is under way it names just the scaled VDU with its new server list, and all servers
      but the new one are acknowledged. */
  ghost predicate ScaleOk(t: Template, pc: Pc, insts: map<Vdu, seq<Inst>>, acks: map<Vdu, seq<Inst>>,
                          scaleMsgs: seq<Conf>, drv: map<string, Drv>)
  {
    && (scaleMsgs != [] ==> pc.ScaleWaiting? && pc.vdu in t.specs && pc.vdu in insts
                            && scaleMsgs == [[VduConf(pc.vdu, insts[pc.vdu], t.specs[pc.vdu].driver)]])
    && (forall v :: v in Untold(pc, scaleMsgs) ==>
          && v in insts && |insts[v]| > 0 && v.name in drv
          && forall i :: i in Expected(insts, Untold(pc, scaleMsgs), v) ==> i in AcksOf(acks, v))
  }

  /** The orchestrator's own lists agree with each other and with the place its program has reached. */
  ghost predicate OrchOk(t: Template, o: Orch) {
    && InstsOk(t, o.insts, o.deployed, o.dropped)
    && DroppedOk(o.pc, o.dropped, o.insts, o.acks)
    && RoundsOk(t, o.insts, o.launchedIn)
    && ListsOk(o.configured, o.insts, o.acks, o.dropped)
    && ErrorsOk(o.errored, o.failed)
    && TopoOrder(Deps(t), o.configured)
    && DepsConfigured(Deps(t), o.deployed, o.configured)
    && WaveOk(t, o.pc, o.round, o.configured, o.deployed, o.confGenerated, o.dropped)
    && SettledOk(t, o.pc, o.insts, o.configured, o.errored, o.dropped)
  }

  /** The manager's knowledge agrees with what the orchestrator launched and sent. */
  ghost predicate LinkOk(t: Template, pc: Pc, insts: map<Vdu, seq<Inst>>, acks: map<Vdu, seq<Inst>>,
                         sent: seq<Conf>, scaleMsgs: seq<Conf>, drv: map<string, Drv>, ns: Conf)
  {
    && WaveUnknown(t, pc, sent, drv)
    && DrvOk(t, insts, Untold(pc, scaleMsgs), drv, ns)
    && SentOk(t, insts, drv, sent)
    && (!pc.Aborted? ==> insts.Keys == SentVdus(sent) + JustLaunched(pc))
    && ScaleOk(t, pc, insts, acks, scaleMsgs, drv)
  }

  /** Every server the manager knows is at exactly one place, and COMPLETE lists what was acknowledged. */
  ghost predicate TokensOk(m: Manager, net: multiset<Ack>, acks: map<Vdu, seq<Inst>>, failed: seq<Tok>) {
    && Conserved(m.todo, m.table, net, acks, failed, m.drv)
    && CompleteOk(m.drv, net, acks)
  }

  ghost predicate Inv(s: State) {
    && ValidTemplate(s.tpl)
    && OrchOk(s.tpl, s.orch)
    && TableOk(s.mgr)
    && LinkOk(s.tpl, s.orch.pc, s.orch.insts, s.orch.acks, s.sent, s.scaleMsgs, s.mgr.drv, s.mgr.nsConfig)
    && TokensOk(s.mgr, s.net, s.orch.acks, s.orch.failed)
  }

  /** The invariant from its parts, and back. */
  lemma Assemble(s: State)
    requires ValidTemplate(s.tpl) && OrchOk(s.tpl, s.orch) && TableOk(s.mgr)
    requires LinkOk(s.tpl, s.orch.pc, s.orch.insts, s.orch.acks, s.sent, s.scaleMsgs, s.mgr.drv, s.mgr.nsConfig)
    requires TokensOk(s.mgr, s.net, s.orch.acks, s.orch.failed)
    ensures Inv(s)
  {
  }

  lemma Parts(s: State)
    requires Inv(s)
    ensures ValidTemplate(s.tpl) && OrchOk(s.tpl, s.orch) && TableOk(s.mgr)
    ensures LinkOk(s.tpl, s.orch.pc, s.orch.insts, s.orch.acks, s.sent, s.scaleMsgs, s.mgr.drv, s.mgr.nsConfig)
    ensures TokensOk(s.mgr, s.net, s.orch.acks, s.orch.failed)
  {
  }

  /** The invariant does not look at the threads of other requests, nor at history. */
  lemma InvElsewhere(s: State, s': State)
    requires Inv(s) && s' == s.(others := s'.others, scales := s'.scales, refused := s'.refused, overlapped := s'.overlapped)
    ensures Inv(s')
  {
  }
}
