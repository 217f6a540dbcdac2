/** The deployment protocol as a step system: the orchestrator that launches VDUs wave by wave, the message channel,
    and the VNF manager with its worker threads and its acknowledging daemon. Any enabled action may happen next. */
module Protocol {
  import opened Lists
  import opened DependencyGraph

  /** The name of a launched server. */
  type Inst = string
  type ThreadId = nat

  /** `count` is the number of servers of the VDU, `driver` whether a management driver is configured. */
  datatype Spec = Spec(deps: seq<Vdu>, count: nat, driver: bool)

  /** `order` is the order in which the template's dictionary hands out its keys. */
  datatype Template = Template(specs: map<Vdu, Spec>, order: seq<Vdu>)

  function Deps(t: Template): Graph {
    map v | v in t.specs :: t.specs[v].deps
  }

  /** The manager knows a VDU only by its own name, so names must not repeat across VNFDs. */
  predicate SameName(u: Vdu, v: Vdu) {
    u.name == v.name
  }

  ghost predicate DistinctNames(t: Template) {
    forall u, v {:trigger SameName(u, v)} :: u in t.specs && v in t.specs && SameName(u, v) ==> u == v
  }

  ghost predicate ValidTemplate(t: Template) {
    NoDup(t.order) && ToSet(t.order) == t.specs.Keys && DistinctNames(t)
  }

  datatype Status = Complete | Error
  datatype Ack = Ack(vdu: Vdu, inst: Inst, status: Status)
  datatype Tok = Tok(vdu: Vdu, inst: Inst)

  /** One VDU of a configuration message. */
  datatype VduConf = VduConf(vdu: Vdu, insts: seq<Inst>, driver: bool)
  type Conf = seq<VduConf>

  // ---------- Orchestrator ----------

  /** Where the orchestrator thread is; a wave being launched is split into what is booted and what is not. */
  datatype Pc =
    | Launching(done: seq<Vdu>, todo: seq<Vdu>)
    | Waiting(wave: seq<Vdu>)
    | Deciding
    | Idle
    | Aborted
    | Scaling(vdu: Vdu)
    | ScaleWaiting(vdu: Vdu)

  datatype ServiceStatus = Pending | Active | InProgress | Failed

  /** The orchestrator's lists. `failed` (the server behind each entry of `errored`), `round`, `launchedIn` and `dropped`
      (the VDUs whose boot failed in a scale-out) are history: no step looks at them. */
  datatype Orch = Orch(
    pc: Pc, status: ServiceStatus,
    configured: seq<Vdu>, errored: seq<Vdu>, confGenerated: seq<Vdu>, deployed: seq<Vdu>,
    acks: map<Vdu, seq<Inst>>, insts: map<Vdu, seq<Inst>>,
    failed: seq<Tok>, round: nat, launchedIn: map<Vdu, nat>, dropped: set<Vdu>)

  function AcksOf(acks: map<Vdu, seq<Inst>>, v: Vdu): seq<Inst> {
    if v in acks then acks[v] else []
  }

  /** The handler of an acknowledgement from the manager. An unknown VDU raises after the list was extended. */
  function RecordAck(o: Orch, a: Ack): Orch {
    if a.status.Error? then
      o.(errored := o.errored + [a.vdu], status := Failed, failed := o.failed + [Tok(a.vdu, a.inst)])
    else
      var list := AcksOf(o.acks, a.vdu) + [a.inst];
      var o' := o.(acks := o.acks[a.vdu := list]);
      if a.vdu in o.insts && |o.insts[a.vdu]| <= |list| then o'.(configured := o.configured + [a.vdu]) else o'
  }

  /** The deployed VDUs no configuration was generated for yet. */
  function Ungenerated(deployed: seq<Vdu>, generated: seq<Vdu>): seq<Vdu> {
    if deployed == [] then []
    else (if deployed[0] in generated then [] else [deployed[0]]) + Ungenerated(deployed[1..], generated)
  }

  function ConfOf(t: Template, insts: map<Vdu, seq<Inst>>, vdus: seq<Vdu>): Conf {
    if vdus == [] then []
    else [VduConf(vdus[0],
                  if vdus[0] in insts then insts[vdus[0]] else [],
                  vdus[0] in t.specs && t.specs[vdus[0]].driver)]
         + ConfOf(t, insts, vdus[1..])
  }

  function NewConf(t: Template, o: Orch): Conf {
    ConfOf(t, o.insts, Ungenerated(o.deployed, o.confGenerated))
  }

  function LaunchVdu(o: Orch, v: Vdu, names: seq<Inst>): Orch {
    o.(insts := o.insts[v := names], deployed := o.deployed + [v], launchedIn := o.launchedIn[v := o.round])
  }

  predicate AnyIn(vs: seq<Vdu>, list: seq<Vdu>) {
    exists v :: v in vs && v in list
  }

  predicate AllIn(vs: seq<Vdu>, list: seq<Vdu>) {
    forall v :: v in vs ==> v in list
  }

  function StartRound(t: Template, o: Orch, round: nat): Orch {
    var wave := Ready(Deps(t), t.order, o.configured);
    o.(pc := Launching([], wave), round := round)
  }

  function Decision(t: Template, o: Orch): Orch {
    if |t.specs| == |o.configured| then o.(pc := Idle, status := Active) else StartRound(t, o, o.round + 1)
  }

  function BeginScale(o: Orch, v: Vdu, name: Inst): Orch
    requires v in o.insts
  {
    o.(pc := Scaling(v), status := InProgress,
       configured := RemoveFirst(o.configured, v),
       confGenerated := RemoveAll(o.confGenerated, v),
       deployed := RemoveFirst(o.deployed, v) + [v],
       insts := o.insts[v := o.insts[v] + [name]])
  }

  /** A scale-out whose boot fails: the VDU has been taken off the three lists, and `create_scale` ends the request. */
  function DropScaled(o: Orch, v: Vdu): Orch {
    o.(status := Active,
       configured := RemoveFirst(o.configured, v),
       confGenerated := RemoveAll(o.confGenerated, v),
       deployed := RemoveFirst(o.deployed, v),
       dropped := o.dropped + {v})
  }

  predicate HasDependents(t: Template, v: Vdu) {
    exists u :: u in t.specs && v in t.specs[u].deps
  }

  // ---------- VNF manager ----------

  /** What a driver call did. */
  datatype Outcome = Raised | Returned(text: string)

  predicate Contains(s: string, p: string) {
    if |s| < |p| then false else s[..|p|] == p || Contains(s[1..], p)
  }

  /** `_configure_service`: its `finally` returns the initial "ERROR" when the driver raises. */
  function ConfigureService(out: Outcome): string {
    match out case Raised => "ERROR" case Returned(text) => text
  }

  /** The daemon reads the status off the recorded result. */
  function StatusOf(result: string): Status {
    if Contains(result, "ERROR") then Error else Complete
  }

  datatype Result = NoResult | Result(text: string)

  /** An entry of the table of launched threads. */
  datatype Entry = Entry(tok: Tok, result: Result)

  /** What the manager keeps per VDU name. */
  datatype Drv = Drv(vdu: Vdu, insts: seq<Inst>, driver: bool, complete: seq<Inst>)

  /** `Scanning` holds the condition's lock; `Blocked` is inside `wait` with no notification pending. */
  datatype Daemon = NotStarted | Outside | Scanning(left: set<ThreadId>) | Blocked | Notified

  /** `todo` lists the instances a running handler has still to configure; `live` are the worker threads that have
      not yet recorded a result. */
  datatype Manager = Manager(
    started: bool, nsConfig: Conf, drv: map<string, Drv>, todo: seq<Tok>,
    table: map<ThreadId, Entry>, live: set<ThreadId>, nextId: ThreadId, daemon: Daemon)

  const NewManager := Manager(false, [], map[], [], map[], {}, 0, NotStarted)

  /** The entries of a message that `_extract_drivers` keeps: names not configured before; of entries that repeat a
      name inside the message the last one stays. */
  function Extracted(drv: map<string, Drv>, conf: Conf): Conf {
    if conf == [] then []
    else if conf[0].vdu.name in drv || (exists i :: 1 <= i < |conf| && conf[i].vdu.name == conf[0].vdu.name) then
      Extracted(drv, conf[1..])
    else [conf[0]] + Extracted(drv, conf[1..])
  }

  function AddDrivers(drv: map<string, Drv>, conf: Conf): map<string, Drv>
    decreases |conf|
  {
    if conf == [] then drv
    else AddDrivers(drv[conf[0].vdu.name := Drv(conf[0].vdu, conf[0].insts, conf[0].driver, [])], conf[1..])
  }

  function ToksOf(v: Vdu, insts: seq<Inst>): seq<Tok> {
    seq(|insts|, i requires 0 <= i < |insts| => Tok(v, insts[i]))
  }

  function ConfToks(conf: Conf): seq<Tok> {
    if conf == [] then [] else ToksOf(conf[0].vdu, conf[0].insts) + ConfToks(conf[1..])
  }

  /** `configure_vdus` up to the point where it starts configuring instances. */
  function Register(m: Manager, conf: Conf): Manager {
    var news := Extracted(m.drv, conf);
    m.(started := true, nsConfig := m.nsConfig + conf, drv := AddDrivers(m.drv, news), todo := m.todo + ConfToks(news))
  }

  predicate InConfig(nsConfig: Conf, v: Vdu) {
    exists i :: 0 <= i < |nsConfig| && nsConfig[i].vdu == v
  }

  /** The configuration stored for a VDU: the first matching entry is replaced. */
  function Replaced(nsConfig: Conf, c: VduConf): Conf {
    if nsConfig == [] then []
    else if nsConfig[0].vdu == c.vdu then [c] + nsConfig[1..]
    else [nsConfig[0]] + Replaced(nsConfig[1..], c)
  }

  function NotIn(insts: seq<Inst>, done: seq<Inst>): seq<Inst> {
    if insts == [] then []
    else (if insts[0] in done then [] else [insts[0]]) + NotIn(insts[1..], done)
  }

  /** The handler raises: the VDU is stored, but the driver table does not hold it under its VNFD. */
  predicate ScaleRaises(m: Manager, c: VduConf) {
    InConfig(m.nsConfig, c.vdu) && !(c.vdu.name in m.drv && m.drv[c.vdu.name].vdu.vnfd == c.vdu.vnfd)
  }

  /** `scale_vdu` for one VDU of the message: new instance list, then the instances not yet complete are configured. */
  function ScaleOne(m: Manager, c: VduConf): Manager {
    if !InConfig(m.nsConfig, c.vdu) then m
    else if ScaleRaises(m, c) then m.(nsConfig := Replaced(m.nsConfig, c))
    else
      var d := m.drv[c.vdu.name].(insts := c.insts);
      m.(nsConfig := Replaced(m.nsConfig, c), drv := m.drv[c.vdu.name := d],
         todo := m.todo + ToksOf(c.vdu, NotIn(c.insts, d.complete)))
  }

  function ScaleVdus(m: Manager, conf: Conf): Manager
    decreases |conf|
  {
    if conf == [] then m
    else if ScaleRaises(m, conf[0]) then ScaleOne(m, conf[0])
    else ScaleVdus(ScaleOne(m, conf[0]), conf[1..])
  }

  function MarkComplete(drv: map<string, Drv>, name: string, i: Inst): map<string, Drv> {
    if name in drv then drv[name := drv[name].(complete := drv[name].complete + [i])] else drv
  }

  /** A manager step together with the acknowledgements it sends. */
  datatype Sends = Sends(m: Manager, acks: seq<Ack>)

  /** `_configure_vdu` on one instance: no driver, a worker thread, or a management address that is missing. */
  function Dispatch(m: Manager, mgmtIp: bool): Sends
    requires m.todo != []
  {
    var t := m.todo[0];
    var m' := m.(todo := m.todo[1..]);
    if t.vdu.name !in m.drv then Sends(m', [])
    else if !m.drv[t.vdu.name].driver then
      Sends(m'.(drv := MarkComplete(m.drv, t.vdu.name, t.inst)), [Ack(t.vdu, t.inst, Complete)])
    else if mgmtIp then
      Sends(m'.(table := m.table[m.nextId := Entry(t, NoResult)], live := m.live + {m.nextId}, nextId := m.nextId + 1), [])
    else Sends(m', [Ack(t.vdu, t.inst, Error)])
  }

  /** Starting a worker takes the condition's lock; the other two branches do not. */
  predicate StartsWorker(m: Manager, mgmtIp: bool)
    requires m.todo != []
  {
    m.todo[0].vdu.name in m.drv && m.drv[m.todo[0].vdu.name].driver && mgmtIp
  }

  /** A worker records its result under the condition's lock and notifies the daemon. */
  function WorkerRecords(m: Manager, id: ThreadId, out: Outcome): Manager {
    var m' := m.(live := m.live - {id}, daemon := if m.daemon.Blocked? then Notified else m.daemon);
    if id in m.table then
      m'.(table := m.table[id := m.table[id].(result := Result(ConfigureService(out)))])
    else m'
  }

  /** The daemon looks at one table entry: a recorded result is acknowledged and the entry deleted. */
  function ScanEntry(m: Manager, id: ThreadId): Sends
    requires m.daemon.Scanning?
  {
    var m' := m.(daemon := Scanning(m.daemon.left - {id}));
    if id in m.table && m.table[id].result.Result? then
      var t := m.table[id].tok;
      var status := StatusOf(m.table[id].result.text);
      Sends(m'.(table := m.table - {id},
                drv := if status.Complete? then MarkComplete(m.drv, t.vdu.name, t.inst) else m.drv),
            [Ack(t.vdu, t.inst, status)])
    else Sends(m', [])
  }

  // ---------- The whole system ----------

  /** `sent` are the configuration messages, which the channel may deliver any number of times; `scaleMsgs` and `net`
      (acknowledgements in flight) are delivered once. `others` are the threads of scale requests that were admitted
      while the orchestrator's thread was not idle. `scales`, `refused` and `overlapped` are history: how many scale-outs
      were begun and how many requests refused, and whether a request ever ran beside the orchestrator's thread. */
  datatype State = State(
    tpl: Template, orch: Orch, sent: seq<Conf>, scaleMsgs: seq<Conf>, net: multiset<Ack>, mgr: Manager,
    others: seq<Pc>, scales: nat, refused: nat, overlapped: bool)

  function InitOrch(t: Template): Orch {
    StartRound(t, Orch(Deciding, Pending, [], [], [], [], map[], map[], [], 0, map[], {}), 0)
  }

  function Init(t: Template): State {
    State(t, InitOrch(t), [], [], multiset{}, NewManager, [], 0, 0, false)
  }

  datatype Action =
    | Launch(names: seq<Inst>)
    | BootFails
    | SendConf
    | Acknowledged
    | Raise
    | Decide
    | Scale(v: Vdu, name: Inst)
    | SendScale
    | ScaleDone
    | ScaleRaise
    | ReportScale
    | RefuseScale
    | ScaleBootFails(v: Vdu)
    | OverlapScale(v: Vdu, name: Inst)
    | OverlapBootFails(v: Vdu)
    | OverlapSend(k: nat)
    | OverlapEnd(k: nat)
    | StartManager
    | StartDaemon
    | HandleConf(k: nat)
    | HandleScale
    | DispatchNext(mgmtIp: bool)
    | Finish(id: ThreadId, out: Outcome)
    | Acquire
    | Scan(entry: ThreadId)
    | Wait
    | Wake
    | Deliver(ack: Ack)

  predicate Running(m: Manager) {
    m.started && !m.daemon.NotStarted?
  }

  /** `scale_out` of a VDU can begin: `list.remove` finds it. */
  predicate CanScale(t: Template, o: Orch, v: Vdu) {
    v in o.configured && v in o.insts && !HasDependents(t, v)
  }

  predicate Enabled(s: State, a: Action) {
    var o, m := s.orch, s.mgr;
    match a
    case Launch(names) => o.pc.Launching? && o.pc.todo != [] && o.pc.todo[0] in s.tpl.specs
                          && NoDup(names) && |names| == s.tpl.specs[o.pc.todo[0]].count
    case BootFails => o.pc.Launching? && o.pc.todo != []
    case SendConf => o.pc.Launching? && o.pc.todo == []
    case Acknowledged => o.pc.Waiting? && !AnyIn(o.pc.wave, o.errored) && AllIn(o.pc.wave, o.configured)
    case Raise => o.pc.Waiting? && AnyIn(o.pc.wave, o.errored)
    case Decide => o.pc.Deciding?
    case Scale(v, name) => o.pc.Idle? && CanScale(s.tpl, o, v) && name !in o.insts[v]
    case ScaleBootFails(v) => o.pc.Idle? && CanScale(s.tpl, o, v)
    case OverlapScale(v, name) => o.status.Active? && !o.pc.Idle? && CanScale(s.tpl, o, v) && name !in o.insts[v]
    case OverlapBootFails(v) => o.status.Active? && !o.pc.Idle? && CanScale(s.tpl, o, v)
    case OverlapSend(k) => k < |s.others| && s.others[k].Scaling?
    case OverlapEnd(k) => k < |s.others| && s.others[k].ScaleWaiting?
                          && (s.others[k].vdu in o.errored || s.others[k].vdu in o.configured)
    case SendScale => o.pc.Scaling?
    case ScaleDone => o.pc.ScaleWaiting? && o.pc.vdu !in o.errored && o.pc.vdu in o.configured
    case ScaleRaise => o.pc.ScaleWaiting? && o.pc.vdu in o.errored
    case ReportScale => o.pc.Idle? && !o.status.Active?
    case RefuseScale => !o.status.Active?
    case StartManager => !m.started && s.sent != []
    case StartDaemon => m.started && m.daemon.NotStarted? && m.todo == []
    case HandleConf(k) => Running(m) && k < |s.sent|
    case HandleScale => Running(m) && s.scaleMsgs != []
    case DispatchNext(mgmtIp) => m.todo != [] && (m.daemon.Scanning? ==> !StartsWorker(m, mgmtIp))
    case Finish(id, _) => id in m.live && !m.daemon.Scanning?
    case Acquire => m.daemon.Outside?
    case Scan(id) => m.daemon.Scanning? && id in m.daemon.left
    case Wait => m.daemon.Scanning? && m.daemon.left == {}
    case Wake => m.daemon.Notified?
    case Deliver(ack) => ack in s.net
  }

  function WithSends(s: State, r: Sends): State {
    s.(mgr := r.m, net := s.net + multiset(r.acks))
  }

  function Next(s: State, a: Action): State
    requires Enabled(s, a)
  {
    var o, m := s.orch, s.mgr;
    match a
    case Launch(names) => s.(orch := LaunchVdu(o, o.pc.todo[0], names).(pc := Launching(o.pc.done + [o.pc.todo[0]], o.pc.todo[1..])))
    case BootFails => s.(orch := o.(pc := Aborted, status := Failed))
    case SendConf =>
      s.(sent := s.sent + [NewConf(s.tpl, o)],
         orch := o.(pc := Waiting(o.pc.done),
                    confGenerated := o.confGenerated + Ungenerated(o.deployed, o.confGenerated)
                                     + if o.round > 0 then o.pc.done else []))
    case Acknowledged => s.(orch := o.(pc := Deciding))
    case Raise => s.(orch := o.(pc := Aborted))
    case Decide => s.(orch := Decision(s.tpl, o))
    case Scale(v, name) => s.(orch := BeginScale(o, v, name), scales := s.scales + 1)
    case SendScale =>
      s.(scaleMsgs := s.scaleMsgs + [NewConf(s.tpl, o)],
         orch := o.(pc := ScaleWaiting(o.pc.vdu), confGenerated := o.confGenerated + Ungenerated(o.deployed, o.confGenerated)))
    case ScaleDone => s.(orch := o.(pc := Idle))
    case ScaleRaise => s.(orch := o.(pc := Idle, status := Active))
    case ReportScale => s.(orch := o.(status := Active))
    case RefuseScale => s.(orch := o.(status := Active), refused := s.refused + 1)
    case ScaleBootFails(v) => s.(orch := DropScaled(o, v), scales := s.scales + 1)
    case OverlapScale(v, name) =>
      s.(orch := BeginScale(o, v, name).(pc := o.pc), others := s.others + [Scaling(v)],
         scales := s.scales + 1, overlapped := true)
    case OverlapBootFails(v) => s.(orch := DropScaled(o, v), scales := s.scales + 1, overlapped := true)
    case OverlapSend(k) =>
      s.(scaleMsgs := s.scaleMsgs + [NewConf(s.tpl, o)],
         orch := o.(confGenerated := o.confGenerated + Ungenerated(o.deployed, o.confGenerated)),
         others := s.others[k := ScaleWaiting(s.others[k].vdu)], overlapped := true)
    case OverlapEnd(k) =>
      s.(orch := o.(status := Active), others := s.others[..k] + s.others[k + 1..], overlapped := true)
    case StartManager => s.(mgr := Register(m, s.sent[0]))
    case StartDaemon => s.(mgr := m.(daemon := Outside))
    case HandleConf(k) => s.(mgr := Register(m, s.sent[k]))
    case HandleScale => s.(mgr := ScaleVdus(m, s.scaleMsgs[0]), scaleMsgs := s.scaleMsgs[1..])
    case DispatchNext(mgmtIp) => WithSends(s, Dispatch(m, mgmtIp))
    case Finish(id, out) => s.(mgr := WorkerRecords(m, id, out))
    case Acquire => s.(mgr := m.(daemon := Scanning(m.table.Keys)))
    case Scan(id) => WithSends(s, ScanEntry(m, id))
    case Wait => s.(mgr := m.(daemon := Blocked))
    case Wake => s.(mgr := m.(daemon := Outside))
    case Deliver(ack) => s.(net := s.net - multiset{ack}, orch := RecordAck(o, ack))
  }

  /** A run is a list of actions, each enabled where it happens. */
  predicate IsRun(s: State, actions: seq<Action>)
    decreases |actions|
  {
    if actions == [] then true else Enabled(s, actions[0]) && IsRun(Next(s, actions[0]), actions[1..])
  }

  function After(s: State, actions: seq<Action>): State
    requires IsRun(s, actions)
    decreases |actions|
  {
    if actions == [] then s else After(Next(s, actions[0]), actions[1..])
  }

  ghost predicate Reachable(s: State) {
    exists actions :: ValidTemplate(s.tpl) && IsRun(Init(s.tpl), actions) && After(Init(s.tpl), actions) == s
  }

  /** Reachable without a scale request ever running beside the orchestrator's own thread. */
  ghost predicate Orderly(s: State) {
    Reachable(s) && !s.overlapped
  }
}
