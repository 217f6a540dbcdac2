/** The manager's actions, and the delivery of acknowledgements, keep the invariant. */
module ProtocolManagerSteps {
  import opened Lists
  import opened DependencyGraph
  import opened Protocol
  import opened ProtocolInvariant
  import opened ProtocolPreservation

  // ---------- The table of launched threads ----------

  lemma InTableInsert(table: map<ThreadId, Entry>, id: ThreadId, e: Entry)
    requires id !in table
    ensures forall v, i :: InTable(table[id := e], v, i) <==> InTable(table, v, i) || Tok(v, i) == e.tok
  {
    var table' := table[id := e];
    forall v, i ensures InTable(table', v, i) <==> InTable(table, v, i) || Tok(v, i) == e.tok {
      if InTable(table, v, i) {
        var k :| k in table && table[k].tok == Tok(v, i);
        assert k in table' && table'[k].tok == Tok(v, i);
      }
      if Tok(v, i) == e.tok {
        assert id in table' && table'[id].tok == Tok(v, i);
      }
    }
  }

  lemma InTableRemove(table: map<ThreadId, Entry>, id: ThreadId)
    requires id in table
    requires forall a, b :: a in table && b in table && table[a].tok == table[b].tok ==> a == b
    ensures forall v, i :: InTable(table - {id}, v, i) <==> InTable(table, v, i) && Tok(v, i) != table[id].tok
    ensures InTable(table, table[id].tok.vdu, table[id].tok.inst)
  {
    var table' := table - {id};
    forall v, i ensures InTable(table', v, i) <==> InTable(table, v, i) && Tok(v, i) != table[id].tok {
      if InTable(table, v, i) && Tok(v, i) != table[id].tok {
        var k :| k in table && table[k].tok == Tok(v, i);
        assert k in table' && table'[k].tok == Tok(v, i);
      }
    }
    var t := table[id].tok;
    assert t == Tok(t.vdu, t.inst);
  }

  lemma InTableRecord(table: map<ThreadId, Entry>, id: ThreadId, r: Result)
    requires id in table
    ensures forall v, i :: InTable(table[id := table[id].(result := r)], v, i) <==> InTable(table, v, i)
  {
    var table' := table[id := table[id].(result := r)];
    forall v, i ensures InTable(table', v, i) <==> InTable(table, v, i) {
      if InTable(table, v, i) {
        var k :| k in table && table[k].tok == Tok(v, i);
        assert k in table' && table'[k].tok == Tok(v, i);
      }
    }
  }

  // ---------- Tokens move from one place to the next ----------

  lemma HeadCount(t: Tok, rest: seq<Tok>)
    ensures forall x :: multiset([t] + rest)[x] == multiset(rest)[x] + B(x == t)
  {
    assert multiset([t] + rest) == multiset{t} + multiset(rest);
  }

  lemma NetCount(net: multiset<Ack>, a: Ack)
    ensures forall x :: (net + multiset{a})[x] == net[x] + B(x == a)
  {
  }

  /** From a handler's list to an acknowledgement. */
  lemma TodoToNet(t: Tok, rest: seq<Tok>, table: map<ThreadId, Entry>, net: multiset<Ack>,
                  acks: map<Vdu, seq<Inst>>, failed: seq<Tok>, drv: map<string, Drv>, status: Status)
    requires Conserved([t] + rest, table, net, acks, failed, drv)
    ensures Conserved(rest, table, net + multiset{Ack(t.vdu, t.inst, status)}, acks, failed, drv)
    ensures Known(drv, t.vdu, t.inst)
  {
    var net' := net + multiset{Ack(t.vdu, t.inst, status)};
    HeadCount(t, rest);
    NetCount(net, Ack(t.vdu, t.inst, status));
    forall v, i ensures Weight(rest, table, net', acks, failed, v, i) == B(Known(drv, v, i)) {
      assert Weight([t] + rest, table, net, acks, failed, v, i) == B(Known(drv, v, i));
      assert Tok(v, i) == t <==> v == t.vdu && i == t.inst;
    }
    assert t == Tok(t.vdu, t.inst);
    assert Weight([t] + rest, table, net, acks, failed, t.vdu, t.inst) == B(Known(drv, t.vdu, t.inst));
  }

  /** From a handler's list to a worker thread. */
  lemma TodoToTable(t: Tok, rest: seq<Tok>, table: map<ThreadId, Entry>, net: multiset<Ack>,
                    acks: map<Vdu, seq<Inst>>, failed: seq<Tok>, drv: map<string, Drv>, id: ThreadId)
    requires Conserved([t] + rest, table, net, acks, failed, drv) && id !in table
    ensures Conserved(rest, table[id := Entry(t, NoResult)], net, acks, failed, drv)
    ensures !InTable(table, t.vdu, t.inst)
  {
    var table' := table[id := Entry(t, NoResult)];
    HeadCount(t, rest);
    InTableInsert(table, id, Entry(t, NoResult));
    assert t == Tok(t.vdu, t.inst);
    assert Weight([t] + rest, table, net, acks, failed, t.vdu, t.inst) == B(Known(drv, t.vdu, t.inst));
    forall v, i ensures Weight(rest, table', net, acks, failed, v, i) == B(Known(drv, v, i)) {
      assert Weight([t] + rest, table, net, acks, failed, v, i) == B(Known(drv, v, i));
    }
  }

  /** From the table to an acknowledgement. */
  lemma TableToNet(todo: seq<Tok>, table: map<ThreadId, Entry>, net: multiset<Ack>,
                   acks: map<Vdu, seq<Inst>>, failed: seq<Tok>, drv: map<string, Drv>, id: ThreadId, status: Status)
    requires Conserved(todo, table, net, acks, failed, drv) && id in table
    requires forall a, b :: a in table && b in table && table[a].tok == table[b].tok ==> a == b
    ensures var t := table[id].tok;
            && Conserved(todo, table - {id}, net + multiset{Ack(t.vdu, t.inst, status)}, acks, failed, drv)
            && Known(drv, t.vdu, t.inst)
  {
    var t := table[id].tok;
    var net' := net + multiset{Ack(t.vdu, t.inst, status)};
    InTableRemove(table, id);
    NetCount(net, Ack(t.vdu, t.inst, status));
    forall v, i ensures Weight(todo, table - {id}, net', acks, failed, v, i) == B(Known(drv, v, i)) {
      assert Weight(todo, table, net, acks, failed, v, i) == B(Known(drv, v, i));
      assert Tok(v, i) == t <==> v == t.vdu && i == t.inst;
    }
    assert Weight(todo, table, net, acks, failed, t.vdu, t.inst) == B(Known(drv, t.vdu, t.inst));
  }

  /** Conservation looks at the manager's knowledge only through `Known`. */
  lemma SameKnown(todo: seq<Tok>, table: map<ThreadId, Entry>, net: multiset<Ack>, acks: map<Vdu, seq<Inst>>,
                  failed: seq<Tok>, drv: map<string, Drv>, drv': map<string, Drv>)
    requires Conserved(todo, table, net, acks, failed, drv) && forall v, i :: Known(drv', v, i) == Known(drv, v, i)
    ensures Conserved(todo, table, net, acks, failed, drv')
  {
  }

  lemma KnownComplete(drv: map<string, Drv>, name: string, inst: Inst)
    ensures forall v, i :: Known(MarkComplete(drv, name, inst), v, i) == Known(drv, v, i)
  {
  }

  /** Handing a server's token to the channel as an acknowledgement. */
  lemma CompleteSent(drv: map<string, Drv>, net: multiset<Ack>, acks: map<Vdu, seq<Inst>>, t: Tok)
    requires CompleteOk(drv, net, acks) && Known(drv, t.vdu, t.inst)
    ensures CompleteOk(MarkComplete(drv, t.vdu.name, t.inst), net + multiset{Ack(t.vdu, t.inst, Complete)}, acks)
  {
  }

  lemma ErrorSent(drv: map<string, Drv>, net: multiset<Ack>, acks: map<Vdu, seq<Inst>>, t: Tok)
    requires CompleteOk(drv, net, acks)
    ensures CompleteOk(drv, net + multiset{Ack(t.vdu, t.inst, Error)}, acks)
  {
  }

  lemma TokensDispatch(m: Manager, net: multiset<Ack>, acks: map<Vdu, seq<Inst>>, failed: seq<Tok>,
                       mgmtIp: bool, t: Tok, rest: seq<Tok>)
    requires TokensOk(m, net, acks, failed) && m.nextId !in m.table && m.todo == [t] + rest
    ensures var r := Dispatch(m, mgmtIp); TokensOk(r.m, net + multiset(r.acks), acks, failed)
  {
    var r := Dispatch(m, mgmtIp);
    assert m.todo[1..] == rest;
    TodoToNet(t, rest, m.table, net, acks, failed, m.drv, Complete);
    if !m.drv[t.vdu.name].driver {
      var drv' := MarkComplete(m.drv, t.vdu.name, t.inst);
      KnownComplete(m.drv, t.vdu.name, t.inst);
      SameKnown(rest, m.table, net + multiset{Ack(t.vdu, t.inst, Complete)}, acks, failed, m.drv, drv');
      CompleteSent(m.drv, net, acks, t);
      assert multiset(r.acks) == multiset{Ack(t.vdu, t.inst, Complete)};
    } else if mgmtIp {
      TodoToTable(t, rest, m.table, net, acks, failed, m.drv, m.nextId);
      assert net + multiset(r.acks) == net;
    } else {
      TodoToNet(t, rest, m.table, net, acks, failed, m.drv, Error);
      ErrorSent(m.drv, net, acks, t);
      assert multiset(r.acks) == multiset{Ack(t.vdu, t.inst, Error)};
    }
  }

  lemma TokensScan(m: Manager, net: multiset<Ack>, acks: map<Vdu, seq<Inst>>, failed: seq<Tok>, id: ThreadId)
    requires TokensOk(m, net, acks, failed) && TableOk(m) && m.daemon.Scanning?
    ensures var r := ScanEntry(m, id); TokensOk(r.m, net + multiset(r.acks), acks, failed)
  {
    var r := ScanEntry(m, id);
    if id in m.table && m.table[id].result.Result? {
      var t, status := m.table[id].tok, StatusOf(m.table[id].result.text);
      TableToNet(m.todo, m.table, net, acks, failed, m.drv, id, status);
      assert multiset(r.acks) == multiset{Ack(t.vdu, t.inst, status)};
      if status.Complete? {
        KnownComplete(m.drv, t.vdu.name, t.inst);
        SameKnown(m.todo, r.m.table, net + multiset(r.acks), acks, failed, m.drv, r.m.drv);
        CompleteSent(m.drv, net, acks, t);
      } else {
        ErrorSent(m.drv, net, acks, t);
      }
    } else {
      assert net + multiset(r.acks) == net;
    }
  }

  lemma TokensRecord(m: Manager, net: multiset<Ack>, acks: map<Vdu, seq<Inst>>, failed: seq<Tok>, id: ThreadId, out: Outcome)
    requires TokensOk(m, net, acks, failed)
    ensures TokensOk(WorkerRecords(m, id, out), net, acks, failed)
  {
    if id in m.table {
      InTableRecord(m.table, id, Result(ConfigureService(out)));
      var m' := WorkerRecords(m, id, out);
      forall v, i ensures Weight(m'.todo, m'.table, net, acks, failed, v, i) == B(Known(m'.drv, v, i)) {
        assert Weight(m.todo, m.table, net, acks, failed, v, i) == B(Known(m.drv, v, i));
      }
    }
  }

  // ---------- The manager's own table stays consistent ----------

  lemma TableDispatch(m: Manager, mgmtIp: bool, net: multiset<Ack>, acks: map<Vdu, seq<Inst>>, failed: seq<Tok>, t: Tok, rest: seq<Tok>)
    requires TableOk(m) && TokensOk(m, net, acks, failed) && m.todo == [t] + rest
    requires m.daemon.Scanning? ==> !StartsWorker(m, mgmtIp)
    ensures TableOk(Dispatch(m, mgmtIp).m)
  {
    TodoToTable(t, rest, m.table, net, acks, failed, m.drv, m.nextId);
    assert t == Tok(t.vdu, t.inst);
    assert forall id :: id in m.table ==> m.table[id].tok != t;
  }

  lemma TableRecord(m: Manager, id: ThreadId, out: Outcome)
    requires TableOk(m) && id in m.live && !m.daemon.Scanning?
    ensures TableOk(WorkerRecords(m, id, out))
  {
  }

  lemma TableScan(m: Manager, id: ThreadId)
    requires TableOk(m) && m.daemon.Scanning? && id in m.daemon.left
    ensures TableOk(ScanEntry(m, id).m)
  {
  }

  // ---------- What the orchestrator and the manager agree on ----------

  /** COMPLETE lists do not matter for the agreement. */
  lemma LinkComplete(t: Template, pc: Pc, insts: map<Vdu, seq<Inst>>, acks: map<Vdu, seq<Inst>>, sent: seq<Conf>,
                     scaleMsgs: seq<Conf>, drv: map<string, Drv>, ns: Conf, drv': map<string, Drv>)
    requires LinkOk(t, pc, insts, acks, sent, scaleMsgs, drv, ns)
    requires drv'.Keys == drv.Keys
    requires forall n :: n in drv ==> drv'[n].vdu == drv[n].vdu && drv'[n].insts == drv[n].insts && drv'[n].driver == drv[n].driver
    ensures LinkOk(t, pc, insts, acks, sent, scaleMsgs, drv', ns)
  {
    forall conf, c | conf in sent && c in conf ensures EntryOk(t, insts, drv', c) {
      assert EntryOk(t, insts, drv, c);
    }
  }

  lemma DispatchKeeps(m: Manager, mgmtIp: bool)
    requires m.todo != []
    ensures var m' := Dispatch(m, mgmtIp).m;
            && m'.drv.Keys == m.drv.Keys && m'.nsConfig == m.nsConfig
            && (forall n :: n in m.drv ==> m'.drv[n].vdu == m.drv[n].vdu && m'.drv[n].insts == m.drv[n].insts
                                           && m'.drv[n].driver == m.drv[n].driver)
  {
  }

  lemma ScanKeeps(m: Manager, id: ThreadId)
    requires m.daemon.Scanning?
    ensures var m' := ScanEntry(m, id).m;
            && m'.drv.Keys == m.drv.Keys && m'.nsConfig == m.nsConfig
            && (forall n :: n in m.drv ==> m'.drv[n].vdu == m.drv[n].vdu && m'.drv[n].insts == m.drv[n].insts
                                           && m'.drv[n].driver == m.drv[n].driver)
  {
  }

  lemma DispatchOk(s: State, mgmtIp: bool, t: Tok, rest: seq<Tok>)
    requires Inv(s) && s.mgr.todo == [t] + rest
    requires s.mgr.daemon.Scanning? ==> !StartsWorker(s.mgr, mgmtIp)
    ensures var r := Dispatch(s.mgr, mgmtIp); Inv(s.(mgr := r.m, net := s.net + multiset(r.acks)))
  {
    var tpl, o, m := s.tpl, s.orch, s.mgr;
    var r := Dispatch(m, mgmtIp);
    Parts(s);
    assert m.nextId !in m.table;
    DispatchKeeps(m, mgmtIp);
    hide *;
    TokensDispatch(m, s.net, o.acks, o.failed, mgmtIp, t, rest);
    TableDispatch(m, mgmtIp, s.net, o.acks, o.failed, t, rest);
    LinkComplete(tpl, o.pc, o.insts, o.acks, s.sent, s.scaleMsgs, m.drv, m.nsConfig, r.m.drv);
    Assemble(s.(mgr := r.m, net := s.net + multiset(r.acks)));
  }

  lemma ScanOk(s: State, id: ThreadId)
    requires Inv(s) && s.mgr.daemon.Scanning? && id in s.mgr.daemon.left
    ensures var r := ScanEntry(s.mgr, id); Inv(s.(mgr := r.m, net := s.net + multiset(r.acks)))
  {
    var tpl, o, m := s.tpl, s.orch, s.mgr;
    var r := ScanEntry(m, id);
    Parts(s);
    ScanKeeps(m, id);
    hide *;
    TokensScan(m, s.net, o.acks, o.failed, id);
    TableScan(m, id);
    LinkComplete(tpl, o.pc, o.insts, o.acks, s.sent, s.scaleMsgs, m.drv, m.nsConfig, r.m.drv);
    Assemble(s.(mgr := r.m, net := s.net + multiset(r.acks)));
  }

  lemma FinishOk(s: State, id: ThreadId, out: Outcome)
    requires Inv(s) && id in s.mgr.live && !s.mgr.daemon.Scanning?
    ensures Inv(s.(mgr := WorkerRecords(s.mgr, id, out)))
  {
    var m' := WorkerRecords(s.mgr, id, out);
    Parts(s);
    assert m'.drv == s.mgr.drv && m'.nsConfig == s.mgr.nsConfig;
    hide *;
    TokensRecord(s.mgr, s.net, s.orch.acks, s.orch.failed, id, out);
    TableRecord(s.mgr, id, out);
    Assemble(s.(mgr := m'));
  }

  /** The daemon moves between its own states. */
  lemma DaemonMoves(s: State, daemon: Daemon)
    requires Inv(s) && s.mgr.started && DaemonOk(s.mgr.table, daemon)
    ensures Inv(s.(mgr := s.mgr.(daemon := daemon)))
  {
    var m' := s.mgr.(daemon := daemon);
    Parts(s);
    assert TableOk(m');
    assert TokensOk(m', s.net, s.orch.acks, s.orch.failed);
    hide *;
    Assemble(s.(mgr := m'));
  }

  // ---------- Configuration messages ----------

  predicate DistinctVduNames(conf: Conf) {
    forall i, j | 0 <= i < j < |conf| :: conf[i].vdu.name != conf[j].vdu.name
  }

  lemma {:induction false} ExtractedMembers(drv: map<string, Drv>, conf: Conf)
    requires DistinctVduNames(conf)
    ensures forall c :: c in Extracted(drv, conf) <==> c in conf && c.vdu.name !in drv
    ensures DistinctVduNames(Extracted(drv, conf))
  {
    if conf != [] {
      assert conf == [conf[0]] + conf[1..];
      ExtractedMembers(drv, conf[1..]);
      assert forall c :: c in conf[1..] ==> c.vdu.name != conf[0].vdu.name;
    }
  }

  lemma {:induction false} InConfVdus(conf: Conf, c: VduConf)
    requires c in conf
    ensures c.vdu in ConfVdus(conf)
  {
    if c != conf[0] {
      assert conf == [conf[0]] + conf[1..];
      InConfVdus(conf[1..], c);
    }
  }

  lemma {:induction false} InSentVdus(sent: seq<Conf>, conf: Conf, c: VduConf)
    requires conf in sent && c in conf
    ensures c.vdu in SentVdus(sent)
  {
    if conf == sent[0] {
      InConfVdus(conf, c);
    } else {
      assert sent == [sent[0]] + sent[1..];
      InSentVdus(sent[1..], conf, c);
    }
  }

  lemma ToksCount(v: Vdu, insts: seq<Inst>)
    requires NoDup(insts)
    ensures forall u, i :: multiset(ToksOf(v, insts))[Tok(u, i)] == B(u == v && i in insts)
  {
    var toks := ToksOf(v, insts);
    assert NoDup(toks);
    forall u, i ensures multiset(toks)[Tok(u, i)] == B(u == v && i in insts) {
      CountNoDup(toks, Tok(u, i));
      if u == v && i in insts {
        var k :| 0 <= k < |insts| && insts[k] == i;
        assert toks[k] == Tok(u, i);
      }
    }
  }

  /** Telling the manager about servers puts exactly their tokens on its list. */
  lemma RegisterCount(c: VduConf, drv: map<string, Drv>, todo: seq<Tok>, table: map<ThreadId, Entry>,
                      net: multiset<Ack>, acks: map<Vdu, seq<Inst>>, failed: seq<Tok>)
    requires Conserved(todo, table, net, acks, failed, drv) && CompleteOk(drv, net, acks)
    requires c.vdu.name !in drv && NoDup(c.insts)
    ensures var drv' := drv[c.vdu.name := Drv(c.vdu, c.insts, c.driver, [])];
            && Conserved(todo + ToksOf(c.vdu, c.insts), table, net, acks, failed, drv')
            && CompleteOk(drv', net, acks)
  {
    var drv' := drv[c.vdu.name := Drv(c.vdu, c.insts, c.driver, [])];
    var todo' := todo + ToksOf(c.vdu, c.insts);
    ToksCount(c.vdu, c.insts);
    forall v, i ensures Weight(todo', table, net, acks, failed, v, i) == B(Known(drv', v, i)) {
      assert Weight(todo, table, net, acks, failed, v, i) == B(Known(drv, v, i));
      assert multiset(todo')[Tok(v, i)] == multiset(todo)[Tok(v, i)] + multiset(ToksOf(c.vdu, c.insts))[Tok(v, i)];
    }
    forall i ensures net[Ack(c.vdu, i, Complete)] == 0 && i !in AcksOf(acks, c.vdu) {
      assert Weight(todo, table, net, acks, failed, c.vdu, i) == B(Known(drv, c.vdu, i));
      assert i in AcksOf(acks, c.vdu) <==> multiset(AcksOf(acks, c.vdu))[i] > 0;
    }
  }

  lemma {:induction false} RegisterAll(news: Conf, drv: map<string, Drv>, todo: seq<Tok>, table: map<ThreadId, Entry>,
                                       net: multiset<Ack>, acks: map<Vdu, seq<Inst>>, failed: seq<Tok>)
    requires Conserved(todo, table, net, acks, failed, drv) && CompleteOk(drv, net, acks)
    requires DistinctVduNames(news) && forall c :: c in news ==> c.vdu.name !in drv && NoDup(c.insts)
    ensures Conserved(todo + ConfToks(news), table, net, acks, failed, AddDrivers(drv, news))
    ensures CompleteOk(AddDrivers(drv, news), net, acks)
    decreases |news|
  {
    if news == [] {
      assert todo + [] == todo;
    } else {
      var c := news[0];
      RegisterCount(c, drv, todo, table, net, acks, failed);
      var toks := ToksOf(c.vdu, c.insts);
      RegisterAll(news[1..], drv[c.vdu.name := Drv(c.vdu, c.insts, c.driver, [])], todo + toks, table, net, acks, failed);
      assert todo + toks + ConfToks(news[1..]) == todo + ConfToks(news);
    }
  }

  lemma {:induction false} AddDriversMembers(drv: map<string, Drv>, news: Conf)
    requires DistinctVduNames(news)
    ensures forall n :: n in AddDrivers(drv, news) ==> n in drv || exists c :: c in news && c.vdu.name == n
    ensures forall n :: n in drv ==> n in AddDrivers(drv, news)
    ensures forall n :: n in drv && (forall c :: c in news ==> c.vdu.name != n) ==> AddDrivers(drv, news)[n] == drv[n]
    ensures forall c :: c in news ==> c.vdu.name in AddDrivers(drv, news)
                                      && AddDrivers(drv, news)[c.vdu.name] == Drv(c.vdu, c.insts, c.driver, [])
    decreases |news|
  {
    if news != [] {
      assert news == [news[0]] + news[1..];
      AddDriversMembers(drv[news[0].vdu.name := Drv(news[0].vdu, news[0].insts, news[0].driver, [])], news[1..]);
    }
  }

  /** Under distinct template names the VDUs of a message also have distinct names. */
  lemma NamesDistinct(t: Template, insts: map<Vdu, seq<Inst>>, drv: map<string, Drv>, conf: Conf)
    requires DistinctNames(t) && ConfOk(t, insts, drv, conf)
    ensures DistinctVduNames(conf)
  {
    forall i, j | 0 <= i < j < |conf| ensures conf[i].vdu.name != conf[j].vdu.name {
      assert EntryOk(t, insts, drv, conf[i]) && EntryOk(t, insts, drv, conf[j]);
      assert SameName(conf[i].vdu, conf[j].vdu) <==> conf[i].vdu.name == conf[j].vdu.name;
    }
  }

  lemma InConfigGrows(ns: Conf, conf: Conf)
    ensures forall v :: InConfig(ns, v) ==> InConfig(ns + conf, v)
    ensures forall c :: c in conf ==> InConfig(ns + conf, c.vdu)
  {
    forall v | InConfig(ns, v) ensures InConfig(ns + conf, v) {
      var i :| 0 <= i < |ns| && ns[i].vdu == v;
      assert (ns + conf)[i].vdu == v;
    }
    forall c | c in conf ensures InConfig(ns + conf, c.vdu) {
      var i :| 0 <= i < |conf| && conf[i] == c;
      assert (ns + conf)[|ns| + i].vdu == c.vdu;
    }
  }

  lemma DrvRegister(t: Template, insts: map<Vdu, seq<Inst>>, untold: set<Vdu>, drv: map<string, Drv>, ns: Conf, conf: Conf)
    requires DrvOk(t, insts, untold, drv, ns) && ConfOk(t, insts, drv, conf) && DistinctNames(t)
    requires forall v :: v in untold ==> v.name in drv
    ensures DrvOk(t, insts, untold, AddDrivers(drv, Extracted(drv, conf)), ns + conf)
  {
    var news := Extracted(drv, conf);
    var drv' := AddDrivers(drv, news);
    NamesDistinct(t, insts, drv, conf);
    ExtractedMembers(drv, conf);
    AddDriversMembers(drv, news);
    InConfigGrows(ns, conf);
    forall n | n in drv'
      ensures drv'[n].vdu.name == n && drv'[n].vdu in insts && drv'[n].vdu in t.specs
              && drv'[n].driver == t.specs[drv'[n].vdu].driver
              && drv'[n].insts == Expected(insts, untold, drv'[n].vdu) && InConfig(ns + conf, drv'[n].vdu)
    {
      if n !in drv {
        var c :| c in news && c.vdu.name == n;
        assert EntryOk(t, insts, drv, c);
      }
    }
  }

  /** A wave under way stays unknown: no message names its VDUs. */
  lemma UnknownRegister(t: Template, pc: Pc, insts: map<Vdu, seq<Inst>>, sent: seq<Conf>, drv: map<string, Drv>, conf: Conf)
    requires WaveUnknown(t, pc, sent, drv) && conf in sent && ConfOk(t, insts, drv, conf) && DistinctNames(t)
    ensures WaveUnknown(t, pc, sent, AddDrivers(drv, Extracted(drv, conf)))
  {
    var news := Extracted(drv, conf);
    NamesDistinct(t, insts, drv, conf);
    ExtractedMembers(drv, conf);
    AddDriversMembers(drv, news);
    forall v, c | pc.Launching? && v in pc.done + pc.todo && c in news ensures c.vdu.name != v.name {
      InSentVdus(sent, conf, c);
      assert EntryOk(t, insts, drv, c);
      assert SameName(c.vdu, v) <==> c.vdu.name == v.name;
    }
  }

  lemma SentRegister(t: Template, insts: map<Vdu, seq<Inst>>, sent: seq<Conf>, drv: map<string, Drv>, drv': map<string, Drv>)
    requires SentOk(t, insts, drv, sent) && drv.Keys <= drv'.Keys
    ensures SentOk(t, insts, drv', sent)
  {
    forall conf, c | conf in sent && c in conf ensures EntryOk(t, insts, drv', c) {
      assert ConfOk(t, insts, drv, conf) && EntryOk(t, insts, drv, c);
    }
  }

  lemma LinkRegister(t: Template, pc: Pc, insts: map<Vdu, seq<Inst>>, acks: map<Vdu, seq<Inst>>, sent: seq<Conf>,
                     scaleMsgs: seq<Conf>, drv: map<string, Drv>, ns: Conf, conf: Conf)
    requires ValidTemplate(t) && LinkOk(t, pc, insts, acks, sent, scaleMsgs, drv, ns) && conf in sent
    ensures LinkOk(t, pc, insts, acks, sent, scaleMsgs, AddDrivers(drv, Extracted(drv, conf)), ns + conf)
  {
    var drv' := AddDrivers(drv, Extracted(drv, conf));
    assert ConfOk(t, insts, drv, conf);
    NamesDistinct(t, insts, drv, conf);
    ExtractedMembers(drv, conf);
    AddDriversMembers(drv, Extracted(drv, conf));
    DrvRegister(t, insts, Untold(pc, scaleMsgs), drv, ns, conf);
    UnknownRegister(t, pc, insts, sent, drv, conf);
    SentRegister(t, insts, sent, drv, drv');
    assert ScaleOk(t, pc, insts, acks, scaleMsgs, drv');
  }

  lemma NewsFresh(t: Template, o: Orch, drv: map<string, Drv>, sent: seq<Conf>, conf: Conf)
    requires ValidTemplate(t) && OrchOk(t, o) && SentOk(t, o.insts, drv, sent) && conf in sent
    ensures DistinctVduNames(Extracted(drv, conf))
    ensures forall c :: c in Extracted(drv, conf) ==> c.vdu.name !in drv && NoDup(c.insts)
  {
    assert ConfOk(t, o.insts, drv, conf);
    NamesDistinct(t, o.insts, drv, conf);
    ExtractedMembers(drv, conf);
    forall c | c in Extracted(drv, conf) ensures NoDup(c.insts) {
      assert EntryOk(t, o.insts, drv, c);
    }
  }

  /** Handling a configuration message, the first time or again. */
  lemma RegisterOk(s: State, conf: Conf)
    requires Inv(s) && conf in s.sent
    ensures Inv(s.(mgr := Register(s.mgr, conf)))
  {
    var t, o, m := s.tpl, s.orch, s.mgr;
    var m' := Register(m, conf);
    Parts(s);
    NewsFresh(t, o, m.drv, s.sent, conf);
    RegisterAll(Extracted(m.drv, conf), m.drv, m.todo, m.table, s.net, o.acks, o.failed);
    assert TokensOk(m', s.net, o.acks, o.failed);
    assert TableOk(m');
    assert m'.drv == AddDrivers(m.drv, Extracted(m.drv, conf)) && m'.nsConfig == m.nsConfig + conf;
    hide *;
    LinkRegister(t, o.pc, o.insts, o.acks, s.sent, s.scaleMsgs, m.drv, m.nsConfig, conf);
    Assemble(s.(mgr := m'));
  }

  // ---------- Scale messages ----------

  lemma {:induction false} NotInLast(insts: seq<Inst>, name: Inst, done: seq<Inst>)
    requires (forall i :: i in insts ==> i in done) && name !in done
    ensures NotIn(insts + [name], done) == [name]
  {
    if insts == [] {
      assert [] + [name] == [name];
    } else {
      NotInLast(insts[1..], name, done);
      assert (insts + [name])[1..] == insts[1..] + [name];
    }
  }

  lemma {:induction false} ReplacedKeeps(ns: Conf, c: VduConf)
    ensures forall v :: InConfig(ns, v) ==> InConfig(Replaced(ns, c), v)
  {
    if ns != [] && ns[0].vdu != c.vdu {
      ReplacedKeeps(ns[1..], c);
      forall v | InConfig(ns, v) ensures InConfig(Replaced(ns, c), v) {
        var i :| 0 <= i < |ns| && ns[i].vdu == v;
        if i == 0 {
          assert Replaced(ns, c)[0].vdu == v;
        } else {
          assert ns[1..][i - 1].vdu == v;
          assert InConfig(ns[1..], v) && InConfig(Replaced(ns[1..], c), v);
          var j :| 0 <= j < |Replaced(ns[1..], c)| && Replaced(ns[1..], c)[j].vdu == v;
          assert Replaced(ns, c)[j + 1].vdu == v;
        }
      }
    } else if ns != [] {
      forall v | InConfig(ns, v) ensures InConfig(Replaced(ns, c), v) {
        var i :| 0 <= i < |ns| && ns[i].vdu == v;
        assert Replaced(ns, c)[i].vdu == v;
      }
    }
  }

  /** A scale message names a VDU the manager runs, whose older servers are all acknowledged. */
  lemma ScaleMessage(t: Template, insts: map<Vdu, seq<Inst>>, acks: map<Vdu, seq<Inst>>, sent: seq<Conf>,
                     scaleMsgs: seq<Conf>, drv: map<string, Drv>, ns: Conf, v: Vdu)
    requires ValidTemplate(t) && LinkOk(t, ScaleWaiting(v), insts, acks, sent, scaleMsgs, drv, ns) && scaleMsgs != []
    ensures v in insts && insts[v] != [] && v in t.specs && v.name in drv
    ensures scaleMsgs == [[VduConf(v, insts[v], t.specs[v].driver)]]
    ensures drv[v.name].vdu == v && InConfig(ns, v) && drv[v.name].insts == insts[v][..|insts[v]| - 1]
    ensures forall i :: i in drv[v.name].insts ==> i in AcksOf(acks, v)
  {
    assert v in Untold(ScaleWaiting(v), scaleMsgs);
    assert SameName(drv[v.name].vdu, v);
  }

  /** Of the servers named only the new one is not complete yet. */
  lemma OnlyNewIncomplete(m: Manager, net: multiset<Ack>, acks: map<Vdu, seq<Inst>>, failed: seq<Tok>, v: Vdu, name: Inst)
    requires TokensOk(m, net, acks, failed) && v.name in m.drv && m.drv[v.name].vdu == v
    requires name !in m.drv[v.name].insts && forall i :: i in m.drv[v.name].insts ==> i in AcksOf(acks, v)
    ensures NotIn(m.drv[v.name].insts + [name], m.drv[v.name].complete) == [name]
  {
    assert Weight(m.todo, m.table, net, acks, failed, v, name) == B(Known(m.drv, v, name));
    assert name in AcksOf(acks, v) <==> multiset(AcksOf(acks, v))[name] > 0;
    NotInLast(m.drv[v.name].insts, name, m.drv[v.name].complete);
  }

  lemma ScaleCount(drv: map<string, Drv>, todo: seq<Tok>, table: map<ThreadId, Entry>, net: multiset<Ack>,
                   acks: map<Vdu, seq<Inst>>, failed: seq<Tok>, v: Vdu, name: Inst)
    requires Conserved(todo, table, net, acks, failed, drv) && CompleteOk(drv, net, acks)
    requires v.name in drv && drv[v.name].vdu == v && name !in drv[v.name].insts
    ensures var drv' := drv[v.name := drv[v.name].(insts := drv[v.name].insts + [name])];
            Conserved(todo + ToksOf(v, [name]), table, net, acks, failed, drv') && CompleteOk(drv', net, acks)
  {
    var drv' := drv[v.name := drv[v.name].(insts := drv[v.name].insts + [name])];
    var todo' := todo + ToksOf(v, [name]);
    ToksCount(v, [name]);
    forall u, i ensures Weight(todo', table, net, acks, failed, u, i) == B(Known(drv', u, i)) {
      assert Weight(todo, table, net, acks, failed, u, i) == B(Known(drv, u, i));
      assert multiset(todo')[Tok(u, i)] == multiset(todo)[Tok(u, i)] + multiset(ToksOf(v, [name]))[Tok(u, i)];
    }
  }

  lemma LinkScaled(t: Template, insts: map<Vdu, seq<Inst>>, acks: map<Vdu, seq<Inst>>, sent: seq<Conf>,
                   scaleMsgs: seq<Conf>, drv: map<string, Drv>, ns: Conf, v: Vdu, d: Drv)
    requires LinkOk(t, ScaleWaiting(v), insts, acks, sent, scaleMsgs, drv, ns) && scaleMsgs != []
    requires v in insts && v in t.specs && v.name in drv && drv[v.name].vdu == v
    requires d.vdu == v && d.insts == insts[v] && d.driver == drv[v.name].driver
    ensures LinkOk(t, ScaleWaiting(v), insts, acks, sent, [], drv[v.name := d],
                   Replaced(ns, VduConf(v, insts[v], t.specs[v].driver)))
  {
    ReplacedKeeps(ns, VduConf(v, insts[v], t.specs[v].driver));
    SentRegister(t, insts, sent, drv, drv[v.name := d]);
  }

  /** The new server joins those the manager knows and is put on its list; nothing else is started. */
  lemma TokensScale(m: Manager, net: multiset<Ack>, acks: map<Vdu, seq<Inst>>, failed: seq<Tok>, c: VduConf, name: Inst)
    requires TokensOk(m, net, acks, failed) && c.vdu.name in m.drv && m.drv[c.vdu.name].vdu == c.vdu
    requires InConfig(m.nsConfig, c.vdu) && c.insts == m.drv[c.vdu.name].insts + [name]
    requires NoDup(c.insts) && forall i :: i in m.drv[c.vdu.name].insts ==> i in AcksOf(acks, c.vdu)
    ensures TokensOk(ScaleOne(m, c), net, acks, failed)
    ensures ScaleOne(m, c) == m.(nsConfig := Replaced(m.nsConfig, c),
                                 drv := m.drv[c.vdu.name := m.drv[c.vdu.name].(insts := c.insts)],
                                 todo := m.todo + [Tok(c.vdu, name)])
  {
    var older := m.drv[c.vdu.name].insts;
    assert c.insts[|older|] == name && forall k :: 0 <= k < |older| ==> c.insts[k] == older[k];
    OnlyNewIncomplete(m, net, acks, failed, c.vdu, name);
    assert ToksOf(c.vdu, [name]) == [Tok(c.vdu, name)];
    ScaleCount(m.drv, m.todo, m.table, net, acks, failed, c.vdu, name);
  }

  lemma TableTodo(m: Manager, ns: Conf, drv: map<string, Drv>, todo: seq<Tok>)
    requires TableOk(m) && m.started
    ensures TableOk(m.(nsConfig := ns, drv := drv, todo := todo))
  {
  }

  lemma ScaleOnly(m: Manager, c: VduConf)
    ensures ScaleVdus(m, [c]) == ScaleOne(m, c)
  {
    assert [c][1..] == [];
  }

  lemma ServersDistinct(t: Template, o: Orch, v: Vdu)
    requires OrchOk(t, o) && v in o.insts
    ensures NoDup(o.insts[v])
  {
  }

  /** Handling a scale message starts a worker for the new server and for no other. */
  lemma HandleScaleOk(s: State, v: Vdu)
    requires Inv(s) && s.scaleMsgs != [] && s.orch.pc == ScaleWaiting(v) && s.mgr.started
    ensures Inv(s.(mgr := ScaleVdus(s.mgr, s.scaleMsgs[0]), scaleMsgs := s.scaleMsgs[1..]))
    ensures v in s.orch.insts && s.orch.insts[v] != []
    ensures ScaleVdus(s.mgr, s.scaleMsgs[0]).todo == s.mgr.todo + [Tok(v, s.orch.insts[v][|s.orch.insts[v]| - 1])]
  {
    var t, o, m := s.tpl, s.orch, s.mgr;
    hide *;
    Parts(s);
    ScaleMessage(t, o.insts, o.acks, s.sent, s.scaleMsgs, m.drv, m.nsConfig, v);
    var c := VduConf(v, o.insts[v], t.specs[v].driver);
    var name := o.insts[v][|o.insts[v]| - 1];
    assert o.insts[v] == m.drv[v.name].insts + [name];
    var d := m.drv[v.name].(insts := o.insts[v]);
    ServersDistinct(t, o, v);
    assert s.scaleMsgs[1..] == [];
    ScaleOnly(m, c);
    TokensScale(m, s.net, o.acks, o.failed, c, name);
    TableTodo(m, Replaced(m.nsConfig, c), m.drv[v.name := d], m.todo + [Tok(v, name)]);
    LinkScaled(t, o.insts, o.acks, s.sent, s.scaleMsgs, m.drv, m.nsConfig, v, d);
    Assemble(s.(mgr := ScaleOne(m, c), scaleMsgs := []));
  }
}
