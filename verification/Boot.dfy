/** Booting the servers of a VDU: their names, the record of launched instances, and the wait until they are active. */
module Boot {
  import opened Lists
  import opened Text

  datatype Server = Server(id: string, name: string)

  /** What a look at a server shows. */
  datatype ServerStatus = Active(hasAddress: bool) | InError | Building

  // ---------- The record of launched instances: ids separated by commas ----------

  function Commas(s: string): nat {
    if s == "" then 0 else (if s[0] == ',' then 1 else 0) + Commas(s[1..])
  }

  /** `len(record.split(","))`. */
  function Pieces(record: string): nat {
    Commas(record) + 1
  }

  function Appended(record: string, id: string): string {
    if record == "" then id else record + "," + id
  }

  lemma {:induction false} CommasConcat(a: string, b: string)
    ensures Commas(a + b) == Commas(a) + Commas(b)
  {
    if a == "" {
      assert a + b == b;
    } else {
      assert (a + b)[0] == a[0] && (a + b)[1..] == a[1..] + b;
      CommasConcat(a[1..], b);
    }
  }

  lemma {:induction false} NoCommas(s: string)
    requires ',' !in s
    ensures Commas(s) == 0
  {
    if s != "" { NoCommas(s[1..]); }
  }

  /** The record counts instances. */
  lemma AppendedCounts(record: string, id: string)
    requires id != "" && ',' !in id
    ensures Appended(record, id) != ""
    ensures Pieces(Appended(record, id)) == if record == "" then 1 else Pieces(record) + 1
  {
    NoCommas(id);
    CommasConcat(record, ",");
    CommasConcat(record + ",", id);
    assert Commas(",") == 1 by { assert ","[1..] == ""; }
  }

  // ---------- Names ----------

  function Indexed(name: string, i: nat): string {
    name + "_" + Decimal(i)
  }

  lemma IndexedInjective(name: string, i: nat, j: nat)
    ensures Indexed(name, i) == Indexed(name, j) ==> i == j
    ensures Indexed(name, i) != name
  {
    var n := |name + "_"|;
    assert Indexed(name, i)[n..] == Decimal(i) && Indexed(name, j)[n..] == Decimal(j);
    DecimalRoundTrip(i);
    DecimalRoundTrip(j);
    assert |Indexed(name, i)| > |name|;
  }

  /** The first server has the VDU's name or the index 0, every later one its position as index. */
  predicate NameAt(name: string, j: nat, serverName: string) {
    serverName == Indexed(name, j) || (j == 0 && serverName == name)
  }

  lemma PositionNamesDistinct(name: string, names: seq<string>)
    requires forall j :: 0 <= j < |names| ==> NameAt(name, j, names[j])
    ensures NoDup(names)
  {
    forall i, j | 0 <= i < j < |names| ensures names[i] != names[j] {
      assert NameAt(name, i, names[i]) && NameAt(name, j, names[j]);
      IndexedInjective(name, i, j);
      IndexedInjective(name, j, i);
    }
  }

  /** The record has an id for every server created, and the servers are named by their position in it. */
  predicate RecordOk(name: string, record: string, servers: seq<Server>) {
    && (record == "" <==> servers == [])
    && (servers != [] ==> Pieces(record) == |servers|)
    && (forall j :: 0 <= j < |servers| ==> NameAt(name, j, servers[j].name))
  }

  lemma RecordOne(name: string, record: string, servers: seq<Server>, s: Server)
    requires RecordOk(name, record, servers) && s.id != "" && ',' !in s.id && NameAt(name, |servers|, s.name)
    ensures RecordOk(name, Appended(record, s.id), servers + [s])
  {
    AppendedCounts(record, s.id);
    hide Appended, Pieces;
    forall j | 0 <= j < |servers + [s]| ensures NameAt(name, j, (servers + [s])[j].name) {
      if j < |servers| { assert (servers + [s])[j] == servers[j]; }
    }
  }

  // ---------- Waiting ----------

  datatype BootResult = Booted(instances: seq<Server>) | Failed | StillBooting

  lemma {:induction false} RemoveFirstCount<T>(s: seq<T>, x: T)
    requires x in s
    ensures multiset(RemoveFirst(s, x)) + multiset{x} == multiset(s)
    ensures |RemoveFirst(s, x)| == |s| - 1
  {
    assert s == [s[0]] + s[1..];
    if s[0] != x { RemoveFirstCount(s[1..], x); }
  }

  /** A look that was taken: at which server, and what it showed. */
  datatype Look = Look(server: Server, shown: ServerStatus)

  /** The servers seen active, in the order of the looks. */
  function SeenActive(taken: seq<Look>): seq<Server> {
    if taken == [] then []
    else SeenActive(taken[..|taken| - 1])
         + if taken[|taken| - 1].shown.Active? then [taken[|taken| - 1].server] else []
  }

  /** The looks taken are the first of those there are, each at a server of the VDU. */
  predicate LooksAt(created: seq<Server>, looks: seq<ServerStatus>, taken: seq<Look>) {
    && |taken| <= |looks|
    && forall k :: 0 <= k < |taken| ==> taken[k].shown == looks[k] && taken[k].server in created
  }

  predicate NoError(taken: seq<Look>) {
    forall k :: 0 <= k < |taken| ==> !taken[k].shown.InError?
  }

  /** Where a loop over a list stands that shrinks under it: what is left, and the position it looks at next. */
  datatype Turn = Turn(left: seq<Server>, next: nat)

  /** A round that has come to the end of what is left begins again. */
  function Wrapped(t: Turn): Turn {
    if t.next < |t.left| then t else Turn(t.left, 0)
  }

  /** After a look the position moves on by one, whether or not the list has lost the server looked at. */
  function TurnAfter(created: seq<Server>, taken: seq<Look>): Turn {
    if taken == [] then Turn(created, 0)
    else
      var t, look := Wrapped(TurnAfter(created, taken[..|taken| - 1])), taken[|taken| - 1];
      Turn(if look.shown.Active? then RemoveFirst(t.left, look.server) else t.left, t.next + 1)
  }

  /** Every look is at the server whose turn it is. */
  predicate InTurn(created: seq<Server>, taken: seq<Look>) {
    forall k :: 0 <= k < |taken| ==> AtTurn(Wrapped(TurnAfter(created, taken[..k])), taken[k].server)
  }

  predicate AtTurn(t: Turn, server: Server) {
    t.next < |t.left| && t.left[t.next] == server
  }

  lemma OneMoreTurn(created: seq<Server>, taken: seq<Look>, look: Look)
    requires InTurn(created, taken) && AtTurn(Wrapped(TurnAfter(created, taken)), look.server)
    ensures InTurn(created, taken + [look])
    ensures var t := Wrapped(TurnAfter(created, taken));
            TurnAfter(created, taken + [look])
            == Turn(if look.shown.Active? then RemoveFirst(t.left, look.server) else t.left, t.next + 1)
  {
    hide AtTurn, Wrapped;
    var more := taken + [look];
    assert more[..|more| - 1] == taken && more[|more| - 1] == look;
    forall k | 0 <= k < |more| ensures AtTurn(Wrapped(TurnAfter(created, more[..k])), more[k].server) {
      if k < |taken| { assert more[..k] == taken[..k] && more[k] == taken[k]; }
    }
  }

  lemma TurnStep(created: seq<Server>, taken: seq<Look>, m: nat)
    requires InTurn(created, taken) && m < |taken|
    ensures var t := Wrapped(TurnAfter(created, taken[..m]));
            && AtTurn(t, taken[m].server)
            && (taken[m].shown.Building? ==> TurnAfter(created, taken[..m + 1]) == Turn(t.left, t.next + 1))
  {
    hide AtTurn, Wrapped;
    var upto := taken[..m + 1];
    assert upto[..|upto| - 1] == taken[..m] && upto[|upto| - 1] == taken[m];
  }

  /** A round in which nothing changes looks at every server left, in order, and the next one begins at the front. */
  lemma {:induction false} QuietRound(created: seq<Server>, taken: seq<Look>, n: nat, k: nat)
    requires InTurn(created, taken) && 0 < k && n + k <= |taken|
    requires var t := Wrapped(TurnAfter(created, taken[..n])); t.next == 0 && k <= |t.left|
    requires forall j :: n <= j < n + k ==> taken[j].shown.Building?
    ensures var left := Wrapped(TurnAfter(created, taken[..n])).left;
            && TurnAfter(created, taken[..n + k]) == Turn(left, k)
            && (forall j :: n <= j < n + k ==> taken[j].server == left[j - n])
            && (k == |left| ==> Wrapped(TurnAfter(created, taken[..n + k])) == Turn(left, 0))
    decreases k
  {
    hide InTurn, TurnAfter;
    if k > 1 { QuietRound(created, taken, n, k - 1); }
    TurnStep(created, taken, n + k - 1);
  }

  lemma NoTurns(created: seq<Server>)
    ensures InTurn(created, []) && TurnAfter(created, []) == Turn(created, 0)
  {
  }

  lemma NoLooks(created: seq<Server>, looks: seq<ServerStatus>)
    ensures LooksAt(created, looks, []) && NoError([]) && SeenActive([]) == []
  {
  }

  lemma OneMoreLook(created: seq<Server>, looks: seq<ServerStatus>, taken: seq<Look>, server: Server)
    requires LooksAt(created, looks, taken) && |taken| < |looks| && server in created
    ensures var look := Look(server, looks[|taken|]);
            var more := taken + [look];
            && LooksAt(created, looks, more) && |more| <= |looks| && more[..|taken|] == taken && more[|taken|] == look
            && SeenActive(more) == SeenActive(taken) + (if look.shown.Active? then [server] else [])
            && (NoError(more) <==> NoError(taken) && !look.shown.InError?)
  {
    var more := taken + [Look(server, looks[|taken|])];
    assert more[..|more| - 1] == taken && more[|more| - 1] == Look(server, looks[|taken|]);
    assert forall k :: 0 <= k < |taken| ==> more[k] == taken[k];
  }

  /** The wait for several servers. The loop removes from the list it is iterating over, so it skips the server after
      each active one until the next round; none is lost or collected twice all the same. `looks` is what successive
      looks show; when they end the wait is still going on. `taken` are the looks taken. The servers collected are exactly
      those seen active; the wait succeeds when those are all, and fails at the first look that shows an error. */
  method AwaitAll(created: seq<Server>, looks: seq<ServerStatus>)
    returns (r: BootResult, instances: seq<Server>, left: seq<Server>, ghost taken: seq<Look>)
    ensures multiset(instances) + multiset(left) == multiset(created)
    ensures LooksAt(created, looks, taken) && InTurn(created, taken) && instances == SeenActive(taken)
    ensures r.Booted? <==> NoError(taken) && left == []
    ensures r.Failed? <==> !NoError(taken)
    ensures r.StillBooting? <==> NoError(taken) && left != []
    ensures r.StillBooting? ==> |taken| == |looks|
    ensures r.Failed? ==> taken[|taken| - 1].shown.InError? && NoError(taken[..|taken| - 1])
    ensures r.Booted? ==> r.instances == instances
  {
    hide InTurn, LooksAt, NoError, RemoveFirst, SeenActive, TurnAfter;
    var instancesList, instancesActive, used := created, 0, 0;
    instances, taken := [], [];
    NoLooks(created, looks);
    NoTurns(created);
    while instancesActive != |created| || |instancesList| > 0
      invariant multiset(instances) + multiset(instancesList) == multiset(created)
      invariant instancesActive == |instances| && |instances| + |instancesList| == |created|
      invariant used == |taken| <= |looks| && LooksAt(created, looks, taken) && NoError(taken) && instances == SeenActive(taken)
      invariant InTurn(created, taken) && Wrapped(TurnAfter(created, taken)) == Turn(instancesList, 0)
      decreases |looks| - used
    {
      var k := 0;
      ghost var usedBefore := used;
      while k < |instancesList|
        invariant multiset(instances) + multiset(instancesList) == multiset(created)
        invariant instancesActive == |instances| && |instances| + |instancesList| == |created|
        invariant used == |taken| <= |looks| && LooksAt(created, looks, taken) && NoError(taken) && instances == SeenActive(taken)
        invariant InTurn(created, taken)
        invariant Wrapped(TurnAfter(created, taken)) == Wrapped(Turn(instancesList, k))
        invariant usedBefore <= used && if k > 0 then usedBefore < used else |instancesList| > 0
        decreases |looks| - used
      {
        if used == |looks| { return StillBooting, instances, instancesList, taken; }
        var inst, look := instancesList[k], looks[used];
        StillCreated(created, instances, instancesList, k);
        OneMoreLook(created, looks, taken, inst);
        OneMoreTurn(created, taken, Look(inst, look));
        used, k, taken := used + 1, k + 1, taken + [Look(inst, look)];
        match look {
          case Active(_) =>
            instancesActive := instancesActive + 1;
            RemoveFirstCount(instancesList, inst);
            instancesList := RemoveFirst(instancesList, inst);
            instances := instances + [inst];
          case InError =>
            return Failed, instances, instancesList, taken;
          case Building =>
        }
      }
    }
    r, left := Booted(instances), [];
  }

  lemma StillCreated(created: seq<Server>, instances: seq<Server>, left: seq<Server>, k: nat)
    requires multiset(instances) + multiset(left) == multiset(created) && k < |left|
    ensures left[k] in created
  {
    assert left[k] in multiset(left);
    assert left[k] in multiset(created);
  }

  /** What the look number `k` at a single server shows; the first one comes with its creation. */
  function Shown(first: ServerStatus, looks: seq<ServerStatus>, k: nat): ServerStatus
    requires k <= |looks|
  {
    if k == 0 then first else looks[k - 1]
  }

  /** The look that ends the wait: the first that shows the server active with an address, or, after the creation, in
      error. */
  predicate Decides(first: ServerStatus, looks: seq<ServerStatus>, k: nat) {
    && k <= |looks|
    && (Shown(first, looks, k) == Active(true) || (k > 0 && Shown(first, looks, k) == InError))
    && forall j :: 0 <= j < k ==> Shown(first, looks, j) != Active(true) && (j > 0 ==> Shown(first, looks, j) != InError)
  }

  /** The wait for a single server: it must be active and have an address. */
  method AwaitOne(server: Server, first: ServerStatus, looks: seq<ServerStatus>) returns (r: BootResult)
    ensures r.Booted? <==> exists k: nat :: Decides(first, looks, k) && Shown(first, looks, k) == Active(true)
    ensures r.Failed? <==> exists k: nat :: Decides(first, looks, k) && Shown(first, looks, k) == InError
    ensures r.StillBooting? <==> forall k: nat :: !Decides(first, looks, k)
    ensures r.Booted? ==> r.instances == [server]
  {
    var look := first;
    for used := 0 to |looks|
      invariant look == Shown(first, looks, used) && (used > 0 ==> look != InError)
      invariant forall j :: 0 <= j < used ==> Shown(first, looks, j) != Active(true) && (j > 0 ==> Shown(first, looks, j) != InError)
    {
      if look == Active(true) {
        assert Decides(first, looks, used);
        return Booted([server]);
      }
      look := looks[used];
      if look == InError {
        assert Decides(first, looks, used + 1);
        return Failed;
      }
    }
    if look == Active(true) {
      assert Decides(first, looks, |looks|);
      return Booted([server]);
    }
    r := StillBooting;
  }

  // ---------- One VDU over its lifetime ----------

  class VduServers {
    const name: string
    /** The ids Nova has given out so far are the numbers below this one. */
    var nextId: nat
    /** The database's record of launched instances. */
    var record: string
    /** Every server ever created for the VDU. */
    var servers: seq<Server>

    function Names(): seq<string> reads this {
      seq(|servers|, i requires 0 <= i < |servers| reads this => servers[i].name)
    }

    predicate Valid() reads this {
      RecordOk(name, record, servers)
    }

    constructor (vduName: string)
      ensures Valid() && servers == [] && name == vduName
    {
      name, nextId, record, servers := vduName, 0, "", [];
    }

    method CreateOne(serverName: string) returns (s: Server)
      modifies `nextId
      ensures s.name == serverName && s.id != "" && ',' !in s.id
    {
      DecimalRoundTrip(nextId);
      DigitsParse(nextId);
      s := Server(Decimal(nextId), serverName);
      nextId := nextId + 1;
    }

    /** `NovaClient.server_create`. */
    method ServerCreate(numInstances: nat, index: nat) returns (created: seq<Server>)
      modifies `nextId
      ensures |created| == numInstances
      ensures forall j :: 0 <= j < numInstances ==>
                created[j].id != "" && ',' !in created[j].id && NameAt(name, index + j, created[j].name)
      ensures numInstances == 1 ==> created[0].name == if index == 0 then name else name + "_" + Decimal(index)
      ensures numInstances != 1 ==> forall j :: 0 <= j < numInstances ==> created[j].name == name + "_" + Decimal(index + j)
    {
      if numInstances == 1 {
        var serverName := name;
        if index > 0 {
          serverName := Indexed(name, index);
        }
        var s := CreateOne(serverName);
        created := [s];
      } else {
        created := [];
        for i := 0 to numInstances
          invariant |created| == i
          invariant forall j :: 0 <= j < i ==>
                      created[j].id != "" && ',' !in created[j].id && created[j].name == Indexed(name, index + j)
        {
          var s := CreateOne(Indexed(name, index + i));
          created := created + [s];
        }
      }
    }

    /** The record grows by one id per server. */
    method RecordAll(created: seq<Server>)
      requires Valid() && forall j :: 0 <= j < |created| ==>
                 created[j].id != "" && ',' !in created[j].id && NameAt(name, |servers| + j, created[j].name)
      modifies `record, `servers
      ensures Valid() && servers == old(servers) + created
    {
      hide Appended, NameAt, RecordOk;
      for i := 0 to |created|
        invariant Valid() && servers == old(servers) + created[..i]
      {
        var s := created[i];
        RecordOne(name, record, servers, s);
        record := Appended(record, s.id);
        servers := servers + [s];
        assert created[..i + 1] == created[..i] + [s];
      }
      assert created[..|created|] == created;
    }

    /** `_boot_vdu`, for a creation as well as for a scale-out: the servers are created under names of their own, entered
        in the record, and waited for; on success exactly the created ones are returned, each seen active. */
    method BootVdu(numInstances: nat, first: ServerStatus, looks: seq<ServerStatus>)
      returns (r: BootResult, ghost taken: seq<Look>)
      requires Valid()
      modifies this
      ensures Valid() && NoDup(Names())
      ensures |servers| == |old(servers)| + numInstances && old(servers) <= servers
      ensures r.Booted? ==> multiset(r.instances) == multiset(servers[|old(servers)|..])
      ensures numInstances == 1 ==>
                && (r.Booted? <==> exists k: nat :: Decides(first, looks, k) && Shown(first, looks, k) == Active(true))
                && (r.Failed? <==> exists k: nat :: Decides(first, looks, k) && Shown(first, looks, k) == InError)
      ensures numInstances != 1 ==>
                && LooksAt(servers[|old(servers)|..], looks, taken) && InTurn(servers[|old(servers)|..], taken)
                && (r.Booted? ==> r.instances == SeenActive(taken))
                && (r.Booted? <==> NoError(taken) && |SeenActive(taken)| == numInstances)
                && (r.Failed? <==> !NoError(taken))
    {
      hide Decides, Indexed, InTurn, LooksAt, NameAt, NoDup, NoError, Pieces, SeenActive, Shown;
      taken := [];
      var index := if record == "" then 0 else Pieces(record);
      assert index == |servers|;
      var created := ServerCreate(numInstances, index);
      RecordAll(created);
      assert NoDup(Names()) by {
        PositionNamesDistinct(name, Names());
      }
      assert servers[|old(servers)|..] == created;
      if numInstances == 1 {
        r := AwaitOne(created[0], first, looks);
        assert created == [created[0]];
      } else {
        var instances, left;
        r, instances, left, taken := AwaitAll(created, looks);
        assert |multiset(instances)| + |multiset(left)| == |multiset(created)|;
      }
    }
  }
}
