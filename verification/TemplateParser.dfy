/** Reading the member VNFs of a service descriptor into the VDU table the orchestrator works on. */
module TemplateParser {
  import opened Lists
  import opened DependencyGraph

  datatype Dependency = NoDependency | One(vdu: Vdu) | Many(vdus: seq<Vdu>)
  datatype Member = Member(vnfd: string, vdu: string, dependency: Dependency)

  function DependencyList(d: Dependency): seq<Vdu> {
    match d case NoDependency => [] case One(v) => [v] case Many(vs) => vs
  }

  function KeyOf(m: Member): Vdu {
    Vdu(m.vnfd, m.vdu)
  }

  function VnfdsOf(data: seq<Member>): map<string, seq<string>> {
    if data == [] then map[]
    else
      var m, before := data[|data| - 1], VnfdsOf(data[..|data| - 1]);
      before[m.vnfd := (if m.vnfd in before then before[m.vnfd] else []) + [m.vdu]]
  }

  function VdusOf(data: seq<Member>): Graph {
    if data == [] then map[]
    else
      var m := data[|data| - 1];
      VdusOf(data[..|data| - 1])[KeyOf(m) := DependencyList(m.dependency)]
  }

  method MemberVnfs(data: seq<Member>) returns (vnfds: map<string, seq<string>>, vdus: Graph)
    ensures vnfds == VnfdsOf(data) && vdus == VdusOf(data)
  {
    vnfds, vdus := map[], map[];
    for i := 0 to |data|
      invariant vnfds == VnfdsOf(data[..i]) && vdus == VdusOf(data[..i])
    {
      var vdu := data[i];
      assert data[..i + 1][..i] == data[..i];
      if vdu.vnfd !in vnfds {
        vnfds := vnfds[vdu.vnfd := []];
      }
      vnfds := vnfds[vdu.vnfd := vnfds[vdu.vnfd] + [vdu.vdu]];
      vdus := vdus[KeyOf(vdu) := []];
      match vdu.dependency {
        case NoDependency =>
        case One(d) => vdus := vdus[KeyOf(vdu) := [d]];
        case Many(ds) => vdus := vdus[KeyOf(vdu) := ds];
      }
    }
    assert data[..|data|] == data;
  }

  lemma {:induction false} OnlyMembers(data: seq<Member>, v: Vdu) returns (k: nat)
    requires v in VdusOf(data)
    ensures k < |data| && KeyOf(data[k]) == v
  {
    k := |data| - 1;
    if v != KeyOf(data[k]) {
      k := OnlyMembers(data[..k], v);
    }
  }

  predicate LastMention(data: seq<Member>, k: nat)
    requires k < |data|
  {
    forall j :: k < j < |data| ==> KeyOf(data[j]) != KeyOf(data[k])
  }

  lemma {:induction false} MemberInTable(data: seq<Member>, k: nat)
    requires k < |data|
    ensures KeyOf(data[k]) in VdusOf(data)
    ensures LastMention(data, k) ==> VdusOf(data)[KeyOf(data[k])] == DependencyList(data[k].dependency)
  {
    var init := data[..|data| - 1];
    if k < |init| {
      MemberInTable(init, k);
      assert LastMention(data, k) ==> LastMention(init, k);
    }
  }

  /** The VDU table is keyed by exactly the members, each with the dependencies of its last mention. */
  lemma TableKeyedByMembers(data: seq<Member>, v: Vdu)
    ensures v in VdusOf(data) <==> exists k :: 0 <= k < |data| && data[k].vnfd == v.vnfd && data[k].vdu == v.name
    ensures forall k :: 0 <= k < |data| && KeyOf(data[k]) == v && LastMention(data, k) ==>
              && v in VdusOf(data)
              && (data[k].dependency.NoDependency? ==> VdusOf(data)[v] == [])
              && (forall d :: data[k].dependency == One(d) ==> VdusOf(data)[v] == [d])
              && (forall ds :: data[k].dependency == Many(ds) ==> VdusOf(data)[v] == ds)
  {
    if v in VdusOf(data) {
      var k := OnlyMembers(data, v);
      assert data[k].vnfd == v.vnfd && data[k].vdu == v.name;
    }
    forall k | 0 <= k < |data| && KeyOf(data[k]) == v
      ensures v in VdusOf(data)
      ensures LastMention(data, k) ==> VdusOf(data)[v] == DependencyList(data[k].dependency)
    {
      MemberInTable(data, k);
    }
  }

  /** The two tables hold the same VDUs: a VNFD lists exactly the names its keys in the VDU table carry, and lists one
      as often as the descriptor mentions it. */
  lemma {:induction false} TablesAgree(data: seq<Member>, v: Vdu)
    ensures v in VdusOf(data) <==> v.vnfd in VnfdsOf(data) && v.name in VnfdsOf(data)[v.vnfd]
    ensures v.vnfd in VnfdsOf(data) ==> multiset(VnfdsOf(data)[v.vnfd])[v.name] == Mentions(data, v)
  {
    if data != [] {
      TablesAgree(data[..|data| - 1], v);
      var before, m := VnfdsOf(data[..|data| - 1]), data[|data| - 1];
      if m.vnfd == v.vnfd {
        var list := if m.vnfd in before then before[m.vnfd] else [];
        assert VnfdsOf(data)[v.vnfd] == list + [m.vdu];
        assert multiset(list + [m.vdu]) == multiset(list) + multiset{m.vdu};
        NoMentions(data[..|data| - 1], v);
      }
    }
  }

  function Mentions(data: seq<Member>, v: Vdu): nat {
    if data == [] then 0
    else Mentions(data[..|data| - 1], v) + if KeyOf(data[|data| - 1]) == v then 1 else 0
  }

  lemma {:induction false} NoMentions(data: seq<Member>, v: Vdu)
    ensures v.vnfd !in VnfdsOf(data) ==> Mentions(data, v) == 0
  {
    if data != [] { NoMentions(data[..|data| - 1], v); }
  }
}
