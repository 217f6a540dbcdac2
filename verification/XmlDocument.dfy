/** Whole XML documents: the root element, its namespace declarations and its atom links. */
module XmlDocument {
  import opened Lists
  import opened Text
  import opened Xml

  const VIRTUAL_ROOT_KEY := "_v_root"
  const ATOM_XMLNS := "xmlns:atom"
  const ATOM_NAMESPACE := "http://www.w3.org/2005/Atom"
  /** The constant's definition is missing; this is the only value under which links are found at all. */
  const ATOM_LINK_NOTATION := Qualified(ATOM_NAMESPACE, "link")

  // ---------- Namespace declarations ----------

  function DeclarePrefix(md: Metadata, attrs: Attrs, p: string): Attrs {
    var once := match Get(md.extNs, p) case Some(ns) => Put(attrs, "xmlns:" + p, ns) case None => attrs;
    match Get(md.extNsComp, p) case Some(ns) => Put(once, "xmlns:" + p, ns) case None => once
  }

  function DeclarePrefixes(md: Metadata, attrs: Attrs, prefixes: seq<string>): Attrs
    decreases |prefixes|
  {
    if prefixes == [] then attrs else DeclarePrefixes(md, DeclarePrefix(md, attrs, prefixes[0]), prefixes[1..])
  }

  function BaseAttrs(md: Metadata, attrs: Attrs, hasAtom: bool): Attrs {
    var own := Put(Put(attrs, "xmlns", Xmlns(md)), TYPE_XMLNS, Xmlns(md));
    Put(if hasAtom then Put(own, ATOM_XMLNS, ATOM_NAMESPACE) else own, XSI_NIL_ATTR, XSI_NAMESPACE)
  }

  function RootAttrs(md: Metadata, attrs: Attrs, hasAtom: bool, prefixes: seq<string>): Attrs {
    DeclarePrefixes(md, BaseAttrs(md, attrs, hasAtom), prefixes)
  }

  // ---------- Links ----------

  predicate IsLinkKey(k: string) {
    EndsWith(k, "_links")
  }

  lemma LinkKeyIs(k: string)
    ensures IsLinkKey(k) <==> exists name :: k == LinksOfName(name)
  {
    if IsLinkKey(k) {
      var name := k[..|k| - |"_links"|];
      assert k == LinksOfName(name);
    }
    if name :| k == LinksOfName(name) {
      assert k[|name|..] == "_links";
    }
  }

  /** The key the links of an entry go under. */
  function LinksOfName(name: string): string {
    name + "_links"
  }

  /** The position of the first key that ends in `_links`, or the number of entries. */
  function FirstLinkKey(entries: seq<Entry>): (i: nat)
    ensures i <= |entries| && (i < |entries| ==> IsLinkKey(entries[i].key))
    ensures forall j :: 0 <= j < i ==> !IsLinkKey(entries[j].key)
  {
    if entries == [] then 0 else if IsLinkKey(entries[0].key) then 0 else 1 + FirstLinkKey(entries[1..])
  }

  /** No key ends in `_links`. */
  ghost predicate NoLinkKey(entries: seq<Entry>) {
    forall j, name :: 0 <= j < |entries| ==> entries[j].key != LinksOfName(name)
  }

  /** The key at `i` ends in `_links`, and none before it does. */
  ghost predicate FirstLink(entries: seq<Entry>, i: nat) {
    && i < |entries| && (exists name :: entries[i].key == LinksOfName(name))
    && forall j, name :: 0 <= j < i ==> entries[j].key != LinksOfName(name)
  }

  lemma FirstLinkIs(entries: seq<Entry>)
    ensures FirstLinkKey(entries) == |entries| <==> NoLinkKey(entries)
    ensures forall i: nat :: FirstLink(entries, i) <==> i < |entries| && FirstLinkKey(entries) == i
  {
    forall j | 0 <= j < |entries| ensures IsLinkKey(entries[j].key) <==> exists name :: entries[j].key == LinksOfName(name) {
      LinkKeyIs(entries[j].key);
    }
  }

  predicate Truthy(v: Value) {
    match v
    case Null => false
    case Bool(b) => b
    case Int(i) => i != 0
    case Long(i) => i != 0
    case Str(s) => s != ""
    case List(items) => items != []
    case Dict(entries) => entries != []
  }

  /** The values Python takes for false. */
  lemma FalsyValues(v: Value)
    ensures !Truthy(v) <==> v in {Null, Bool(false), Int(0), Long(0), Str(""), List([]), Dict([])}
  {
  }

  /** One link element; a link without a `rel` and a `href` text raises. */
  function LinkNode(link: Value): Option<Node> {
    if !link.Dict? then None
    else
      match (GetEntry(link.entries, "rel"), GetEntry(link.entries, "href"))
      case (Some(Str(rel)), Some(Str(href))) => Some(Node("atom:link", [("rel", rel), ("href", href)], "", []))
      case _ => None
  }

  function LinkNodes(links: seq<Value>): Option<seq<Node>> {
    if links == [] then Some([])
    else
      var first, rest := LinkNode(links[0]), LinkNodes(links[1..]);
      if first.None? || rest.None? then None else Some([first.value] + rest.value)
  }

  // ---------- Writing a document ----------

  function RootKey(rest: seq<Entry>): string {
    if |rest| == 1 && rest[0].key != "" then rest[0].key else VIRTUAL_ROOT_KEY
  }

  function RootValue(rest: seq<Entry>): Value {
    match GetEntry(rest, RootKey(rest)) case Some(v) => v case None => Dict(rest)
  }

  /** What is left of a dict when its first link key is popped. */
  function WithoutFirstLink(entries: seq<Entry>): seq<Entry> {
    var i := FirstLinkKey(entries);
    if i == |entries| then entries else entries[..i] + entries[i + 1..]
  }

  function Document(md: Metadata, key: string, v: Value, hasAtom: bool, links: seq<Node>): Node {
    var n := Print(md, key, v);
    n.(attrs := RootAttrs(md, n.attrs, hasAtom, Prefixes(md, key, v)), children := n.children + links)
  }

  /** `default`; no node is an exception, or the empty answer when the data is no dict. */
  function ToXml(md: Metadata, data: Value): Option<Node> {
    match data
    case Null => Some(Document(md, VIRTUAL_ROOT_KEY, Null, false, []))
    case Dict(entries) =>
      var i := FirstLinkKey(entries);
      if i == |entries| then Some(Document(md, RootKey(entries), RootValue(entries), false, []))
      else
        var links, rest := entries[i].value, WithoutFirstLink(entries);
        if !Truthy(links) then Some(Document(md, RootKey(rest), RootValue(rest), true, []))
        else if !links.List? then None
        else
          var nodes := LinkNodes(links.items);
          if nodes.None? then None else Some(Document(md, RootKey(rest), RootValue(rest), true, nodes.value))
    case _ => None
  }

  /** Links are printed if and only if the value under the first link key is a non-empty list; a value taken for false
      gives a document without links, and any other raises, as does a link without its texts. */
  lemma LinksWritten(md: Metadata, entries: seq<Entry>, i: nat)
    requires FirstLink(entries, i)
    ensures var links, doc := entries[i].value, ToXml(md, Dict(entries));
            && (links in {Null, Bool(false), Int(0), Long(0), Str(""), List([]), Dict([])} ==> doc.Some?)
            && (links.List? && links.items != [] ==> (doc.Some? <==> forall link :: link in links.items ==> LinkNode(link).Some?))
            && (!links.List? && links !in {Null, Bool(false), Int(0), Long(0), Str(""), Dict([])} ==> doc == None)
  {
    hide Document, FirstLink, IsLinkKey, LinkNode;
    FirstLinkIs(entries);
    FalsyValues(entries[i].value);
    if entries[i].value.List? { AllLinkNodes(entries[i].value.items); }
  }

  lemma {:induction false} AllLinkNodes(links: seq<Value>)
    ensures LinkNodes(links).Some? <==> forall link :: link in links ==> LinkNode(link).Some?
  {
    if links != [] {
      AllLinkNodes(links[1..]);
      assert links == [links[0]] + links[1..];
    }
  }

  /** The root of a written dict without links: a single entry under its own key, unless that is empty; anything else, whole,
      under the virtual root. */
  lemma RootOfPlain(md: Metadata, entries: seq<Entry>)
    requires NoLinkKey(entries)
    ensures var doc := ToXml(md, Dict(entries));
            && doc.Some?
            && (forall k, v :: entries == [Entry(k, v)] && k != "" ==>
                  doc.value.tag == k && doc.value.children == Print(md, k, v).children)
            && (|entries| != 1 || entries[0].key == "" ==> doc.value.tag == "_v_root")
            && (|entries| != 1 && GetEntry(entries, "_v_root").None? ==>
                  doc.value.children == Print(md, "_v_root", Dict(entries)).children)
  {
    hide FirstLinkKey, NoLinkKey, Prefixes, RootAttrs;
    FirstLinkIs(entries);
    PrintedTag(md, RootKey(entries), RootValue(entries));
  }

  // ---------- Reading a document ----------

  function LinksOf(ns: seq<Node>): (r: seq<Node>)
    ensures forall n :: n in r ==> n.tag == ATOM_LINK_NOTATION
  {
    if ns == [] then [] else (if ns[0].tag == ATOM_LINK_NOTATION then [ns[0]] else []) + LinksOf(ns[1..])
  }

  function WithoutLinks(ns: seq<Node>): seq<Node> {
    if ns == [] then [] else (if ns[0].tag == ATOM_LINK_NOTATION then [] else [ns[0]]) + WithoutLinks(ns[1..])
  }

  function AttrValue(attrs: Attrs, k: string): Value {
    match Get(attrs, k) case Some(v) => Str(v) case None => Null
  }

  function LinkValue(n: Node): Value {
    Dict([Entry("rel", AttrValue(n.attrs, "rel")), Entry("href", AttrValue(n.attrs, "href"))])
  }

  /** Of a link element its `rel` and its `href` are read, each as the attribute's text, or as nothing when it is missing. */
  lemma LinkRead(n: Node, k: string)
    requires k == "rel" || k == "href"
    ensures LinkValue(n).Dict? && |LinkValue(n).entries| == 2
    ensures var found := GetEntry(LinkValue(n).entries, k);
            && (forall at: nat :: at < |n.attrs| && n.attrs[at].0 == k && (forall j :: 0 <= j < at ==> n.attrs[j].0 != k) ==>
                  found == Some(Str(n.attrs[at].1)))
            && ((forall e :: e in n.attrs ==> e.0 != k) ==> found == Some(Null))
  {
    assert GetEntry(LinkValue(n).entries, k) == Some(AttrValue(n.attrs, k));
    forall at: nat | at < |n.attrs| && n.attrs[at].0 == k && (forall j :: 0 <= j < at ==> n.attrs[j].0 != k)
      ensures Get(n.attrs, k) == Some(n.attrs[at].1)
    {
      GetFirst(n.attrs, k, at);
    }
    if forall e :: e in n.attrs ==> e.0 != k { GetMissing(n.attrs, k); }
  }

  function LinkValues(ns: seq<Node>): seq<Value> {
    if ns == [] then [] else [LinkValue(ns[0])] + LinkValues(ns[1..])
  }

  /** `_from_xml` of a document; no value is an exception. */
  function FromXml(md: Metadata, root: Node): Option<Value> {
    match Resolve(root.attrs, root)
    case None => None
    case Some(n) =>
      var tag, links := GetKey(md, n.tag), LinkValues(LinksOf(n.children));
      match Read(md, n.(children := WithoutLinks(n.children)))
      case None => None
      case Some(v) =>
        if tag == VIRTUAL_ROOT_KEY then Some(v)
        else if links == [] then Some(Dict([Entry(tag, v)]))
        else Some(Dict(PutEntry([Entry(tag, v)], tag + "_links", List(links))))
  }

  lemma {:induction false} FirstLinkRemoved(ns: seq<Node>)
    requires LinksOf(ns) != []
    ensures var left := RemoveFirst(ns, LinksOf(ns)[0]);
            LinksOf(left) == LinksOf(ns)[1..] && WithoutLinks(left) == WithoutLinks(ns)
  {
    var rest := ns[1..];
    if ns[0].tag == ATOM_LINK_NOTATION {
      assert LinksOf(ns) == [ns[0]] + LinksOf(rest);
      assert WithoutLinks(ns) == WithoutLinks(rest);
    } else {
      assert LinksOf(ns) == LinksOf(rest);
      FirstLinkRemoved(rest);
      assert LinksOf(rest)[0].tag == ATOM_LINK_NOTATION;
      var left := RemoveFirst(rest, LinksOf(rest)[0]);
      assert RemoveFirst(ns, LinksOf(ns)[0]) == [ns[0]] + left;
      assert ([ns[0]] + left)[1..] == left;
      assert LinksOf([ns[0]] + left) == LinksOf(left);
    }
  }

  lemma {:induction false} NoLinksLeft(ns: seq<Node>)
    requires LinksOf(ns) == []
    ensures WithoutLinks(ns) == ns
  {
    if ns != [] {
      assert LinksOf(ns[1..]) == [];
      NoLinksLeft(ns[1..]);
    }
  }

  /** `_get_links`: reads the link elements and takes them out of the node, one by one. */
  method GetLinks(node: Node) returns (links: seq<Value>, rest: Node)
    ensures links == LinkValues(LinksOf(node.children))
    ensures rest == node.(children := WithoutLinks(node.children))
  {
    hide LinkValue, LinksOf, RemoveFirst, WithoutLinks;
    var found := LinksOf(node.children);
    links, rest := [], node;
    assert found[0..] == found;
    for i := 0 to |found|
      invariant rest == node.(children := rest.children)
      invariant LinksOf(rest.children) == found[i..] && WithoutLinks(rest.children) == WithoutLinks(node.children)
      invariant LinkValues(found) == links + LinkValues(found[i..])
    {
      assert found[i..][0] == found[i] && found[i..][1..] == found[i + 1..];
      FirstLinkRemoved(rest.children);
      assert LinkValues(found[i..]) == [LinkValue(found[i])] + LinkValues(found[i + 1..]);
      links := links + [LinkValue(found[i])];
      rest := rest.(children := RemoveFirst(rest.children, found[i]));
    }
    NoLinksLeft(rest.children);
    assert LinkValues(found[|found|..]) == [];
  }

  // ---------- The writer, changing its node and its list of prefixes in place ----------

  class XmlDictSerializer {
    const md: Metadata
    var usedPrefixes: seq<string>

    constructor (metadata: Metadata)
      ensures md == metadata && usedPrefixes == []
    {
      md, usedPrefixes := metadata, [];
    }

    method ToXmlNode(name: string, data: Value) returns (n: Node)
      modifies `usedPrefixes
      ensures n == Print(md, name, data)
      ensures usedPrefixes == old(usedPrefixes) + Prefixes(md, name, data)
      decreases data
    {
      hide Decimal, Find, PrefixesOfItems, PrintEntries, PrintItems, Singular;
      var colon := Find(name, ':');
      if colon < |name| {
        usedPrefixes := usedPrefixes + [name[..colon]];
      }
      assert usedPrefixes == old(usedPrefixes) + PrefixOf(name);
      if data.List? && data.items != [] {
        var children := ItemNodes(Singular(md, name), data.items);
        n := Node(name, [], "", children);
      } else if data.Dict? && data.entries != [] {
        var children := EntryNodes(data.entries);
        n := Node(name, [], "", children);
      } else {
        assert data.Dict? ==> PrefixesOfEntries(md, data.entries) == [];
        n := LeafNode(name, data);
      }
    }

    /** The node of a value without members, with its type attribute. */
    method LeafNode(name: string, data: Value) returns (n: Node)
      requires (data.List? ==> data.items == []) && (data.Dict? ==> data.entries == [])
      ensures n == Print(md, name, data)
    {
      n := Node(name, [], "", []);
      match data {
        case Null => n := n.(attrs := [(XSI_ATTR, "true")]);
        case Bool(b) => n := n.(attrs := [(TYPE_ATTR, md.typeBool)], text := if b then "True" else "False");
        case Int(i) => n := n.(attrs := [(TYPE_ATTR, TYPE_INT)], text := Decimal(i));
        case Long(i) => n := n.(attrs := [(TYPE_ATTR, TYPE_LONG)], text := Decimal(i));
        case Str(s) => n := n.(text := s);
        case List(_) => n := n.(attrs := [(TYPE_ATTR, TYPE_LIST)]);
        case Dict(_) => n := n.(attrs := [(TYPE_ATTR, TYPE_DICT)]);
      }
    }

    /** The loop over the items of a list. */
    method ItemNodes(singular: string, items: seq<Value>) returns (children: seq<Node>)
      modifies `usedPrefixes
      ensures children == PrintItems(md, singular, items)
      ensures usedPrefixes == old(usedPrefixes) + PrefixesOfItems(md, singular, items)
      decreases items
    {
      hide Prefixes, Print;
      children := [];
      assert items[0..] == items;
      for i := 0 to |items|
        invariant PrintItems(md, singular, items) == children + PrintItems(md, singular, items[i..])
        invariant old(usedPrefixes) + PrefixesOfItems(md, singular, items)
                  == usedPrefixes + PrefixesOfItems(md, singular, items[i..])
      {
        assert items[i..][0] == items[i] && items[i..][1..] == items[i + 1..];
        var child := ToXmlNode(singular, items[i]);
        children := children + [child];
      }
    }

    /** The loop over the items of a dict. */
    method EntryNodes(entries: seq<Entry>) returns (children: seq<Node>)
      modifies `usedPrefixes
      ensures children == PrintEntries(md, entries)
      ensures usedPrefixes == old(usedPrefixes) + PrefixesOfEntries(md, entries)
      decreases entries
    {
      hide Prefixes, Print;
      children := [];
      assert entries[0..] == entries;
      for i := 0 to |entries|
        invariant PrintEntries(md, entries) == children + PrintEntries(md, entries[i..])
        invariant old(usedPrefixes) + PrefixesOfEntries(md, entries)
                  == usedPrefixes + PrefixesOfEntries(md, entries[i..])
      {
        assert entries[i..][0] == entries[i] && entries[i..][1..] == entries[i + 1..];
        var child := ToXmlNode(entries[i].key, entries[i].value);
        children := children + [child];
      }
    }

    method AddXmlns(node: Node, hasAtom: bool) returns (n: Node)
      ensures n == node.(attrs := RootAttrs(md, node.attrs, hasAtom, usedPrefixes))
    {
      var attrs := Put(Put(node.attrs, "xmlns", Xmlns(md)), TYPE_XMLNS, Xmlns(md));
      if hasAtom {
        attrs := Put(attrs, ATOM_XMLNS, ATOM_NAMESPACE);
      }
      attrs := Put(attrs, XSI_NIL_ATTR, XSI_NAMESPACE);
      assert usedPrefixes[0..] == usedPrefixes;
      for i := 0 to |usedPrefixes|
        invariant DeclarePrefixes(md, attrs, usedPrefixes[i..]) == RootAttrs(md, node.attrs, hasAtom, usedPrefixes)
      {
        var prefix := usedPrefixes[i];
        assert usedPrefixes[i..][0] == prefix && usedPrefixes[i..][1..] == usedPrefixes[i + 1..];
        if Get(md.extNs, prefix).Some? {
          attrs := Put(attrs, "xmlns:" + prefix, Get(md.extNs, prefix).value);
        }
        if Get(md.extNsComp, prefix).Some? {
          attrs := Put(attrs, "xmlns:" + prefix, Get(md.extNsComp, prefix).value);
        }
      }
      n := node.(attrs := attrs);
    }

    method CreateLinkNodes(doc: Node, links: seq<Value>) returns (n: Option<Node>)
      ensures n.Some? <==> LinkNodes(links).Some?
      ensures n.Some? ==> n.value == doc.(children := doc.children + LinkNodes(links).value)
    {
      hide LinkNode;
      var made := [];
      assert links[0..] == links;
      for i := 0 to |links|
        invariant LinkNodes(links).Some? <==> LinkNodes(links[i..]).Some?
        invariant LinkNodes(links).Some? ==> LinkNodes(links).value == made + LinkNodes(links[i..]).value
      {
        assert links[i..][0] == links[i] && links[i..][1..] == links[i + 1..];
        var link := LinkNode(links[i]);
        if link.None? { return None; }
        made := made + [link.value];
      }
      assert LinkNodes(links[|links|..]) == Some([]);
      n := Some(doc.(children := doc.children + made));
    }

    /** `left` is what the caller's dict holds afterwards: its first link key is popped, whether or not a document comes
        out. */
    method Default(data: Value) returns (doc: Option<Node>, left: Value)
      modifies `usedPrefixes
      ensures doc == ToXml(md, data)
      ensures left == if data.Dict? then Dict(WithoutFirstLink(data.entries)) else data
      ensures data.Dict? && NoLinkKey(data.entries) ==> left == data
      ensures data.Dict? ==> forall i: nat :: FirstLink(data.entries, i) ==>
                left == Dict(data.entries[..i] + data.entries[i + 1..])
    {
      hide Document, FirstLink, FirstLinkKey, IsLinkKey, LinkNodes, NoLinkKey, RootKey, RootValue;
      usedPrefixes, left := [], data;
      if data.Dict? { FirstLinkIs(data.entries); }
      match data {
        case Null => doc := Finish(VIRTUAL_ROOT_KEY, Null, false, Null);
        case Dict(entries) =>
          var i := FirstLinkKey(entries);
          if i == |entries| {
            doc := Finish(RootKey(entries), RootValue(entries), false, Null);
          } else {
            var rest := entries[..i] + entries[i + 1..];
            left := Dict(rest);
            doc := Finish(RootKey(rest), RootValue(rest), true, entries[i].value);
          }
        case _ => doc := None;
      }
    }

    /** The root element, its links and its declarations. */
    method Finish(rootKey: string, rootValue: Value, hasAtom: bool, links: Value) returns (doc: Option<Node>)
      requires usedPrefixes == []
      modifies `usedPrefixes
      ensures !Truthy(links) ==> doc == Some(Document(md, rootKey, rootValue, hasAtom, []))
      ensures Truthy(links) && !links.List? ==> doc == None
      ensures Truthy(links) && links.List? ==>
                doc == if LinkNodes(links.items).None? then None
                       else Some(Document(md, rootKey, rootValue, hasAtom, LinkNodes(links.items).value))
    {
      hide LinkNodes, Prefixes, Print, RootAttrs, Truthy;
      var root := ToXmlNode(rootKey, rootValue);
      assert root.children + [] == root.children;
      assert [] + Prefixes(md, rootKey, rootValue) == Prefixes(md, rootKey, rootValue);
      if Truthy(links) {
        if !links.List? { return None; }
        var linked := CreateLinkNodes(root, links.items);
        if linked.None? { return None; }
        root := linked.value;
      }
      var whole := AddXmlns(root, hasAtom);
      doc := Some(whole);
    }
  }
}
