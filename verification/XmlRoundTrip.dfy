/** Reading a written document gives the data back: for which data, exactly. */
module XmlRoundTrip {
  import opened Lists
  import opened Text
  import opened Xml
  import opened XmlDocument

  // ---------- The declarations on the root ----------

  lemma PrefixedKey(p: string)
    ensures Find("xmlns:" + p, ':') == 5 && ("xmlns:" + p)[..5] == "xmlns" && ("xmlns:" + p)[6..] == p
  {
    FindIn("xmlns", ':', p);
    assert "xmlns:" + p == "xmlns" + [':'] + p;
  }

  predicate IsDeclaration(k: string) {
    k == "xmlns" || k[..Find(k, ':')] == "xmlns"
  }

  lemma {:induction false} DeclarationsVanish(decls: Attrs, attrs: Attrs, k: string, v: string)
    requires IsDeclaration(k)
    ensures ResolveAttrs(decls, Put(attrs, k, v)) == ResolveAttrs(decls, attrs)
  {
    if attrs == [] {
      assert [(k, v)][1..] == [];
    } else {
      var put := Put(attrs, k, v);
      if attrs[0].0 == k {
        assert put[1..] == attrs[1..];
      } else {
        DeclarationsVanish(decls, attrs[1..], k, v);
        assert put[0] == attrs[0] && put[1..] == Put(attrs[1..], k, v);
      }
    }
  }

  lemma PrefixedIsDeclaration(p: string)
    ensures IsDeclaration("xmlns:" + p)
  {
    PrefixedKey(p);
  }

  lemma ReservedKeys()
    ensures TYPE_XMLNS == "xmlns:" + "vnfsvc" && ATOM_XMLNS == "xmlns:" + "atom" && XSI_NIL_ATTR == "xmlns:" + "xsi"
    ensures "xmlns" != TYPE_XMLNS && "xmlns" != ATOM_XMLNS && "xmlns" != XSI_NIL_ATTR
    ensures TYPE_XMLNS != ATOM_XMLNS && TYPE_XMLNS != XSI_NIL_ATTR && ATOM_XMLNS != XSI_NIL_ATTR
  {
    assert |"xmlns"| == 5 && TYPE_XMLNS[6] == 'v' && ATOM_XMLNS[6] == 'a' && XSI_NIL_ATTR[6] == 'x';
  }

  lemma ConstantsAreDeclarations()
    ensures IsDeclaration("xmlns") && IsDeclaration(TYPE_XMLNS) && IsDeclaration(ATOM_XMLNS) && IsDeclaration(XSI_NIL_ATTR)
  {
    hide Find;
    ReservedKeys();
    PrefixedIsDeclaration("vnfsvc");
    PrefixedIsDeclaration("atom");
    PrefixedIsDeclaration("xsi");
    assert IsDeclaration("xmlns");
  }

  lemma PrefixVanishes(md: Metadata, decls: Attrs, attrs: Attrs, p: string)
    ensures ResolveAttrs(decls, DeclarePrefix(md, attrs, p)) == ResolveAttrs(decls, attrs)
  {
    PrefixedIsDeclaration(p);
    var once := match Get(md.extNs, p) case Some(ns) => Put(attrs, "xmlns:" + p, ns) case None => attrs;
    if Get(md.extNs, p).Some? { DeclarationsVanish(decls, attrs, "xmlns:" + p, Get(md.extNs, p).value); }
    if Get(md.extNsComp, p).Some? { DeclarationsVanish(decls, once, "xmlns:" + p, Get(md.extNsComp, p).value); }
  }

  lemma {:induction false} PrefixesVanish(md: Metadata, decls: Attrs, attrs: Attrs, prefixes: seq<string>)
    ensures ResolveAttrs(decls, DeclarePrefixes(md, attrs, prefixes)) == ResolveAttrs(decls, attrs)
    decreases |prefixes|
  {
    if prefixes != [] {
      PrefixVanishes(md, decls, attrs, prefixes[0]);
      PrefixesVanish(md, decls, DeclarePrefix(md, attrs, prefixes[0]), prefixes[1..]);
    }
  }

  lemma RootAttrsResolve(md: Metadata, decls: Attrs, attrs: Attrs, hasAtom: bool, prefixes: seq<string>)
    ensures ResolveAttrs(decls, RootAttrs(md, attrs, hasAtom, prefixes)) == ResolveAttrs(decls, attrs)
  {
    hide DeclarePrefixes, IsDeclaration, Put, ResolveAttrs, Xmlns;
    ConstantsAreDeclarations();
    var a := Put(attrs, "xmlns", Xmlns(md));
    DeclarationsVanish(decls, attrs, "xmlns", Xmlns(md));
    var b := Put(a, TYPE_XMLNS, Xmlns(md));
    DeclarationsVanish(decls, a, TYPE_XMLNS, Xmlns(md));
    var c := if hasAtom then Put(b, ATOM_XMLNS, ATOM_NAMESPACE) else b;
    if hasAtom { DeclarationsVanish(decls, b, ATOM_XMLNS, ATOM_NAMESPACE); }
    DeclarationsVanish(decls, c, XSI_NIL_ATTR, XSI_NAMESPACE);
    PrefixesVanish(md, decls, Put(c, XSI_NIL_ATTR, XSI_NAMESPACE), prefixes);
  }

  lemma GetDeclaredOnce(md: Metadata, attrs: Attrs, p: string, k: string)
    ensures Get(DeclarePrefix(md, attrs, p), k)
            == if k == "xmlns:" + p && NamespaceOf(md, p).Some? then NamespaceOf(md, p) else Get(attrs, k)
  {
    var once := match Get(md.extNs, p) case Some(ns) => Put(attrs, "xmlns:" + p, ns) case None => attrs;
    if Get(md.extNs, p).Some? { GetPut(attrs, "xmlns:" + p, Get(md.extNs, p).value, k); }
    if Get(md.extNsComp, p).Some? { GetPut(once, "xmlns:" + p, Get(md.extNsComp, p).value, k); }
  }

  /** Every prefix used, if it is a known one, is declared with its namespace; nothing else is touched. */
  lemma {:induction false} GetDeclared(md: Metadata, attrs: Attrs, prefixes: seq<string>, k: string)
    ensures (forall p :: p in prefixes && NamespaceOf(md, p).Some? ==> k != "xmlns:" + p) ==>
              Get(DeclarePrefixes(md, attrs, prefixes), k) == Get(attrs, k)
    ensures forall p :: p in prefixes && NamespaceOf(md, p).Some? && k == "xmlns:" + p ==>
              Get(DeclarePrefixes(md, attrs, prefixes), k) == NamespaceOf(md, p)
    decreases |prefixes|
  {
    if prefixes != [] {
      var first, rest := prefixes[0], prefixes[1..];
      GetDeclaredOnce(md, attrs, first, k);
      GetDeclared(md, DeclarePrefix(md, attrs, first), rest, k);
      assert prefixes == [first] + rest;
      forall p | p in prefixes && NamespaceOf(md, p).Some? && k == "xmlns:" + p
        ensures Get(DeclarePrefixes(md, attrs, prefixes), k) == NamespaceOf(md, p)
      {
        if p !in rest {
          forall q | q in rest && k == "xmlns:" + q ensures q == p { PrefixedKey(q); PrefixedKey(p); }
        }
      }
    }
  }

  lemma ReservedUntouched(md: Metadata, attrs: Attrs, prefixes: seq<string>, k: string)
    requires forall p :: p in prefixes ==> p !in RESERVED
    requires k in {"xmlns", TYPE_XMLNS, ATOM_XMLNS, XSI_NIL_ATTR}
    ensures Get(DeclarePrefixes(md, attrs, prefixes), k) == Get(attrs, k)
  {
    GetDeclared(md, attrs, prefixes, k);
    ReservedKeys();
    forall p | p in prefixes ensures k != "xmlns:" + p {
      PrefixedKey(p);
      PrefixedKey("vnfsvc");
      PrefixedKey("atom");
      PrefixedKey("xsi");
      assert "vnfsvc" in RESERVED && "atom" in RESERVED && "xsi" in RESERVED;
      assert |"xmlns"| < |"xmlns:" + p|;
    }
  }

  lemma BaseDeclared(md: Metadata, attrs: Attrs, hasAtom: bool)
    ensures var base := BaseAttrs(md, attrs, hasAtom);
            && Get(base, "xmlns") == Some(Xmlns(md)) && Get(base, TYPE_XMLNS) == Some(Xmlns(md))
            && Get(base, XSI_NIL_ATTR) == Some(XSI_NAMESPACE)
            && Get(base, ATOM_XMLNS) == if hasAtom then Some(ATOM_NAMESPACE) else Get(attrs, ATOM_XMLNS)
  {
    hide *;
    ReservedKeys();
    GetBase(md, attrs, hasAtom, "xmlns");
    GetBase(md, attrs, hasAtom, TYPE_XMLNS);
    GetBase(md, attrs, hasAtom, XSI_NIL_ATTR);
    GetBase(md, attrs, hasAtom, ATOM_XMLNS);
  }

  lemma GetBase(md: Metadata, attrs: Attrs, hasAtom: bool, k: string)
    ensures Get(BaseAttrs(md, attrs, hasAtom), k) ==
            if k == XSI_NIL_ATTR then Some(XSI_NAMESPACE)
            else if k == ATOM_XMLNS && hasAtom then Some(ATOM_NAMESPACE)
            else if k == TYPE_XMLNS || k == "xmlns" then Some(Xmlns(md))
            else Get(attrs, k)
  {
    hide Get, Put, Xmlns;
    var a := Put(attrs, "xmlns", Xmlns(md));
    GetPut(attrs, "xmlns", Xmlns(md), k);
    var b := Put(a, TYPE_XMLNS, Xmlns(md));
    GetPut(a, TYPE_XMLNS, Xmlns(md), k);
    GetPut(b, ATOM_XMLNS, ATOM_NAMESPACE, k);
    GetPut(if hasAtom then Put(b, ATOM_XMLNS, ATOM_NAMESPACE) else b, XSI_NIL_ATTR, XSI_NAMESPACE, k);
  }

  /** The root of a written document declares all that its names need. */
  lemma RootDeclares(md: Metadata, attrs: Attrs, hasAtom: bool, prefixes: seq<string>)
    requires forall p :: p in prefixes ==> p !in RESERVED
    ensures Declares(md, RootAttrs(md, attrs, hasAtom, prefixes), prefixes)
    ensures Get(RootAttrs(md, attrs, hasAtom, prefixes), ATOM_XMLNS) == if hasAtom then Some(ATOM_NAMESPACE) else Get(attrs, ATOM_XMLNS)
  {
    var base := BaseAttrs(md, attrs, hasAtom);
    BaseDeclared(md, attrs, hasAtom);
    hide BaseAttrs, DeclarePrefixes, Get, NamespaceOf, Xmlns;
    ReservedUntouched(md, base, prefixes, "xmlns");
    ReservedUntouched(md, base, prefixes, TYPE_XMLNS);
    ReservedUntouched(md, base, prefixes, XSI_NIL_ATTR);
    ReservedUntouched(md, base, prefixes, ATOM_XMLNS);
    forall p | p in prefixes && NamespaceOf(md, p).Some?
      ensures Get(RootAttrs(md, attrs, hasAtom, prefixes), "xmlns:" + p) == NamespaceOf(md, p)
    {
      GetDeclared(md, base, prefixes, "xmlns:" + p);
    }
  }

  // ---------- Well-formed values use neither reserved prefixes nor link elements ----------

  lemma {:induction false} PrefixesAllowed(md: Metadata, name: string, v: Value)
    requires WellFormed(md, name, v)
    ensures forall p :: p in Prefixes(md, name, v) ==> p !in RESERVED
    decreases v
  {
    match v
    case List(items) => if items != [] { ItemPrefixesAllowed(md, Singular(md, name), items); }
    case Dict(entries) => EntryPrefixesAllowed(md, entries);
    case _ =>
  }

  lemma {:induction false} ItemPrefixesAllowed(md: Metadata, name: string, items: seq<Value>)
    requires AllWellFormed(md, name, items)
    ensures forall p :: p in PrefixesOfItems(md, name, items) ==> p !in RESERVED
    decreases items
  {
    if items != [] {
      PrefixesAllowed(md, name, items[0]);
      ItemPrefixesAllowed(md, name, items[1..]);
    }
  }

  lemma {:induction false} EntryPrefixesAllowed(md: Metadata, entries: seq<Entry>)
    requires EntriesWellFormed(md, entries)
    ensures forall p :: p in PrefixesOfEntries(md, entries) ==> p !in RESERVED
    decreases entries
  {
    if entries != [] {
      PrefixesAllowed(md, entries[0].key, entries[0].value);
      EntryPrefixesAllowed(md, entries[1..]);
    }
  }

  /** No namespace in use is that of the atom links. */
  predicate NoAtom(md: Metadata) {
    && Xmlns(md) != ATOM_NAMESPACE
    && (forall e :: e in md.extNs ==> e.1 != ATOM_NAMESPACE)
    && (forall e :: e in md.extNsComp ==> e.1 != ATOM_NAMESPACE)
  }

  lemma SameNamespace(a: string, x: string, b: string, y: string)
    requires '}' !in a && '}' !in b && Qualified(a, x) == Qualified(b, y)
    ensures a == b
  {
    FindIn("{" + a, '}', x);
    FindIn("{" + b, '}', y);
    assert Qualified(a, x) == ("{" + a) + ['}'] + x && Qualified(b, y) == ("{" + b) + ['}'] + y;
    assert ("{" + a)[1..] == a && ("{" + b)[1..] == b;
  }

  lemma AtomNamespace()
    ensures '}' !in ATOM_NAMESPACE
  {
  }

  lemma NoLinkTag(md: Metadata, decls: Attrs, name: string)
    requires NameOk(md, name) && Declares(md, decls, PrefixOf(name)) && NoAtom(md)
    ensures ResolveTag(decls, name).Some? && ResolveTag(decls, name).value != ATOM_LINK_NOTATION
  {
    var i := Find(name, ':');
    AtomNamespace();
    if i < |name| {
      var p := name[..i];
      assert p in PrefixOf(name);
      var ns := NamespaceOf(md, p).value;
      if Get(md.extNsComp, p).Some? { GetIsMember(md.extNsComp, p); } else { GetIsMember(md.extNs, p); }
      if ResolveTag(decls, name).value == ATOM_LINK_NOTATION { SameNamespace(ns, name[i + 1..], ATOM_NAMESPACE, "link"); }
    } else {
      if ResolveTag(decls, name).value == ATOM_LINK_NOTATION { SameNamespace(Xmlns(md), name, ATOM_NAMESPACE, "link"); }
    }
  }

  predicate NoLinks(ns: seq<Node>) {
    forall n :: n in ns ==> n.tag != ATOM_LINK_NOTATION
  }

  lemma PrintedNoLink(md: Metadata, decls: Attrs, name: string, v: Value)
    requires WellFormed(md, name, v) && Declares(md, decls, Prefixes(md, name, v)) && NoAtom(md)
    requires Resolve(decls, Print(md, name, v)).Some?
    ensures Resolve(decls, Print(md, name, v)).value.tag != ATOM_LINK_NOTATION
  {
    assert Declares(md, decls, PrefixOf(name));
    NoLinkTag(md, decls, name);
    assert Print(md, name, v).tag == name;
  }

  lemma {:induction false} ItemsNoLinks(md: Metadata, decls: Attrs, name: string, items: seq<Value>)
    requires AllWellFormed(md, name, items) && Declares(md, decls, PrefixesOfItems(md, name, items)) && NoAtom(md)
    requires ResolveAll(decls, PrintItems(md, name, items)).Some?
    ensures NoLinks(ResolveAll(decls, PrintItems(md, name, items)).value)
    decreases items
  {
    hide Declares, NoAtom, Prefixes, Print, Resolve, WellFormed;
    if items != [] {
      DeclaresParts(md, decls, Prefixes(md, name, items[0]), PrefixesOfItems(md, name, items[1..]));
      var printed := PrintItems(md, name, items);
      assert printed[0] == Print(md, name, items[0]) && printed[1..] == PrintItems(md, name, items[1..]);
      ItemsNoLinks(md, decls, name, items[1..]);
      PrintedNoLink(md, decls, name, items[0]);
    }
  }

  lemma {:induction false} EntriesNoLinks(md: Metadata, decls: Attrs, entries: seq<Entry>)
    requires EntriesWellFormed(md, entries) && Declares(md, decls, PrefixesOfEntries(md, entries)) && NoAtom(md)
    requires ResolveAll(decls, PrintEntries(md, entries)).Some?
    ensures NoLinks(ResolveAll(decls, PrintEntries(md, entries)).value)
    decreases entries
  {
    hide Declares, NoAtom, Prefixes, Print, Resolve, WellFormed;
    if entries != [] {
      var name := entries[0].key;
      DeclaresParts(md, decls, Prefixes(md, name, entries[0].value), PrefixesOfEntries(md, entries[1..]));
      var printed := PrintEntries(md, entries);
      assert printed[0] == Print(md, name, entries[0].value) && printed[1..] == PrintEntries(md, entries[1..]);
      EntriesNoLinks(md, decls, entries[1..]);
      PrintedNoLink(md, decls, name, entries[0].value);
    }
  }

  lemma ChildrenNoLinks(md: Metadata, decls: Attrs, name: string, v: Value)
    requires WellFormed(md, name, v) && Declares(md, decls, Prefixes(md, name, v)) && NoAtom(md)
    requires ResolveAll(decls, Print(md, name, v).children).Some?
    ensures NoLinks(ResolveAll(decls, Print(md, name, v).children).value)
  {
    if v.List? && v.items != [] {
      ItemsNoLinks(md, decls, Singular(md, name), v.items);
    } else if v.Dict? && v.entries != [] {
      EntriesNoLinks(md, decls, v.entries);
    }
  }

  // ---------- Links ----------

  lemma {:induction false} Separated(ns: seq<Node>, links: seq<Node>)
    requires NoLinks(ns) && forall n :: n in links ==> n.tag == ATOM_LINK_NOTATION
    ensures LinksOf(ns + links) == links && WithoutLinks(ns + links) == ns
    decreases |ns| + |links|
  {
    var all := ns + links;
    if ns != [] {
      assert all[0] == ns[0] && all[1..] == ns[1..] + links;
      Separated(ns[1..], links);
    } else if links != [] {
      assert all == links && [] + links[1..] == links[1..];
      Separated([], links[1..]);
    } else {
      assert all == [];
    }
  }

  /** What a link reads back as. */
  function Canonical(link: Value): Value {
    match LinkNode(link)
    case Some(n) => Dict([Entry("rel", AttrValue(n.attrs, "rel")), Entry("href", AttrValue(n.attrs, "href"))])
    case None => Null
  }

  function CanonicalAll(links: seq<Value>): (r: seq<Value>)
    ensures |r| == |links| && forall i :: 0 <= i < |links| ==> r[i] == Canonical(links[i])
  {
    if links == [] then [] else [Canonical(links[0])] + CanonicalAll(links[1..])
  }

  lemma PlainAttr(decls: Attrs, k: string, v: string, rest: Attrs)
    requires ':' !in k && k != "xmlns" && ResolveAttrs(decls, rest).Some?
    ensures ResolveAttrs(decls, [(k, v)] + rest) == Some([(k, v)] + ResolveAttrs(decls, rest).value)
  {
    NotFound(k, ':');
    assert ([(k, v)] + rest)[1..] == rest && k[..|k|] == k;
  }

  lemma LinkTag(decls: Attrs)
    requires Get(decls, ATOM_XMLNS) == Some(ATOM_NAMESPACE)
    ensures ResolveTag(decls, "atom:link") == Some(ATOM_LINK_NOTATION)
  {
    assert "atom:link" == "atom" + [':'] + "link" && ':' !in "atom";
    FindIn("atom", ':', "link");
    ReservedKeys();
  }

  lemma LinkAttrs(decls: Attrs, rel: string, href: string)
    ensures ResolveAttrs(decls, [("rel", rel), ("href", href)]) == Some([("rel", rel), ("href", href)])
  {
    assert ':' !in "rel" && ':' !in "href" && |"rel"| == 3 && |"href"| == 4 && |"xmlns"| == 5;
    assert ResolveAttrs(decls, []) == Some([]);
    PlainAttr(decls, "href", href, []);
    assert [("href", href)] + [] == [("href", href)];
    PlainAttr(decls, "rel", rel, [("href", href)]);
    assert [("rel", rel)] + [("href", href)] == [("rel", rel), ("href", href)];
  }

  lemma LinkResolves(decls: Attrs, link: Value)
    requires LinkNode(link).Some? && Get(decls, ATOM_XMLNS) == Some(ATOM_NAMESPACE)
    ensures var n := Resolve(decls, LinkNode(link).value);
            n.Some? && n.value.tag == ATOM_LINK_NOTATION && LinkValue(n.value) == Canonical(link)
  {
    var raw := LinkNode(link).value;
    LinkTag(decls);
    LinkAttrs(decls, raw.attrs[0].1, raw.attrs[1].1);
    assert raw.attrs == [("rel", raw.attrs[0].1), ("href", raw.attrs[1].1)];
    assert ResolveAll(decls, []) == Some([]);
  }

  lemma {:induction false} LinksResolve(decls: Attrs, links: seq<Value>)
    requires LinkNodes(links).Some? && (links != [] ==> Get(decls, ATOM_XMLNS) == Some(ATOM_NAMESPACE))
    ensures var ns := ResolveAll(decls, LinkNodes(links).value);
            && ns.Some? && (forall n :: n in ns.value ==> n.tag == ATOM_LINK_NOTATION)
            && LinkValues(ns.value) == CanonicalAll(links)
  {
    if links != [] {
      LinkResolves(decls, links[0]);
      LinksResolve(decls, links[1..]);
      var nodes := LinkNodes(links).value;
      assert nodes[0] == LinkNode(links[0]).value && nodes[1..] == LinkNodes(links[1..]).value;
      HeadAndTail(decls, nodes);
    }
  }

  lemma {:induction false} ResolveAppend(decls: Attrs, a: seq<Node>, b: seq<Node>)
    requires ResolveAll(decls, a).Some? && ResolveAll(decls, b).Some?
    ensures ResolveAll(decls, a + b) == Some(ResolveAll(decls, a).value + ResolveAll(decls, b).value)
  {
    if a == [] {
      assert a + b == b && [] + ResolveAll(decls, b).value == ResolveAll(decls, b).value;
    } else {
      assert (a + b)[0] == a[0] && (a + b)[1..] == a[1..] + b;
      ResolveAppend(decls, a[1..], b);
      HeadAndTail(decls, a + b);
      HeadAndTail(decls, a);
      var x, y, z := [Resolve(decls, a[0]).value], ResolveAll(decls, a[1..]).value, ResolveAll(decls, b).value;
      assert x + (y + z) == x + y + z;
    }
  }

  lemma NodeParts(decls: Attrs, n: Node)
    requires Resolve(decls, n).Some?
    ensures ResolveTag(decls, n.tag).Some? && ResolveAttrs(decls, n.attrs).Some? && ResolveAll(decls, n.children).Some?
    ensures Resolve(decls, n).value == Node(ResolveTag(decls, n.tag).value, ResolveAttrs(decls, n.attrs).value, n.text,
                                            ResolveAll(decls, n.children).value)
  {
  }

  lemma NodeOfParts(decls: Attrs, n: Node)
    requires ResolveTag(decls, n.tag).Some? && ResolveAttrs(decls, n.attrs).Some? && ResolveAll(decls, n.children).Some?
    ensures Resolve(decls, n) == Some(Node(ResolveTag(decls, n.tag).value, ResolveAttrs(decls, n.attrs).value, n.text,
                                           ResolveAll(decls, n.children).value))
  {
  }

  /** The root of a written document, after parsing: the printed value with the links after its own children. */
  lemma DocumentResolves(md: Metadata, key: string, v: Value, hasAtom: bool, links: seq<Value>)
    requires WellFormed(md, key, v) && TagsDistinct(md) && NoAtom(md)
    requires LinkNodes(links).Some? && (links != [] ==> hasAtom)
    ensures var root := Document(md, key, v, hasAtom, LinkNodes(links).value);
            var n := Resolve(root.attrs, root);
            && n.Some? && GetKey(md, n.value.tag) == key
            && LinkValues(LinksOf(n.value.children)) == CanonicalAll(links)
            && Read(md, n.value.(children := WithoutLinks(n.value.children))) == Some(Seen(md, v))
  {
    var raw, prefixes := Print(md, key, v), Prefixes(md, key, v);
    var nodes := LinkNodes(links).value;
    var root := Document(md, key, v, hasAtom, nodes);
    var decls := RootAttrs(md, raw.attrs, hasAtom, prefixes);
    assert root == raw.(attrs := decls, children := raw.children + nodes);
    hide *;
    PrefixesAllowed(md, key, v);
    RootDeclares(md, raw.attrs, hasAtom, prefixes);
    NodeRoundTrip(md, decls, key, v);
    NodeParts(decls, raw);
    ChildrenNoLinks(md, decls, key, v);
    LinksResolve(decls, links);
    ResolveAppend(decls, raw.children, nodes);
    RootAttrsResolve(md, decls, raw.attrs, hasAtom, prefixes);
    NodeOfParts(decls, root);
    var own, linked := ResolveAll(decls, raw.children).value, ResolveAll(decls, nodes).value;
    Separated(own, linked);
    var n := Resolve(decls, root).value;
    assert n.(children := own) == Resolve(decls, raw).value;
  }

  /** What a written document reads back as. */
  function Back(key: string, v: Value, links: seq<Value>): Value {
    if key == VIRTUAL_ROOT_KEY then v
    else if links == [] then Dict([Entry(key, v)])
    else Dict([Entry(key, v), Entry(key + "_links", List(CanonicalAll(links)))])
  }

  /** The reader's answer once the root is resolved, its links are split off and its value is read. */
  lemma ReadsBack(md: Metadata, root: Node, n: Node, key: string, v: Value, links: seq<Value>)
    requires Resolve(root.attrs, root) == Some(n) && GetKey(md, n.tag) == key
    requires LinkValues(LinksOf(n.children)) == CanonicalAll(links)
    requires Read(md, n.(children := WithoutLinks(n.children))) == Some(v)
    ensures FromXml(md, root) == Some(Back(key, v, links))
  {
    hide Resolve, Read, GetKey, LinkValues, LinksOf, WithoutLinks, CanonicalAll;
    var kept, linked := [Entry(key, v)], List(CanonicalAll(links));
    assert |key + "_links"| != |key| && !HasEntry(kept, key + "_links");
    PutEntryNew(kept, key + "_links", linked);
    assert kept + [Entry(key + "_links", linked)] == [Entry(key, v), Entry(key + "_links", linked)];
    assert links == [] <==> CanonicalAll(links) == [];
  }

  /** A written document reads back as its root entry with its links, or as the value under the virtual root; without a
      namespace in the metadata the value comes back without its types. */
  lemma DocumentReads(md: Metadata, key: string, v: Value, hasAtom: bool, links: seq<Value>)
    requires WellFormed(md, key, v) && TagsDistinct(md) && NoAtom(md)
    requires LinkNodes(links).Some? && (links != [] ==> hasAtom)
    ensures FromXml(md, Document(md, key, v, hasAtom, LinkNodes(links).value)) == Some(Back(key, Seen(md, v), links))
  {
    hide *;
    DocumentResolves(md, key, v, hasAtom, links);
    var root := Document(md, key, v, hasAtom, LinkNodes(links).value);
    ReadsBack(md, root, Resolve(root.attrs, root).value, key, Seen(md, v), links);
  }

  // ---------- When a document survives ----------

  /** Equal as dicts, whatever the order of the items. */
  predicate SameDict(a: Value, b: Value) {
    && a.Dict? && b.Dict? && |a.entries| == |b.entries|
    && forall e :: e in a.entries ==> GetEntry(b.entries, e.key) == Some(e.value)
  }

  predicate SameList(a: Value, b: Value) {
    a.List? && b.List? && |a.items| == |b.items| && forall i :: 0 <= i < |a.items| ==> SameDict(a.items[i], b.items[i])
  }

  predicate Alike(a: Value, b: Value) {
    a == b || SameList(a, b)
  }

  predicate SameData(a: Value, b: Value) {
    if a.Dict? then
      && b.Dict? && |a.entries| == |b.entries|
      && forall e :: e in a.entries ==> var w := GetEntry(b.entries, e.key); w.Some? && Alike(e.value, w.value)
    else a == b
  }

  predicate LinkOk(link: Value) {
    && link.Dict? && |link.entries| == 2
    && GetEntry(link.entries, "rel").Some? && GetEntry(link.entries, "rel").value.Str?
    && GetEntry(link.entries, "href").Some? && GetEntry(link.entries, "href").value.Str?
  }

  predicate LinkListOk(v: Value) {
    v.List? && v.items != [] && forall link :: link in v.items ==> LinkOk(link)
  }

  /** No key ends in `_links`; or the data is one entry and the non-empty list of its links, under its name with
      `_links`, and no other key before that one ends in `_links`. */
  ghost predicate Survives(data: Value) {
    data.Dict? ==>
      || NoLinkKey(data.entries)
      || (|data.entries| == 2
          && exists l: nat | l < 2 && FirstLink(data.entries, l) ::
               data.entries[l].key == LinksOfName(data.entries[1 - l].key) && LinkListOk(data.entries[l].value))
  }

  /** The same by the position of the first link key. */
  lemma SurvivesIs(data: Value)
    requires data.Dict?
    ensures Survives(data) <==>
              var i := FirstLinkKey(data.entries);
              i == |data.entries|
              || (|data.entries| == 2 && data.entries[i].key == data.entries[1 - i].key + "_links"
                  && LinkListOk(data.entries[i].value))
  {
    hide FirstLink, FirstLinkKey, LinkListOk, NoLinkKey;
    var es, i := data.entries, FirstLinkKey(data.entries);
    FirstLinkIs(es);
    if i < |es| == 2 {
      assert FirstLink(es, i);
    }
  }

  /** The data `_to_xml` is for: a dict with distinct, non-empty keys, none of them the virtual root, whose values print
      well; links with a `rel` and a `href` text where links are printed. */
  predicate Writable(md: Metadata, data: Value) {
    && (data.Null? || data.Dict?)
    && (data.Dict? ==>
          var rest := WithoutFirstLink(data.entries);
          && UniqueEntries(data.entries)
          && (forall e :: e in data.entries ==> e.key != "" && e.key != VIRTUAL_ROOT_KEY)
          && WellFormed(md, RootKey(rest), RootValue(rest)))
    && (data.Null? ==> NameOk(md, VIRTUAL_ROOT_KEY))
  }

  lemma {:induction false} GetEntryOf(entries: seq<Entry>, i: nat)
    requires i < |entries| && UniqueEntries(entries)
    ensures GetEntry(entries, entries[i].key) == Some(entries[i].value)
  {
    if i > 0 {
      assert entries[0].key != entries[i].key;
      forall j, k | 0 <= j < k < |entries[1..]| ensures entries[1..][j].key != entries[1..][k].key {
        assert entries[j + 1].key != entries[k + 1].key;
      }
      GetEntryOf(entries[1..], i - 1);
    }
  }

  lemma {:induction false} GetEntryNone(entries: seq<Entry>, k: string)
    requires forall e :: e in entries ==> e.key != k
    ensures GetEntry(entries, k) == None
  {
    if entries != [] {
      assert entries[0] in entries && forall e :: e in entries[1..] ==> e in entries;
      GetEntryNone(entries[1..], k);
    }
  }

  lemma SameAsItself(entries: seq<Entry>)
    requires UniqueEntries(entries)
    ensures SameData(Dict(entries), Dict(entries))
  {
    forall e | e in entries ensures GetEntry(entries, e.key) == Some(e.value) {
      var i :| 0 <= i < |entries| && entries[i] == e;
      GetEntryOf(entries, i);
    }
  }

  /** A link survives exactly when it has nothing but its `rel` and its `href`. */
  lemma LinkSame(link: Value)
    requires LinkNode(link).Some?
    ensures SameDict(link, Canonical(link)) <==> LinkOk(link)
  {
    var back := Canonical(link).entries;
    var rel, href := GetEntry(link.entries, "rel").value, GetEntry(link.entries, "href").value;
    CanonicalIs(link, rel.s, href.s);
    assert "rel" != "href" by { assert |"rel"| != |"href"|; }
    assert back[1..] == [Entry("href", href)];
    assert GetEntry(back, "rel") == Some(rel) && GetEntry(back, "href") == Some(href);
    if LinkOk(link) {
      EntryAt(link.entries, "rel");
      EntryAt(link.entries, "href");
      assert link.entries == [link.entries[0], link.entries[1]];
    }
  }

  lemma CanonicalIs(link: Value, rel: string, href: string)
    requires LinkNode(link) == Some(Node("atom:link", [("rel", rel), ("href", href)], "", []))
    ensures Canonical(link) == Dict([Entry("rel", Str(rel)), Entry("href", Str(href))])
  {
    var attrs := [("rel", rel), ("href", href)];
    assert "rel" != "href" by { assert |"rel"| != |"href"|; }
    assert attrs[0].0 == "rel" && attrs[1..] == [("href", href)];
    assert Get(attrs, "rel") == Some(rel) && Get(attrs[1..], "href") == Some(href) && Get(attrs, "href") == Some(href);
  }

  lemma {:induction false} EntryAt(entries: seq<Entry>, k: string)
    requires GetEntry(entries, k).Some?
    ensures Entry(k, GetEntry(entries, k).value) in entries
  {
    if entries[0].key != k { EntryAt(entries[1..], k); }
  }

  lemma LinkListSame(links: seq<Value>)
    requires LinkNodes(links).Some?
    ensures SameList(List(links), List(CanonicalAll(links))) <==> forall link :: link in links ==> LinkOk(link)
  {
    AllLinkNodes(links);
    forall i | 0 <= i < |links| ensures SameDict(links[i], CanonicalAll(links)[i]) <==> LinkOk(links[i]) {
      assert links[i] in links;
      LinkSame(links[i]);
    }
  }

  // ---------- Values read without their types ----------

  lemma {:induction false} GetErased(entries: seq<Entry>, k: string)
    ensures GetEntry(EraseEntries(entries), k) == match GetEntry(entries, k) case Some(v) => Some(Erase(v)) case None => None
  {
    if entries != [] {
      GetErased(entries[1..], k);
      var erased := EraseEntries(entries);
      assert erased[0] == Entry(entries[0].key, Erase(entries[0].value)) && erased[1..] == EraseEntries(entries[1..]);
    }
  }

  lemma {:induction false} UntypedEntries(entries: seq<Entry>)
    ensures EntriesUntyped(entries) <==> forall e :: e in entries ==> Untyped(e.value)
  {
    if entries != [] {
      UntypedEntries(entries[1..]);
      assert entries == [entries[0]] + entries[1..];
    }
  }

  lemma {:induction false} UntypedItems(items: seq<Value>)
    ensures AllUntyped(items) <==> forall v :: v in items ==> Untyped(v)
  {
    if items != [] {
      UntypedItems(items[1..]);
      assert AllUntyped(items) <==> Untyped(items[0]) && AllUntyped(items[1..]);
      if AllUntyped(items) {
        forall v | v in items ensures Untyped(v) {
          assert v == items[0] || v in items[1..];
        }
      } else if !Untyped(items[0]) {
        assert items[0] in items;
      } else {
        var v :| v in items[1..] && !Untyped(v);
        assert v in items;
      }
    }
  }

  lemma {:induction false} ErasedItem(items: seq<Value>, i: nat)
    requires i < |items|
    ensures EraseItems(items)[i] == Erase(items[i])
  {
    if i > 0 { ErasedItem(items[1..], i - 1); }
  }

  /** Each entry of a dict is found again, without its types. */
  lemma ErasedAt(entries: seq<Entry>, e: Entry)
    requires UniqueEntries(entries) && e in entries
    ensures GetEntry(EraseEntries(entries), e.key) == Some(Erase(e.value))
  {
    var i :| 0 <= i < |entries| && entries[i] == e;
    GetEntryOf(entries, i);
    GetErased(entries, e.key);
  }

  lemma SameDictErased(v: Value)
    requires v.Dict? ==> UniqueEntries(v.entries)
    requires SameDict(v, Erase(v))
    ensures Untyped(v)
  {
    hide GetEntry, UniqueEntries;
    UntypedEntries(v.entries);
    forall e | e in v.entries ensures Untyped(e.value) {
      ErasedAt(v.entries, e);
      ErasedSame(e.value);
    }
  }

  /** The dicts of a list have distinct keys. */
  predicate DictsOk(v: Value) {
    v.List? ==> forall item :: item in v.items && item.Dict? ==> UniqueEntries(item.entries)
  }

  lemma {:induction false} WellFormedItems(md: Metadata, name: string, items: seq<Value>)
    requires AllWellFormed(md, name, items)
    ensures forall item :: item in items && item.Dict? ==> UniqueEntries(item.entries)
  {
    if items != [] {
      WellFormedItems(md, name, items[1..]);
      assert items == [items[0]] + items[1..];
      if items[0].Dict? { assert WellFormed(md, name, items[0]); }
    }
  }

  lemma WellFormedDicts(md: Metadata, name: string, v: Value)
    requires WellFormed(md, name, v)
    ensures DictsOk(v)
  {
    hide UniqueEntries;
    if v.List? && v.items != [] { WellFormedItems(md, Singular(md, name), v.items); }
  }

  /** A value is alike after reading exactly when its types are read or it needs none. */
  lemma AlikeSeen(md: Metadata, v: Value)
    requires DictsOk(v)
    ensures Alike(v, Seen(md, v)) <==> md.xmlns != "" || Untyped(v)
  {
    hide SameDict, UniqueEntries;
    ErasedSame(v);
    if SameList(v, Erase(v)) {
      UntypedItems(v.items);
      forall item | item in v.items ensures Untyped(item) {
        var i :| 0 <= i < |v.items| && v.items[i] == item;
        ErasedItem(v.items, i);
        SameDictErased(item);
      }
    }
  }

  lemma {:induction false} WellFormedEntries(md: Metadata, entries: seq<Entry>)
    requires EntriesWellFormed(md, entries)
    ensures forall e :: e in entries ==> DictsOk(e.value)
  {
    hide DictsOk, WellFormed;
    if entries != [] {
      WellFormedDicts(md, entries[0].key, entries[0].value);
      WellFormedEntries(md, entries[1..]);
      assert entries == [entries[0]] + entries[1..];
    }
  }

  lemma AlikeErased(md: Metadata, entries: seq<Entry>)
    requires md.xmlns == "" && UniqueEntries(entries) && forall e :: e in entries ==> DictsOk(e.value)
    ensures SameData(Dict(entries), Erase(Dict(entries))) <==> Untyped(Dict(entries))
  {
    hide Alike, DictsOk, GetEntry, UniqueEntries;
    UntypedEntries(entries);
    if entries != [] {
      forall e | e in entries
        ensures GetEntry(EraseEntries(entries), e.key) == Some(Erase(e.value))
        ensures Alike(e.value, Erase(e.value)) <==> Untyped(e.value)
      {
        ErasedAt(entries, e);
        AlikeSeen(md, e.value);
      }
    }
  }

  /** What comes back of data that was written. */
  function Returned(md: Metadata, data: Value): Option<Value> {
    match ToXml(md, data)
    case None => None
    case Some(doc) => FromXml(md, doc)
  }

  lemma PrintedWithoutAtom(md: Metadata, name: string, v: Value)
    ensures Get(Print(md, name, v).attrs, ATOM_XMLNS) == None
  {
    hide Decimal, PrintEntries, PrintItems;
    assert ATOM_XMLNS[1] == 'm' && XSI_ATTR[1] == 's' && TYPE_ATTR[1] == 'n';
  }

  /** A written document declares the namespace of atom links exactly when the data has a link key, links or none. */
  lemma AtomDeclared(md: Metadata, data: Value)
    requires Writable(md, data) && ToXml(md, data).Some?
    ensures Get(ToXml(md, data).value.attrs, "xmlns:atom")
         == if data.Dict? && !NoLinkKey(data.entries) then Some(ATOM_NAMESPACE) else None
  {
    var doc := ToXml(md, data).value;
    if data.Null? {
      NoPrefixes(md, VIRTUAL_ROOT_KEY, Null, false);
    } else {
      var es, rest := data.entries, WithoutFirstLink(data.entries);
      FirstLinkIs(es);
      hide FirstLinkKey, LinkNodes, NoLinkKey, RootAttrs, RootKey, RootValue, Truthy, UniqueEntries, WellFormed;
      NoPrefixes(md, RootKey(rest), RootValue(rest), FirstLinkKey(es) < |es|);
    }
  }

  lemma NoPrefixes(md: Metadata, key: string, v: Value, hasAtom: bool)
    requires WellFormed(md, key, v)
    ensures Get(RootAttrs(md, Print(md, key, v).attrs, hasAtom, Prefixes(md, key, v)), ATOM_XMLNS)
         == if hasAtom then Some(ATOM_NAMESPACE) else None
  {
    PrefixesAllowed(md, key, v);
    PrintedWithoutAtom(md, key, v);
    RootDeclares(md, Print(md, key, v).attrs, hasAtom, Prefixes(md, key, v));
  }

  predicate RoundTrips(md: Metadata, data: Value) {
    var back := Returned(md, data);
    back.Some? && SameData(data, back.value)
  }

  predicate Plain(data: Value) {
    data.Dict? ==> FirstLinkKey(data.entries) == |data.entries|
  }

  /** Data without links reads back as its root entry, or as the value under the virtual root. */
  lemma PlainReads(md: Metadata, data: Value)
    requires Writable(md, data) && TagsDistinct(md) && NoAtom(md) && Plain(data)
    ensures Returned(md, data) ==
            Some(if data.Null? then Null else Back(RootKey(data.entries), Seen(md, RootValue(data.entries)), []))
  {
    assert LinkNodes([]) == Some([]);
    if data.Null? {
      DocumentReads(md, VIRTUAL_ROOT_KEY, Null, false, []);
    } else {
      DocumentReads(md, RootKey(data.entries), RootValue(data.entries), false, []);
    }
  }

  lemma RootOf(rest: seq<Entry>)
    requires forall e :: e in rest ==> e.key != "" && e.key != VIRTUAL_ROOT_KEY
    ensures |rest| == 1 ==> RootKey(rest) == rest[0].key && RootValue(rest) == rest[0].value && rest == [Entry(rest[0].key, rest[0].value)]
    ensures |rest| == 1 ==> RootKey(rest) != VIRTUAL_ROOT_KEY
    ensures |rest| != 1 ==> RootKey(rest) == VIRTUAL_ROOT_KEY && RootValue(rest) == Dict(rest)
  {
    if |rest| == 1 { assert rest[0] in rest; } else { GetEntryNone(rest, VIRTUAL_ROOT_KEY); }
  }

  function LinkedBack(md: Metadata, rest: seq<Entry>, links: Value): Option<Value> {
    var v := Seen(md, RootValue(rest));
    if !Truthy(links) then Some(Back(RootKey(rest), v, []))
    else if !links.List? || LinkNodes(links.items).None? then None
    else Some(Back(RootKey(rest), v, links.items))
  }

  lemma WritesLinked(md: Metadata, data: Value, i: nat)
    requires data.Dict? && i == FirstLinkKey(data.entries) && i < |data.entries|
    ensures var links, rest := data.entries[i].value, WithoutFirstLink(data.entries);
            ToXml(md, data) ==
            if !Truthy(links) then Some(Document(md, RootKey(rest), RootValue(rest), true, []))
            else if !links.List? || LinkNodes(links.items).None? then None
            else Some(Document(md, RootKey(rest), RootValue(rest), true, LinkNodes(links.items).value))
  {
    hide FirstLinkKey, LinkNodes;
  }

  /** Data with a link key: what is written of it reads back as the rest, with the links if they were printed. */
  lemma LinkedReads(md: Metadata, data: Value, i: nat)
    requires data.Dict? && i == FirstLinkKey(data.entries) && i < |data.entries|
    requires var rest := WithoutFirstLink(data.entries); WellFormed(md, RootKey(rest), RootValue(rest))
    requires TagsDistinct(md) && NoAtom(md)
    ensures Returned(md, data) == LinkedBack(md, WithoutFirstLink(data.entries), data.entries[i].value)
  {
    var links, rest := data.entries[i].value, WithoutFirstLink(data.entries);
    hide FirstLinkKey, FromXml, NoAtom, Seen, ToXml;
    assert LinkNodes([]) == Some([]);
    WritesLinked(md, data, i);
    if !Truthy(links) {
      DocumentReads(md, RootKey(rest), RootValue(rest), true, []);
    } else if links.List? && LinkNodes(links.items).Some? {
      DocumentReads(md, RootKey(rest), RootValue(rest), true, links.items);
    }
  }

  lemma LinkKeyGone(entries: seq<Entry>, i: nat)
    requires i < |entries| && UniqueEntries(entries)
    ensures forall e :: e in entries[..i] + entries[i + 1..] ==> e.key != entries[i].key && e in entries
  {
  }

  /** A two-entry dict with a link key comes back exactly when that key is the other one's and the links are well made. */
  lemma TwoEntries(entries: seq<Entry>, l: Entry, r: Entry, w: Value)
    requires |entries| == 2 && (forall e :: e in entries <==> e == r || e == l) && l.key != r.key
    requires l.value.List? && l.value.items != [] && LinkNodes(l.value.items).Some? && r.key != VIRTUAL_ROOT_KEY
    ensures SameData(Dict(entries), Back(r.key, w, l.value.items))
            <==> l.key == r.key + "_links" && LinkListOk(l.value) && Alike(r.value, w)
  {
    var links := l.value.items;
    var canon := List(CanonicalAll(links));
    var other := Entry(r.key + "_links", canon);
    hide Canonical, CanonicalAll, GetEntry, LinkNodes, LinkOk, SameList;
    var back := Entry(r.key, w);
    assert Back(r.key, w, links) == Dict([back, other]);
    assert |r.key + "_links"| != |r.key|;
    GetOfTwo(back, other, r.key);
    GetOfTwo(back, other, l.key);
    LinkListSame(links);
    if l.value == canon { CanonicalListOk(links); }
    assert l.value == List(links);
    assert Dict(entries).Dict? && Dict(entries).entries == entries && Dict([back, other]).entries == [back, other];
  }

  lemma GetOfTwo(a: Entry, b: Entry, k: string)
    ensures GetEntry([a, b], k) == if k == a.key then Some(a.value) else if k == b.key then Some(b.value) else None
  {
    var two, one := [a, b], [b];
    assert two[1..] == one && one[1..] == [];
    assert GetEntry(one, k) == if k == b.key then Some(b.value) else None;
  }

  lemma CanonicalListOk(links: seq<Value>)
    requires LinkNodes(links).Some? && links == CanonicalAll(links)
    ensures forall link :: link in links ==> LinkOk(link)
  {
    AllLinkNodes(links);
    forall link | link in links ensures LinkOk(link) {
      var k :| 0 <= k < |links| && links[k] == link;
      assert link == Canonical(link);
      CanonicalOk(link);
    }
  }

  lemma CanonicalOk(link: Value)
    requires LinkNode(link).Some? && link == Canonical(link)
    ensures LinkOk(link)
  {
    var rel, href := GetEntry(link.entries, "rel").value, GetEntry(link.entries, "href").value;
    CanonicalIs(link, rel.s, href.s);
  }

  lemma PlainRoundTrips(md: Metadata, data: Value)
    requires Writable(md, data) && TagsDistinct(md) && NoAtom(md) && Plain(data)
    ensures Survives(data)
    ensures RoundTrips(md, data) <==> md.xmlns != "" || Untyped(data)
  {
    PlainReads(md, data);
    if data.Dict? { SurvivesIs(data); }
    hide Alike, FirstLinkKey, FromXml, GetEntry, NoAtom, Returned, SameData, SameList, ToXml, UniqueEntries, WellFormed;
    if data.Null? {
      NothingIsNothing(data);
    } else {
      var es := data.entries;
      RootOf(es);
      if |es| == 1 {
        WellFormedDicts(md, es[0].key, es[0].value);
        AlikeSeen(md, es[0].value);
        OneEntry(es[0], Seen(md, es[0].value));
        UntypedEntries(es);
      } else if md.xmlns != "" {
        SameAsItself(es);
      } else {
        DictOfWellFormed(md, VIRTUAL_ROOT_KEY, es);
        AlikeErased(md, es);
      }
    }
  }

  lemma DictOfWellFormed(md: Metadata, name: string, es: seq<Entry>)
    requires WellFormed(md, name, Dict(es))
    ensures forall e :: e in es ==> DictsOk(e.value)
  {
    hide DictsOk;
    if es != [] { WellFormedEntries(md, es); }
  }

  lemma OneEntry(e: Entry, w: Value)
    ensures SameData(Dict([e]), Dict([Entry(e.key, w)])) <==> Alike(e.value, w)
  {
    hide Alike;
    assert GetEntry([Entry(e.key, w)], e.key) == Some(w);
    assert e in [e];
  }

  lemma LinkedRoundTrips(md: Metadata, data: Value)
    requires Writable(md, data) && TagsDistinct(md) && NoAtom(md) && !Plain(data)
    ensures RoundTrips(md, data) <==> Survives(data) && (md.xmlns != "" || Untyped(data))
  {
    hide Alike, FirstLinkKey, NoAtom, Returned, LinkedBack, SameData, Seen, LinkListOk, UniqueEntries, WellFormed, RootKey, RootValue,
         WithoutFirstLink;
    var es, i := data.entries, FirstLinkKey(data.entries);
    SurvivesIs(data);
    LinkedReads(md, data, i);
    if |es| != 2 {
      LinksLost(md, es, i);
    } else {
      OneLeft(md, es, i);
      OthersWellFormed(md, es, i);
      AlikeSeen(md, es[1 - i].value);
      if LinkListOk(es[i].value) { LinksUntyped(es[i].value); }
      UntypedEntries(es);
    }
  }

  lemma OthersWellFormed(md: Metadata, es: seq<Entry>, i: nat)
    requires i == FirstLinkKey(es) && i < |es| == 2 && UniqueEntries(es)
    requires forall e :: e in es ==> e.key != "" && e.key != VIRTUAL_ROOT_KEY
    requires var rest := WithoutFirstLink(es); WellFormed(md, RootKey(rest), RootValue(rest))
    ensures DictsOk(es[1 - i].value)
  {
    hide DictsOk, FirstLinkKey, RootKey, RootValue, UniqueEntries, WellFormed, WithoutFirstLink;
    RestOf(es, i);
    RootOf(WithoutFirstLink(es));
    WellFormedDicts(md, es[1 - i].key, es[1 - i].value);
  }

  lemma LinksUntyped(links: Value)
    requires LinkListOk(links)
    ensures Untyped(links)
  {
    hide LinkOk;
    UntypedItems(links.items);
    forall link | link in links.items ensures Untyped(link) {
      LinkUntyped(link);
    }
  }

  lemma LinkUntyped(link: Value)
    requires LinkOk(link)
    ensures Untyped(link)
  {
    EntryAt(link.entries, "rel");
    EntryAt(link.entries, "href");
    assert "rel" != "href" by { assert |"rel"| != |"href"|; }
    UntypedEntries(link.entries);
    assert link.entries == [link.entries[0], link.entries[1]];
  }

  /** Writing and reading gives the data back exactly when no key ends in `_links`, or when the data is one entry and,
      under its name with `_links`, a non-empty list of links with a `rel` and a `href` text and nothing else; and, if the
      metadata names no namespace, when moreover nothing in the data needs its type. */
  lemma DocumentRoundTrip(md: Metadata, data: Value)
    requires Writable(md, data) && TagsDistinct(md) && NoAtom(md)
    ensures RoundTrips(md, data) <==> Survives(data) && (md.xmlns != "" || Untyped(data))
  {
    hide *;
    if Plain(data) {
      PlainRoundTrips(md, data);
    } else {
      LinkedRoundTrips(md, data);
    }
  }

  lemma NothingIsNothing(data: Value)
    requires data.Null?
    ensures SameData(data, data)
  {
  }

  lemma RestOf(es: seq<Entry>, i: nat)
    requires i == FirstLinkKey(es) && i < |es| && UniqueEntries(es)
    ensures var rest := WithoutFirstLink(es);
            && |rest| == |es| - 1 && (forall e :: e in rest ==> e in es && e.key != es[i].key)
            && (|es| == 2 ==> rest == [es[1 - i]] && es[1 - i] in es)
  {
    LinkKeyGone(es, i);
  }

  lemma LinksLost(md: Metadata, es: seq<Entry>, i: nat)
    requires i == FirstLinkKey(es) && i < |es| && |es| != 2 && UniqueEntries(es)
    requires forall e :: e in es ==> e.key != "" && e.key != VIRTUAL_ROOT_KEY
    ensures var back := LinkedBack(md, WithoutFirstLink(es), es[i].value); back.None? || !SameData(Dict(es), back.value)
  {
    hide Canonical, CanonicalAll, FirstLinkKey, GetEntry, IsLinkKey, LinkNodes, RootKey, RootValue, SameList, Truthy,
         UniqueEntries, WithoutFirstLink;
    RestOf(es, i);
    var rest := WithoutFirstLink(es);
    RootOf(rest);
    GetEntryNone(rest, es[i].key);
    assert es[i] in es;
  }

  lemma UnprintableNotOk(links: Value)
    requires links.List? && LinkNodes(links.items).None?
    ensures !LinkListOk(links)
  {
    AllLinkNodes(links.items);
    var link :| link in links.items && LinkNode(link).None?;
    assert !LinkOk(link);
  }

  lemma NothingLinked(es: seq<Entry>, r: Entry, links: Value, w: Value)
    requires |es| == 2 && !(Truthy(links) && links.List?) && r.key != VIRTUAL_ROOT_KEY
    ensures !LinkListOk(links) && !SameData(Dict(es), Back(r.key, w, []))
  {
  }

  lemma OneLeft(md: Metadata, es: seq<Entry>, i: nat)
    requires i == FirstLinkKey(es) && i < |es| == 2 && UniqueEntries(es)
    requires forall e :: e in es ==> e.key != "" && e.key != VIRTUAL_ROOT_KEY
    ensures var back := LinkedBack(md, WithoutFirstLink(es), es[i].value);
            (back.Some? && SameData(Dict(es), back.value))
            <==> es[i].key == es[1 - i].key + "_links" && LinkListOk(es[i].value)
                 && Alike(es[1 - i].value, Seen(md, es[1 - i].value))
  {
    hide *;
    RestOf(es, i);
    PairOf(es, i);
    OneBack(md, es, es[i], es[1 - i]);
  }

  lemma PairOf(es: seq<Entry>, i: nat)
    requires i < |es| == 2 && UniqueEntries(es)
    ensures (forall e :: e in es <==> e == es[1 - i] || e == es[i]) && es[i].key != es[1 - i].key
  {
  }

  lemma OneBack(md: Metadata, es: seq<Entry>, l: Entry, r: Entry)
    requires |es| == 2 && (forall e :: e in es <==> e == r || e == l) && l.key != r.key
    requires r.key != "" && r.key != VIRTUAL_ROOT_KEY
    ensures var back := LinkedBack(md, [r], l.value);
            (back.Some? && SameData(Dict(es), back.value))
            <==> l.key == r.key + "_links" && LinkListOk(l.value) && Alike(r.value, Seen(md, r.value))
  {
    hide Alike, Back, LinkListOk, Seen, LinkNodes, RootKey, RootValue, SameData;
    RootOf([r]);
    var links := l.value;
    if Truthy(links) && links.List? {
      assert links.items != [];
      if LinkNodes(links.items).Some? { TwoEntries(es, l, r, Seen(md, r.value)); } else { UnprintableNotOk(links); }
    } else {
      NothingLinked(es, r, links, Seen(md, r.value));
    }
  }
}