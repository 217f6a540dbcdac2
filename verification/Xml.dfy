/** Printing a tree of values as XML elements with type attributes, and reading it back. Elements are modelled after
    parsing, as trees; what a parser does to names with prefixes is `Resolve`. */
module Xml {
  import opened Lists
  import opened Text

  /** A dict is the list of its items in iteration order. */
  datatype Value =
    | Null
    | Bool(b: bool)
    | Int(i: int)
    | Long(l: int)
    | Str(s: string)
    | List(items: seq<Value>)
    | Dict(entries: seq<Entry>)

  datatype Entry = Entry(key: string, value: Value)

  /** Assignment to a key of a dict: an existing one keeps its place. */
  function PutEntry(entries: seq<Entry>, k: string, v: Value): seq<Entry> {
    if entries == [] then [Entry(k, v)]
    else if entries[0].key == k then [Entry(k, v)] + entries[1..]
    else [entries[0]] + PutEntry(entries[1..], k, v)
  }

  function GetEntry(entries: seq<Entry>, k: string): Option<Value> {
    if entries == [] then None else if entries[0].key == k then Some(entries[0].value) else GetEntry(entries[1..], k)
  }

  predicate HasEntry(entries: seq<Entry>, k: string) {
    exists i :: 0 <= i < |entries| && entries[i].key == k
  }

  predicate UniqueEntries(entries: seq<Entry>) {
    forall i, j | 0 <= i < j < |entries| :: entries[i].key != entries[j].key
  }

  type Attrs = seq<(string, string)>

  /** No text is the empty text. */
  datatype Node = Node(tag: string, attrs: Attrs, text: string, children: seq<Node>)

  /** `xmlns` is empty when the metadata has none. `plurals` maps a list's name to that of its items; `extNs` and
      `extNsComp` map prefixes to namespaces. `typeBool` is a constant whose definition is missing. */
  datatype Metadata = Metadata(
    xmlns: string, plurals: seq<(string, string)>, extNs: Attrs, extNsComp: Attrs, typeBool: string)

  const TYPE_INT := "int"
  const TYPE_LONG := "long"
  const TYPE_LIST := "list"
  const TYPE_DICT := "dict"
  const TYPE_FLOAT := "float"
  const XML_NS_V20 := "http://openstack.org/vnfsvc/api/v1.0"
  const TYPE_XMLNS := "xmlns:vnfsvc"
  const XSI_ATTR := "xsi:nil"
  const XSI_NAMESPACE := "http://www.w3.org/2001/XMLSchema-instance"
  const XSI_NIL_ATTR := "xmlns:xsi"
  const TYPE_ATTR := "vnfsvc:type"

  function Xmlns(md: Metadata): string {
    if md.xmlns == "" then XML_NS_V20 else md.xmlns
  }

  predicate TagsDistinct(md: Metadata) {
    md.typeBool !in {TYPE_INT, TYPE_LONG, TYPE_FLOAT, TYPE_LIST, TYPE_DICT}
  }

  // ---------- Printing ----------

  /** The name of a list's items. */
  function Singular(md: Metadata, name: string): string {
    match Get(md.plurals, name)
    case Some(s) => s
    case None => if EndsWith(name, "s") then name[..|name| - 1] else "item"
  }

  function Print(md: Metadata, name: string, v: Value): Node
    decreases v
  {
    match v
    case Null => Node(name, [(XSI_ATTR, "true")], "", [])
    case Bool(b) => Node(name, [(TYPE_ATTR, md.typeBool)], if b then "True" else "False", [])
    case Int(i) => Node(name, [(TYPE_ATTR, TYPE_INT)], Decimal(i), [])
    case Long(i) => Node(name, [(TYPE_ATTR, TYPE_LONG)], Decimal(i), [])
    case Str(s) => Node(name, [], s, [])
    case List(items) =>
      if items == [] then Node(name, [(TYPE_ATTR, TYPE_LIST)], "", [])
      else Node(name, [], "", PrintItems(md, Singular(md, name), items))
    case Dict(entries) =>
      if entries == [] then Node(name, [(TYPE_ATTR, TYPE_DICT)], "", [])
      else Node(name, [], "", PrintEntries(md, entries))
  }

  function PrintItems(md: Metadata, name: string, items: seq<Value>): seq<Node>
    decreases items
  {
    if items == [] then [] else [Print(md, name, items[0])] + PrintItems(md, name, items[1..])
  }

  function PrintEntries(md: Metadata, entries: seq<Entry>): seq<Node>
    decreases entries
  {
    if entries == [] then []
    else [Print(md, entries[0].key, entries[0].value)] + PrintEntries(md, entries[1..])
  }

  lemma {:induction false} PrintedItems(md: Metadata, name: string, items: seq<Value>)
    ensures var ns := PrintItems(md, name, items);
            |ns| == |items| && forall i :: 0 <= i < |items| ==> ns[i] == Print(md, name, items[i]) && ns[i].tag == name
  {
    if items != [] {
      PrintedItems(md, name, items[1..]);
      PrintedTag(md, name, items[0]);
      var ns := PrintItems(md, name, items);
      assert ns[0] == Print(md, name, items[0]) && ns[1..] == PrintItems(md, name, items[1..]);
    }
  }

  lemma PrintedTag(md: Metadata, name: string, v: Value)
    ensures Print(md, name, v).tag == name
  {
  }

  /** The first entry for a key is the one found. */
  lemma {:induction false} GetFirst<K, V>(list: seq<(K, V)>, k: K, at: nat)
    requires at < |list| && list[at].0 == k && forall j :: 0 <= j < at ==> list[j].0 != k
    ensures Get(list, k) == Some(list[at].1)
  {
    if at > 0 { GetFirst(list[1..], k, at - 1); }
  }

  lemma {:induction false} GetMissing<K, V>(list: seq<(K, V)>, k: K)
    requires forall e :: e in list ==> e.0 != k
    ensures Get(list, k) == None
  {
    if list != [] {
      assert list[0] in list && forall e :: e in list[1..] ==> e in list;
      GetMissing(list[1..], k);
    }
  }

  lemma PluralStem(stem: string)
    ensures EndsWith(stem + "s", "s") && (stem + "s")[..|stem + "s"| - 1] == stem
  {
    assert (stem + "s")[|stem|..] == "s";
  }

  /** The elements of a non-empty list: one child per item, each printed under the same tag. The tag is what the first
      entry for the list's name in `plurals` says; without an entry, the name without its final `s`; without that,
      `item`. */
  lemma ItemElements(md: Metadata, name: string, items: seq<Value>, tag: string)
    requires items != []
    requires || (exists at :: 0 <= at < |md.plurals| && md.plurals[at] == (name, tag)
                              && forall j :: 0 <= j < at ==> md.plurals[j].0 != name)
             || ((forall e :: e in md.plurals ==> e.0 != name)
                 && (name == tag + "s" || (tag == "item" && (name == "" || name[|name| - 1] != 's'))))
    ensures var n := Print(md, name, List(items));
            && n.tag == name && |n.children| == |items|
            && forall i :: 0 <= i < |items| ==> n.children[i].tag == tag && n.children[i] == Print(md, tag, items[i])
  {
    PrintedItems(md, tag, items);
    if at :| 0 <= at < |md.plurals| && md.plurals[at] == (name, tag) && forall j :: 0 <= j < at ==> md.plurals[j].0 != name {
      GetFirst(md.plurals, name, at);
    } else {
      GetMissing(md.plurals, name);
      if name == tag + "s" {
        PluralStem(tag);
      } else {
        assert !EndsWith(name, "s");
      }
    }
  }

  /** The elements of a non-empty dict: one child per entry, in order, under the entry's key. */
  lemma {:induction false} EntryElements(md: Metadata, entries: seq<Entry>)
    ensures var ns := PrintEntries(md, entries);
            && |ns| == |entries|
            && forall i :: 0 <= i < |entries| ==>
                 ns[i].tag == entries[i].key && ns[i] == Print(md, entries[i].key, entries[i].value)
  {
    if entries != [] {
      EntryElements(md, entries[1..]);
      PrintedTag(md, entries[0].key, entries[0].value);
      var ns := PrintEntries(md, entries);
      assert ns[0] == Print(md, entries[0].key, entries[0].value) && ns[1..] == PrintEntries(md, entries[1..]);
    }
  }

  /** The prefixes met while printing, in order, repetitions included. */
  function Prefixes(md: Metadata, name: string, v: Value): seq<string>
    decreases v
  {
    PrefixOf(name) + match v
      case List(items) => if items == [] then [] else PrefixesOfItems(md, Singular(md, name), items)
      case Dict(entries) => PrefixesOfEntries(md, entries)
      case _ => []
  }

  function PrefixesOfItems(md: Metadata, name: string, items: seq<Value>): seq<string>
    decreases items
  {
    if items == [] then [] else Prefixes(md, name, items[0]) + PrefixesOfItems(md, name, items[1..])
  }

  function PrefixesOfEntries(md: Metadata, entries: seq<Entry>): seq<string>
    decreases entries
  {
    if entries == [] then [] else Prefixes(md, entries[0].key, entries[0].value) + PrefixesOfEntries(md, entries[1..])
  }

  function PrefixOf(name: string): seq<string> {
    var i := Find(name, ':');
    if i < |name| then [name[..i]] else []
  }

  // ---------- What the XML parser makes of prefixes ----------

  function Qualified(ns: string, name: string): string {
    "{" + ns + "}" + name
  }

  /** A prefix must have been declared; an element without one is in the default namespace. */
  function ResolveTag(decls: Attrs, tag: string): Option<string> {
    var i := Find(tag, ':');
    var ns := Get(decls, if i < |tag| then "xmlns:" + tag[..i] else "xmlns");
    if ns.None? then None else Some(Qualified(ns.value, if i < |tag| then tag[i + 1..] else tag))
  }

  function ResolveAttrs(decls: Attrs, attrs: Attrs): Option<Attrs> {
    if attrs == [] then Some([])
    else
      var rest := ResolveAttrs(decls, attrs[1..]);
      var (k, v) := attrs[0];
      var i := Find(k, ':');
      if rest.None? then None
      else if k == "xmlns" || k[..i] == "xmlns" then rest
      else if i == |k| then Some([(k, v)] + rest.value)
      else
        var ns := Get(decls, "xmlns:" + k[..i]);
        if ns.None? then None else Some([(Qualified(ns.value, k[i + 1..]), v)] + rest.value)
  }

  function Resolve(decls: Attrs, n: Node): Option<Node> {
    var tag, attrs, children := ResolveTag(decls, n.tag), ResolveAttrs(decls, n.attrs), ResolveAll(decls, n.children);
    if tag.None? || attrs.None? || children.None? then None
    else Some(Node(tag.value, attrs.value, n.text, children.value))
  }

  function ResolveAll(decls: Attrs, ns: seq<Node>): Option<seq<Node>> {
    if ns == [] then Some([])
    else
      var first, rest := Resolve(decls, ns[0]), ResolveAll(decls, ns[1..]);
      if first.None? || rest.None? then None else Some([first.value] + rest.value)
  }

  // ---------- Reading ----------

  /** The first prefix, in iteration order, that stands for the namespace. */
  function PrefixFor(ext: Attrs, ns: string): Option<string> {
    if ext == [] then None else if ext[0].1 == ns then Some(ext[0].0) else PrefixFor(ext[1..], ns)
  }

  /** `_get_key`. For an unknown namespace it returns None, here the empty string, which is no XML name. */
  function GetKey(md: Metadata, tag: string): string {
    var i := Find(tag, '}');
    if i == |tag| then tag
    else
      var ns, bare := if i > 0 then tag[1..i] else "", tag[i + 1..];
      if ns == Xmlns(md) then bare
      else
        match PrefixFor(md.extNs, ns)
        case Some(p) => p + ":" + bare
        case None =>
          match PrefixFor(md.extNsComp, ns)
          case Some(p) => p + ":" + bare
          case None => ""
  }

  /** The type attribute is looked up in the metadata's own namespace, not in the one the serializer used. */
  function TypeOf(md: Metadata, n: Node): Option<string> {
    Get(n.attrs, Qualified(if md.xmlns == "" then "None" else md.xmlns, "type"))
  }

  predicate IsNil(n: Node) {
    match Get(n.attrs, Qualified(XSI_NAMESPACE, "nil"))
    case Some(v) => LowerCase(v) == "true"
    case None => false
  }

  /** Text without children. Only a malformed number raises. */
  function Convert(md: Metadata, kind: Option<string>, text: string): Option<Value> {
    if kind == Some(md.typeBool) then Some(Bool(LowerCase(text) == "true"))
    else if kind == Some(TYPE_INT) then
      var i := ParseInt(text);
      if i.None? then None else Some(Int(i.value))
    else if kind == Some(TYPE_LONG) then
      var i := ParseInt(text);
      if i.None? then None else Some(Long(i.value))
    else Some(Str(text))
  }

  /** Attributes the reader leaves out by the name they are written under. A parser that resolves prefixes leaves none of
      these names. */
  predicate Skipped(attr: string) {
    attr == "xmlns" || "xmlns:" <= attr || attr == XSI_ATTR || attr == TYPE_ATTR
  }

  function AttrEntries(md: Metadata, attrs: Attrs, into: seq<Entry>): seq<Entry> {
    if attrs == [] then into
    else if Skipped(attrs[0].0) then AttrEntries(md, attrs[1..], into)
    else AttrEntries(md, attrs[1..], PutEntry(into, GetKey(md, attrs[0].0), Str(attrs[0].1)))
  }

  function Read(md: Metadata, n: Node): Option<Value> {
    if IsNil(n) then Some(Null)
    else if n.children == [] then
      if n.text != "" then Convert(md, TypeOf(md, n), n.text)
      else if TypeOf(md, n) == Some(TYPE_DICT) then Some(Dict([]))
      else if TypeOf(md, n) == Some(TYPE_LIST) then Some(List([]))
      else Some(Str(""))
    else if HasKey(md.plurals, GetKey(md, n.tag)) then
      var items := ReadItems(md, n.children);
      if items.None? then None else Some(List(items.value))
    else
      var entries := ReadEntries(md, n.children, AttrEntries(md, n.attrs, []));
      if entries.None? then None else Some(Dict(entries.value))
  }

  function ReadItems(md: Metadata, ns: seq<Node>): Option<seq<Value>> {
    if ns == [] then Some([])
    else
      var first, rest := Read(md, ns[0]), ReadItems(md, ns[1..]);
      if first.None? || rest.None? then None else Some([first.value] + rest.value)
  }

  function ReadEntries(md: Metadata, ns: seq<Node>, into: seq<Entry>): Option<seq<Entry>> {
    if ns == [] then Some(into)
    else
      var first := Read(md, ns[0]);
      if first.None? then None else ReadEntries(md, ns[1..], PutEntry(into, GetKey(md, ns[0].tag), first.value))
  }

  lemma {:induction false} GetPutEntry(entries: seq<Entry>, k: string, v: Value, other: string)
    ensures GetEntry(PutEntry(entries, k, v), other) == if other == k then Some(v) else GetEntry(entries, other)
  {
    if entries != [] && entries[0].key != k {
      GetPutEntry(entries[1..], k, v, other);
    }
  }

  /** The attribute is read, as `k`. */
  predicate ReadAs(md: Metadata, attr: string, k: string) {
    !Skipped(attr) && GetKey(md, attr) == k
  }

  lemma SkippedIs(attr: string)
    ensures Skipped(attr) <==> attr in {"xmlns", "xsi:nil", "vnfsvc:type"} || exists name :: attr == "xmlns:" + name
  {
    if "xmlns:" <= attr {
      assert attr == "xmlns:" + attr[|"xmlns:"|..];
    }
  }

  /** `at` is the last attribute read as `k`. */
  predicate LastAttr(md: Metadata, attrs: Attrs, k: string, at: nat) {
    at < |attrs| && ReadAs(md, attrs[at].0, k) && forall j :: at < j < |attrs| ==> !ReadAs(md, attrs[j].0, k)
  }

  predicate NoAttr(md: Metadata, attrs: Attrs, k: string) {
    forall j :: 0 <= j < |attrs| ==> !ReadAs(md, attrs[j].0, k)
  }

  lemma {:induction false} AttrsRead(md: Metadata, attrs: Attrs, into: seq<Entry>, k: string)
    ensures forall at: nat :: LastAttr(md, attrs, k, at) ==>
              GetEntry(AttrEntries(md, attrs, into), k) == Some(Str(attrs[at].1))
    ensures NoAttr(md, attrs, k) ==> GetEntry(AttrEntries(md, attrs, into), k) == GetEntry(into, k)
    decreases |attrs|
  {
    hide GetKey, Skipped;
    if attrs != [] {
      var rest, key := attrs[1..], GetKey(md, attrs[0].0);
      var into' := if Skipped(attrs[0].0) then into else PutEntry(into, key, Str(attrs[0].1));
      AttrsRead(md, rest, into', k);
      GetPutEntry(into, key, Str(attrs[0].1), k);
      assert forall j :: 0 <= j < |rest| ==> rest[j] == attrs[j + 1];
      forall at: nat | LastAttr(md, attrs, k, at)
        ensures GetEntry(AttrEntries(md, attrs, into), k) == Some(Str(attrs[at].1))
      {
        if at > 0 {
          assert rest[at - 1] == attrs[at];
          assert LastAttr(md, rest, k, at - 1);
        } else {
          assert NoAttr(md, rest, k);
        }
      }
    }
  }

  /** `at` is the last child read under `k`. */
  predicate LastChild(md: Metadata, ns: seq<Node>, k: string, at: nat) {
    at < |ns| && GetKey(md, ns[at].tag) == k && forall j :: at < j < |ns| ==> GetKey(md, ns[j].tag) != k
  }

  predicate NoChild(md: Metadata, ns: seq<Node>, k: string) {
    forall j :: 0 <= j < |ns| ==> GetKey(md, ns[j].tag) != k
  }

  lemma {:induction false} ChildrenRead(md: Metadata, ns: seq<Node>, into: seq<Entry>, k: string)
    requires ReadEntries(md, ns, into).Some?
    ensures forall at: nat :: LastChild(md, ns, k, at) ==>
              Read(md, ns[at]).Some? && GetEntry(ReadEntries(md, ns, into).value, k) == Read(md, ns[at])
    ensures NoChild(md, ns, k) ==> GetEntry(ReadEntries(md, ns, into).value, k) == GetEntry(into, k)
    decreases |ns|
  {
    hide GetKey, Read;
    if ns != [] {
      var rest, v := ns[1..], Read(md, ns[0]).value;
      var into' := PutEntry(into, GetKey(md, ns[0].tag), v);
      ChildrenRead(md, rest, into', k);
      GetPutEntry(into, GetKey(md, ns[0].tag), v, k);
      assert forall j :: 0 <= j < |rest| ==> rest[j] == ns[j + 1];
      forall at: nat | LastChild(md, ns, k, at)
        ensures Read(md, ns[at]).Some? && GetEntry(ReadEntries(md, ns, into).value, k) == Read(md, ns[at])
      {
        if at > 0 {
          assert rest[at - 1] == ns[at];
          assert LastChild(md, rest, k, at - 1);
        } else {
          assert NoChild(md, rest, k);
        }
      }
    }
  }

  /** The texts read as true, in any mixture of cases. */
  predicate TrueText(text: string) {
    |text| == 4 && text[0] in "tT" && text[1] in "rR" && text[2] in "uU" && text[3] in "eE"
  }

  lemma TrueIs(text: string)
    ensures LowerCase(text) == "true" <==> TrueText(text)
  {
    var low := LowerCase(text);
    assert |low| == |text|;
    if |text| == 4 {
      assert low == [Lower(text[0]), Lower(text[1]), Lower(text[2]), Lower(text[3])];
      assert low == "true" <==> low[0] == 't' && low[1] == 'r' && low[2] == 'u' && low[3] == 'e';
    }
  }

  /** What is read of an element without children: nothing if its `nil` attribute says true; its text as the type attribute
      says, as text without one; and without text the empty dict or list the type asks for, or the empty text. */
  lemma LeafRead(md: Metadata, n: Node)
    requires n.children == []
    ensures var nil, kind := Get(n.attrs, Qualified(XSI_NAMESPACE, "nil")), TypeOf(md, n);
            && (nil.Some? && TrueText(nil.value) ==> Read(md, n) == Some(Null))
            && (!(nil.Some? && TrueText(nil.value)) ==>
                  && (n.text != "" && kind == Some(md.typeBool) ==> Read(md, n) == Some(Bool(TrueText(n.text))))
                  && (n.text != "" && kind.None? ==> Read(md, n) == Some(Str(n.text)))
                  && (n.text != "" && kind == Some(TYPE_INT) && md.typeBool != TYPE_INT ==>
                        forall i :: n.text == Decimal(i) ==> Read(md, n) == Some(Int(i)))
                  && (n.text != "" && kind == Some(TYPE_LONG) && md.typeBool != TYPE_LONG ==>
                        forall i :: n.text == Decimal(i) ==> Read(md, n) == Some(Long(i)))
                  && (n.text == "" ==>
                        Read(md, n) == Some(if kind == Some(TYPE_DICT) then Dict([])
                                            else if kind == Some(TYPE_LIST) then List([]) else Str(""))))
  {
    hide Decimal, LowerCase, ParseInt, TrueText;
    TrueIs(n.text);
    var nil := Get(n.attrs, Qualified(XSI_NAMESPACE, "nil"));
    if nil.Some? { TrueIs(nil.value); }
    forall i | n.text == Decimal(i) ensures ParseInt(n.text) == Some(i) {
      DecimalRoundTrip(i);
    }
    assert |TYPE_INT| == 3 && |TYPE_LONG| == 4;
  }

  /** An element with children that stands for no list is read as a dict: under a key there is the value of the last child
      of that name; without one, the text of the last attribute of that name; without that, nothing. */
  lemma ElementRead(md: Metadata, n: Node, k: string)
    requires !IsNil(n) && n.children != [] && !HasKey(md.plurals, GetKey(md, n.tag)) && Read(md, n).Some?
    ensures Read(md, n).value.Dict?
    ensures var found := GetEntry(Read(md, n).value.entries, k);
            && (forall at: nat :: LastChild(md, n.children, k, at) ==>
                  Read(md, n.children[at]).Some? && found == Read(md, n.children[at]))
            && (forall at: nat :: NoChild(md, n.children, k) && LastAttr(md, n.attrs, k, at) ==>
                  found == Some(Str(n.attrs[at].1)))
            && (NoChild(md, n.children, k) && NoAttr(md, n.attrs, k) ==> found == None)
  {
    hide GetKey, IsNil;
    AttrsRead(md, n.attrs, [], k);
    ChildrenRead(md, n.children, AttrEntries(md, n.attrs, []), k);
  }

  // ---------- Names ----------

  const RESERVED := ["vnfsvc", "xsi", "atom"]

  /** The namespace a used prefix is declared with: a backward-compatible one takes precedence. */
  function NamespaceOf(md: Metadata, p: string): Option<string> {
    match Get(md.extNsComp, p)
    case Some(ns) => Some(ns)
    case None => Get(md.extNs, p)
  }

  predicate PrefixFree(md: Metadata, ns: string, p: string) {
    && ns != Xmlns(md)
    && (forall e :: e in md.extNs && e.1 == ns ==> e.0 == p)
    && (forall e :: e in md.extNsComp && e.1 == ns ==> e.0 == p)
  }

  /** A name that survives: without a prefix, or with one that is known and whose namespace is no other prefix's. */
  predicate NameOk(md: Metadata, name: string) {
    var i := Find(name, ':');
    && '}' !in Xmlns(md)
    && (i < |name| ==>
          && name[..i] !in RESERVED && name[..i] != "xmlns"
          && NamespaceOf(md, name[..i]).Some?
          && '}' !in NamespaceOf(md, name[..i]).value
          && PrefixFree(md, NamespaceOf(md, name[..i]).value, name[..i]))
  }

  /** The root declares the default namespace and every prefix used. */
  predicate Declares(md: Metadata, decls: Attrs, prefixes: seq<string>) {
    && Get(decls, "xmlns") == Some(Xmlns(md))
    && Get(decls, TYPE_XMLNS) == Some(Xmlns(md))
    && Get(decls, XSI_NIL_ATTR) == Some(XSI_NAMESPACE)
    && forall p :: p in prefixes && p !in RESERVED && NamespaceOf(md, p).Some? ==>
                     Get(decls, "xmlns:" + p) == NamespaceOf(md, p)
  }

  lemma {:induction false} PrefixForUnique(ext: Attrs, ns: string, p: string)
    requires forall e :: e in ext && e.1 == ns ==> e.0 == p
    ensures PrefixFor(ext, ns) == if (exists e :: e in ext && e.1 == ns) then Some(p) else None
  {
    if ext != [] {
      assert ext[0] in ext && forall e :: e in ext[1..] ==> e in ext;
      PrefixForUnique(ext[1..], ns, p);
      assert forall e :: e in ext ==> e == ext[0] || e in ext[1..];
    }
  }

  lemma {:induction false} GetIsMember(ext: Attrs, p: string)
    requires Get(ext, p).Some?
    ensures (p, Get(ext, p).value) in ext
  {
    if ext[0].0 == p {
      assert ext[0] == (p, Get(ext, p).value);
    } else {
      GetIsMember(ext[1..], p);
    }
  }

  /** `at` is the first prefix that stands for the namespace. */
  predicate FirstFor(ext: Attrs, ns: string, at: nat) {
    at < |ext| && ext[at].1 == ns && forall j :: 0 <= j < at ==> ext[j].1 != ns
  }

  lemma {:induction false} PrefixForFirst(ext: Attrs, ns: string, at: nat)
    requires FirstFor(ext, ns, at)
    ensures PrefixFor(ext, ns) == Some(ext[at].0)
  {
    if at > 0 { PrefixForFirst(ext[1..], ns, at - 1); }
  }

  lemma {:induction false} PrefixForNone(ext: Attrs, ns: string)
    requires forall e :: e in ext ==> e.1 != ns
    ensures PrefixFor(ext, ns) == None
  {
    if ext != [] {
      assert ext[0] in ext && forall e :: e in ext[1..] ==> e in ext;
      PrefixForNone(ext[1..], ns);
    }
  }

  /** The name read for an element of a namespace: bare in the default one; else with the first prefix the extension
      namespaces give it, and only without one with the first the backward-compatible ones give it. */
  lemma KeyOfName(md: Metadata, ns: string, bare: string)
    requires '}' !in ns
    ensures var key := GetKey(md, Qualified(ns, bare));
            && (ns == Xmlns(md) ==> key == bare)
            && (ns != Xmlns(md) ==>
                  && (forall at: nat :: FirstFor(md.extNs, ns, at) ==> key == md.extNs[at].0 + ":" + bare)
                  && ((forall e :: e in md.extNs ==> e.1 != ns) ==>
                        && (forall at: nat :: FirstFor(md.extNsComp, ns, at) ==> key == md.extNsComp[at].0 + ":" + bare)
                        && ((forall e :: e in md.extNsComp ==> e.1 != ns) ==> key == "")))
  {
    FindIn("{" + ns, '}', bare);
    assert Qualified(ns, bare) == ("{" + ns) + ['}'] + bare;
    assert ("{" + ns)[1..] == ns;
    hide PrefixFor;
    forall ext: Attrs, at: nat | FirstFor(ext, ns, at)
      ensures PrefixFor(ext, ns) == Some(ext[at].0)
    {
      PrefixForFirst(ext, ns, at);
    }
    forall ext: Attrs | forall e :: e in ext ==> e.1 != ns ensures PrefixFor(ext, ns) == None {
      PrefixForNone(ext, ns);
    }
  }

  /** `_get_key` recovers a name from what the parser made of it. */
  lemma NameSurvives(md: Metadata, decls: Attrs, name: string)
    requires NameOk(md, name) && Declares(md, decls, PrefixOf(name))
    ensures ResolveTag(decls, name).Some? && GetKey(md, ResolveTag(decls, name).value) == name
  {
    var i := Find(name, ':');
    if i < |name| {
      var p, bare := name[..i], name[i + 1..];
      var ns := NamespaceOf(md, p).value;
      assert p in PrefixOf(name);
      FindIn("{" + ns, '}', bare);
      assert Qualified(ns, bare) == ("{" + ns) + ['}'] + bare;
      assert ("{" + ns)[1..] == ns;
      PrefixForUnique(md.extNs, ns, p);
      PrefixForUnique(md.extNsComp, ns, p);
      if Get(md.extNsComp, p).Some? { GetIsMember(md.extNsComp, p); } else { GetIsMember(md.extNs, p); }
      assert name == p + ":" + bare;
    } else {
      var ns := Xmlns(md);
      FindIn("{" + ns, '}', name);
      assert Qualified(ns, name) == ("{" + ns) + ['}'] + name;
      assert ("{" + ns)[1..] == ns;
    }
  }

  // ---------- Round trip ----------

  /** Non-empty lists only under names in `plurals`, non-empty dicts never; distinct keys; names that survive. */
  predicate WellFormed(md: Metadata, name: string, v: Value)
    decreases v
  {
    && NameOk(md, name)
    && match v
       case List(items) => items == [] || (HasKey(md.plurals, name) && AllWellFormed(md, Singular(md, name), items))
       case Dict(entries) => entries == [] || (!HasKey(md.plurals, name) && UniqueEntries(entries) && EntriesWellFormed(md, entries))
       case _ => true
  }

  predicate AllWellFormed(md: Metadata, name: string, items: seq<Value>)
    decreases items
  {
    items == [] || (WellFormed(md, name, items[0]) && AllWellFormed(md, name, items[1..]))
  }

  predicate EntriesWellFormed(md: Metadata, entries: seq<Entry>)
    decreases entries
  {
    entries == [] || (WellFormed(md, entries[0].key, entries[0].value) && EntriesWellFormed(md, entries[1..]))
  }

  /** What is left of a value when its types are not read. */
  function Erase(v: Value): Value
    decreases v
  {
    match v
    case Null => Null
    case Bool(b) => Str(if b then "True" else "False")
    case Int(i) => Str(Decimal(i))
    case Long(i) => Str(Decimal(i))
    case Str(s) => Str(s)
    case List(items) => if items == [] then Str("") else List(EraseItems(items))
    case Dict(entries) => if entries == [] then Str("") else Dict(EraseEntries(entries))
  }

  function EraseItems(items: seq<Value>): (r: seq<Value>)
    ensures |r| == |items|
    decreases items
  {
    if items == [] then [] else [Erase(items[0])] + EraseItems(items[1..])
  }

  function EraseEntries(entries: seq<Entry>): (r: seq<Entry>)
    ensures |r| == |entries|
    decreases entries
  {
    if entries == [] then [] else [Entry(entries[0].key, Erase(entries[0].value))] + EraseEntries(entries[1..])
  }

  function Seen(md: Metadata, v: Value): Value {
    if md.xmlns != "" then v else Erase(v)
  }

  function SeenItems(md: Metadata, items: seq<Value>): seq<Value> {
    if md.xmlns != "" then items else EraseItems(items)
  }

  function SeenEntries(md: Metadata, entries: seq<Entry>): seq<Entry> {
    if md.xmlns != "" then entries else EraseEntries(entries)
  }

  lemma QualifiedDiffer(a: string, b: string)
    ensures Qualified(a, "type") != Qualified(b, "nil")
  {
    var s, u := Qualified(a, "type"), Qualified(b, "nil");
    assert s[|s| - 1] == 'e' && u[|u| - 1] == 'l';
  }

  lemma NotTheDefault()
    ensures Qualified(XML_NS_V20, "type") != Qualified("None", "type")
  {
    assert Qualified(XML_NS_V20, "type")[1] == 'h' && Qualified("None", "type")[1] == 'N';
  }

  lemma GetOne(k: string, v: string, q: string)
    ensures Get([(k, v)], q) == if q == k then Some(v) else None
  {
    assert [(k, v)][1..] == [];
  }

  lemma OneAttrResolves(decls: Attrs, p: string, name: string, v: string, ns: string)
    requires ':' !in p && p != "xmlns" && Get(decls, "xmlns:" + p) == Some(ns)
    ensures ResolveAttrs(decls, [(p + [':'] + name, v)]) == Some([(Qualified(ns, name), v)])
  {
    var k := p + [':'] + name;
    FindIn(p, ':', name);
    var attrs := [(k, v)];
    assert attrs[1..] == [] && attrs[0] == (k, v);
    assert ResolveAttrs(decls, []) == Some([]);
    assert k != "xmlns" by { assert k[|p|] == ':'; }
    assert [(Qualified(ns, name), v)] + [] == [(Qualified(ns, name), v)];
  }

  /** A leaf with its type attribute, after parsing. */
  lemma TypedLeaf(md: Metadata, decls: Attrs, name: string, kind: string, text: string)
    requires NameOk(md, name) && Declares(md, decls, PrefixOf(name))
    ensures var n := Resolve(decls, Node(name, [(TYPE_ATTR, kind)], text, []));
            && n.Some? && n.value.children == [] && n.value.text == text && GetKey(md, n.value.tag) == name
            && !IsNil(n.value) && TypeOf(md, n.value) == if md.xmlns != "" then Some(kind) else None
  {
    NameSurvives(md, decls, name);
    TypeAttrResolves(decls, Xmlns(md), kind);
    hide Declares, Get, ResolveAttrs;
    var ns := Xmlns(md);
    GetOne(Qualified(ns, "type"), kind, Qualified(XSI_NAMESPACE, "nil"));
    GetOne(Qualified(ns, "type"), kind, Qualified(if md.xmlns == "" then "None" else md.xmlns, "type"));
    QualifiedDiffer(ns, XSI_NAMESPACE);
    NotTheDefault();
  }

  lemma TypeAttrResolves(decls: Attrs, ns: string, kind: string)
    requires Get(decls, TYPE_XMLNS) == Some(ns)
    ensures ResolveAttrs(decls, [(TYPE_ATTR, kind)]) == Some([(Qualified(ns, "type"), kind)])
  {
    assert TYPE_ATTR == "vnfsvc" + [':'] + "type" && TYPE_XMLNS == "xmlns:" + "vnfsvc" && ':' !in "vnfsvc";
    assert |"vnfsvc"| != |"xmlns"|;
    OneAttrResolves(decls, "vnfsvc", "type", kind, ns);
  }

  lemma LowerCases()
    ensures LowerCase("True") == "true" && LowerCase("False") == "false" && LowerCase("true") == "true"
  {
  }

  lemma NilAttrResolves(decls: Attrs)
    requires Get(decls, XSI_NIL_ATTR) == Some(XSI_NAMESPACE)
    ensures ResolveAttrs(decls, [(XSI_ATTR, "true")]) == Some([(Qualified(XSI_NAMESPACE, "nil"), "true")])
  {
    assert XSI_ATTR == "xsi" + [':'] + "nil" && XSI_NIL_ATTR == "xmlns:" + "xsi" && ':' !in "xsi" && |"xsi"| != |"xmlns"|;
    OneAttrResolves(decls, "xsi", "nil", "true", XSI_NAMESPACE);
  }

  lemma NilLeaf(md: Metadata, decls: Attrs, name: string)
    requires NameOk(md, name) && Declares(md, decls, PrefixOf(name))
    ensures var n := Resolve(decls, Print(md, name, Null));
            n.Some? && GetKey(md, n.value.tag) == name && Read(md, n.value) == Some(Null)
  {
    NameSurvives(md, decls, name);
    NilAttrResolves(decls);
    LowerCases();
    hide AttrEntries, Declares, Get, HasKey, PrintEntries, PrintItems, ReadEntries, ReadItems, ResolveAttrs;
    GetOne(Qualified(XSI_NAMESPACE, "nil"), "true", Qualified(XSI_NAMESPACE, "nil"));
  }

  lemma LeafRoundTrip(md: Metadata, decls: Attrs, name: string, v: Value)
    requires NameOk(md, name) && TagsDistinct(md) && Declares(md, decls, PrefixOf(name))
    requires v.List? ==> v.items == []
    requires v.Dict? ==> v.entries == []
    ensures var n := Resolve(decls, Print(md, name, v));
            n.Some? && GetKey(md, n.value.tag) == name && Read(md, n.value) == Some(Seen(md, v))
  {
    hide Decimal, Declares, EraseEntries, EraseItems, GetKey, IsNil, LowerCase, NameOk, ParseInt, PrefixOf,
         PrintEntries, PrintItems, Read, Resolve, Singular, TypeOf;
    KindsDiffer();
    var n := Resolve(decls, Print(md, name, v));
    match v {
      case Null => NilLeaf(md, decls, name);
      case Str(s) =>
        StrLeaf(md, decls, name, s);
        LeafReads(md, n.value);
      case Bool(b) =>
        TypedLeaf(md, decls, name, md.typeBool, if b then "True" else "False");
        LeafReads(md, n.value);
        LowerCases();
      case Int(i) =>
        TypedLeaf(md, decls, name, TYPE_INT, Decimal(i));
        LeafReads(md, n.value);
        DecimalRoundTrip(i);
      case Long(i) =>
        TypedLeaf(md, decls, name, TYPE_LONG, Decimal(i));
        LeafReads(md, n.value);
        DecimalRoundTrip(i);
      case List(_) =>
        TypedLeaf(md, decls, name, TYPE_LIST, "");
        LeafReads(md, n.value);
      case Dict(_) =>
        TypedLeaf(md, decls, name, TYPE_DICT, "");
        LeafReads(md, n.value);
    }
  }

  lemma StrLeaf(md: Metadata, decls: Attrs, name: string, s: string)
    requires NameOk(md, name) && Declares(md, decls, PrefixOf(name))
    ensures var n := Resolve(decls, Node(name, [], s, []));
            && n.Some? && n.value.children == [] && n.value.text == s && GetKey(md, n.value.tag) == name
            && !IsNil(n.value) && TypeOf(md, n.value) == None
  {
    NameSurvives(md, decls, name);
  }

  lemma KindsDiffer()
    ensures TYPE_LIST != TYPE_DICT && TYPE_INT != TYPE_LONG
  {
    assert TYPE_LIST[0] != TYPE_DICT[0] && TYPE_INT[0] != TYPE_LONG[0];
  }

  lemma LeafReads(md: Metadata, n: Node)
    requires n.children == [] && !IsNil(n)
    ensures Read(md, n) == if n.text != "" then Convert(md, TypeOf(md, n), n.text)
                           else if TypeOf(md, n) == Some(TYPE_DICT) then Some(Dict([]))
                           else if TypeOf(md, n) == Some(TYPE_LIST) then Some(List([]))
                           else Some(Str(""))
  {
  }

  /** Reading what was printed gives the value back, or, when the metadata has no namespace of its own, the value
      without its types. */
  lemma {:induction false} NodeRoundTrip(md: Metadata, decls: Attrs, name: string, v: Value)
    requires WellFormed(md, name, v) && TagsDistinct(md) && Declares(md, decls, Prefixes(md, name, v))
    ensures var n := Resolve(decls, Print(md, name, v));
            n.Some? && GetKey(md, n.value.tag) == name && Read(md, n.value) == Some(Seen(md, v))
    decreases v
  {
    assert Declares(md, decls, PrefixOf(name));
    if v.List? && v.items != [] {
      ItemsRoundTrip(md, decls, Singular(md, name), v.items);
      ParentReads(md, decls, name, PrintItems(md, Singular(md, name), v.items));
    } else if v.Dict? && v.entries != [] {
      EntriesRoundTrip(md, decls, v.entries, []);
      ParentReads(md, decls, name, PrintEntries(md, v.entries));
      assert [] + SeenEntries(md, v.entries) == SeenEntries(md, v.entries);
    } else {
      LeafRoundTrip(md, decls, name, v);
    }
  }

  /** An element with children and nothing else. */
  lemma ParentReads(md: Metadata, decls: Attrs, name: string, children: seq<Node>)
    requires NameOk(md, name) && Declares(md, decls, PrefixOf(name))
    requires ResolveAll(decls, children).Some? && ResolveAll(decls, children).value != []
    ensures var kids, n := ResolveAll(decls, children).value, Resolve(decls, Node(name, [], "", children));
            && n.Some? && GetKey(md, n.value.tag) == name
            && Read(md, n.value) ==
               if HasKey(md.plurals, name) then
                 (if ReadItems(md, kids).None? then None else Some(List(ReadItems(md, kids).value)))
               else
                 (if ReadEntries(md, kids, []).None? then None else Some(Dict(ReadEntries(md, kids, []).value)))
  {
    NameSurvives(md, decls, name);
  }

  lemma {:induction false} ItemsRoundTrip(md: Metadata, decls: Attrs, name: string, items: seq<Value>)
    requires AllWellFormed(md, name, items) && TagsDistinct(md) && Declares(md, decls, PrefixesOfItems(md, name, items))
    ensures var ns := ResolveAll(decls, PrintItems(md, name, items));
            ns.Some? && |ns.value| == |items| && ReadItems(md, ns.value) == Some(SeenItems(md, items))
    decreases items
  {
    hide Declares, Print, Read;
    if items != [] {
      var first, rest := Prefixes(md, name, items[0]), PrefixesOfItems(md, name, items[1..]);
      DeclaresParts(md, decls, first, rest);
      NodeRoundTrip(md, decls, name, items[0]);
      ItemsRoundTrip(md, decls, name, items[1..]);
      HeadAndTail(decls, PrintItems(md, name, items));
      assert [items[0]] + items[1..] == items;
    }
  }

  lemma DeclaresParts(md: Metadata, decls: Attrs, first: seq<string>, rest: seq<string>)
    requires Declares(md, decls, first + rest)
    ensures Declares(md, decls, first) && Declares(md, decls, rest)
  {
  }

  lemma HeadAndTail(decls: Attrs, ns: seq<Node>)
    requires ns != [] && Resolve(decls, ns[0]).Some? && ResolveAll(decls, ns[1..]).Some?
    ensures ResolveAll(decls, ns) == Some([Resolve(decls, ns[0]).value] + ResolveAll(decls, ns[1..]).value)
  {
  }

  lemma {:induction false} PutEntryNew(entries: seq<Entry>, k: string, v: Value)
    requires !HasEntry(entries, k)
    ensures PutEntry(entries, k, v) == entries + [Entry(k, v)]
  {
    if entries != [] {
      assert entries[0].key != k;
      forall i | 0 <= i < |entries[1..]| ensures entries[1..][i].key != k {
        assert entries[i + 1].key != k;
      }
      PutEntryNew(entries[1..], k, v);
    }
  }

  predicate DisjointKeys(a: seq<Entry>, b: seq<Entry>) {
    forall i, j | 0 <= i < |a| && 0 <= j < |b| :: a[i].key != b[j].key
  }

  lemma NextEntry(into: seq<Entry>, entries: seq<Entry>, e: Entry)
    requires entries != [] && UniqueEntries(entries) && DisjointKeys(into, entries) && e.key == entries[0].key
    ensures !HasEntry(into, e.key) && UniqueEntries(entries[1..]) && DisjointKeys(into + [e], entries[1..])
  {
    forall i, j | 0 <= i < j < |entries[1..]| ensures entries[1..][i].key != entries[1..][j].key {
      assert entries[i + 1].key != entries[j + 1].key;
    }
    forall i, j | 0 <= i < |into + [e]| && 0 <= j < |entries[1..]| ensures (into + [e])[i].key != entries[1..][j].key {
      assert entries[0].key != entries[j + 1].key;
    }
  }

  lemma {:induction false} EntriesRoundTrip(md: Metadata, decls: Attrs, entries: seq<Entry>, into: seq<Entry>)
    requires EntriesWellFormed(md, entries) && TagsDistinct(md) && Declares(md, decls, PrefixesOfEntries(md, entries))
    requires UniqueEntries(entries) && DisjointKeys(into, entries)
    ensures var ns := ResolveAll(decls, PrintEntries(md, entries));
            ns.Some? && |ns.value| == |entries| && ReadEntries(md, ns.value, into) == Some(into + SeenEntries(md, entries))
    decreases entries
  {
    hide Declares, DisjointKeys, Erase, GetKey, HasEntry, Prefixes, Print, PutEntry, Read, Resolve, TagsDistinct,
         UniqueEntries, WellFormed;
    if entries != [] {
      var e := Entry(entries[0].key, Seen(md, entries[0].value));
      var first, rest := Prefixes(md, entries[0].key, entries[0].value), PrefixesOfEntries(md, entries[1..]);
      DeclaresParts(md, decls, first, rest);
      NodeRoundTrip(md, decls, entries[0].key, entries[0].value);
      NextEntry(into, entries, e);
      PutEntryNew(into, e.key, e.value);
      EntriesRoundTrip(md, decls, entries[1..], into + [e]);
      HeadAndTail(decls, PrintEntries(md, entries));
      assert into + [e] + SeenEntries(md, entries[1..]) == into + SeenEntries(md, entries);
    } else {
      assert into + [] == into;
    }
  }

  /** The values that do not need their types read: no number, no Boolean, no empty list or dict anywhere. */
  predicate Untyped(v: Value)
    decreases v
  {
    match v
    case Null => true
    case Str(_) => true
    case List(items) => items != [] && AllUntyped(items)
    case Dict(entries) => entries != [] && EntriesUntyped(entries)
    case _ => false
  }

  predicate AllUntyped(items: seq<Value>)
    decreases items
  {
    items == [] || (Untyped(items[0]) && AllUntyped(items[1..]))
  }

  predicate EntriesUntyped(entries: seq<Entry>)
    decreases entries
  {
    entries == [] || (Untyped(entries[0].value) && EntriesUntyped(entries[1..]))
  }

  lemma {:induction false} ErasedSame(v: Value)
    ensures Erase(v) == v <==> Untyped(v)
    decreases v
  {
    match v
    case List(items) => ErasedItemsSame(items);
    case Dict(entries) => ErasedEntriesSame(entries);
    case _ =>
  }

  lemma {:induction false} ErasedItemsSame(items: seq<Value>)
    ensures EraseItems(items) == items <==> AllUntyped(items)
    decreases items
  {
    if items != [] {
      ErasedSame(items[0]);
      ErasedItemsSame(items[1..]);
      var erased := EraseItems(items);
      assert erased[0] == Erase(items[0]) && erased[1..] == EraseItems(items[1..]);
      assert items == [items[0]] + items[1..];
    }
  }

  lemma {:induction false} ErasedEntriesSame(entries: seq<Entry>)
    ensures EraseEntries(entries) == entries <==> EntriesUntyped(entries)
    decreases entries
  {
    if entries != [] {
      ErasedSame(entries[0].value);
      ErasedEntriesSame(entries[1..]);
      var erased := EraseEntries(entries);
      assert erased[0] == Entry(entries[0].key, Erase(entries[0].value)) && erased[1..] == EraseEntries(entries[1..]);
      assert entries == [entries[0]] + entries[1..];
    }
  }

  /** A well-formed value comes back unchanged exactly when the metadata names a namespace or nothing in the value
      needs its type: the reader looks the type attribute up in the metadata's namespace, without the default the
      writer falls back to. */
  lemma RoundTripsIff(md: Metadata, decls: Attrs, name: string, v: Value)
    requires WellFormed(md, name, v) && TagsDistinct(md) && Declares(md, decls, Prefixes(md, name, v))
    ensures Resolve(decls, Print(md, name, v)).Some?
    ensures Read(md, Resolve(decls, Print(md, name, v)).value) == Some(v) <==> md.xmlns != "" || Untyped(v)
  {
    NodeRoundTrip(md, decls, name, v);
    ErasedSame(v);
  }
}
