/** The parsed XML tree the feed parser works on, as PHP's DOM extension
    builds it, and the pure tree functions its queries are made of. */
module Xml {

  /** A DOM node. For an element, `ns` is its namespace URI ("" where DOM has
      null), `prefix` the prefix it is written with ("" when unprefixed),
      `attrs` its attributes without a namespace, and `decls` the namespace
      declarations written on it, in document order, as (prefix, uri) pairs
      with "" as the prefix of a default-namespace declaration. */
  datatype Node =
    | Elem(ns: string, prefix: string, local: string, attrs: map<string, string>,
           decls: seq<(string, string)>, children: seq<Node>)
    | Text(data: string)
    | Comment(data: string)

  /** What `loadXML` leaves as `documentElement`: always an element. */
  type Element = n: Node | n.Elem? witness Elem("", "", "root", map[], [], [])

  /** The namespace URI of a node, "" for DOM's null (text and comments). */
  function NamespaceOf(n: Node): string {
    if n.Elem? then n.ns else ""
  }

  /** DOM's `lookupPrefix(uri)` on an element without element ancestors: the
      prefix of the first declaration on it that binds `uri`; "" (DOM's NULL)
      when there is none or that declaration is a default-namespace one. */
  function LookupPrefix(e: Element, uri: string): string {
    LookupPrefixIn(e.decls, uri)
  }

  function LookupPrefixIn(decls: seq<(string, string)>, uri: string): string {
    if decls == [] then ""
    else if decls[0].1 == uri then decls[0].0
    else LookupPrefixIn(decls[1..], uri)
  }

  /** DOM's `tagName`: the qualified name the element is written with. */
  function TagName(e: Element): string {
    if e.prefix == "" then e.local else e.prefix + ":" + e.local
  }

  /** A tag name equals an unqualified name only when the element is written
      without a prefix. */
  lemma TagNameUnprefixed(e: Element, name: string)
    requires ':' !in name
    ensures TagName(e) == name <==> e.prefix == "" && e.local == name
  {
    if e.prefix != "" {
      var t := TagName(e);
      assert t[|e.prefix|] == ':';
      assert t != name;
    }
  }

  /** What a node contributes to the text value (DOM `nodeValue` of an
      element) of the element that contains it: all character data below it
      in document order; comments contribute nothing. */
  function TextContent(n: Node): string
    decreases n, 1
  {
    match n
    case Elem(_, _, _, _, _, children) => TextContents(children)
    case Text(data) => data
    case Comment(_) => ""
  }

  function TextContents(ns: seq<Node>): string
    decreases ns, 0
  {
    if ns == [] then "" else TextContent(ns[0]) + TextContents(ns[1..])
  }

  /** An element name as XPath compares it: namespace URI and local name. */
  datatype QName = QName(ns: string, local: string)

  /** The predicates the queries put on their last step: none, `[@name='value']`,
      and `[not(@*)]`. */
  datatype Filter = AnyAttrs | AttrIs(name: string, value: string) | NoAttrs

  /** Whether a name test with a filter selects a node. */
  predicate Selects(n: Node, q: QName, f: Filter) {
    && n.Elem?
    && n.ns == q.ns
    && n.local == q.local
    && match f
       case AnyAttrs => true
       case AttrIs(name, value) => name in n.attrs && n.attrs[name] == value
       case NoAttrs => n.attrs == map[]
  }

  /** `i` is the position of the first node of `ns` that the test selects. */
  predicate IsFirst(ns: seq<Node>, q: QName, f: Filter, i: int) {
    && 0 <= i < |ns|
    && Selects(ns[i], q, f)
    && forall j :: 0 <= j < i ==> !Selects(ns[j], q, f)
  }

  /** The nodes of `ns` that a name test and filter select, in their order in
      `ns`. */
  function Where(ns: seq<Node>, q: QName, f: Filter): (r: seq<Node>)
    ensures |r| <= |ns|
    ensures forall k :: 0 <= k < |r| ==> Selects(r[k], q, f)
    ensures forall x :: x in r <==> x in ns && Selects(x, q, f)
    ensures r == [] <==> forall i :: 0 <= i < |ns| ==> !Selects(ns[i], q, f)
  {
    if ns == [] then []
    else if Selects(ns[0], q, f) then [ns[0]] + Where(ns[1..], q, f)
    else Where(ns[1..], q, f)
  }

  /** The first selected node is the first node of `ns` the test selects. */
  lemma {:induction false} WhereFirst(ns: seq<Node>, q: QName, f: Filter, i: int)
    requires IsFirst(ns, q, f, i)
    ensures Where(ns, q, f) != [] && Where(ns, q, f)[0] == ns[i]
  {
    if i > 0 {
      assert !Selects(ns[0], q, f);
      assert IsFirst(ns[1..], q, f, i - 1) by {
        forall j | 0 <= j < i - 1 ensures !Selects(ns[1..][j], q, f) {
          assert ns[1..][j] == ns[j + 1];
        }
      }
      WhereFirst(ns[1..], q, f, i - 1);
    }
  }

  /** Every element of a subtree, the root first, in document order (pre-order):
      what `descendant-or-self` ranges over. Text and comments have none. */
  function Subtree(n: Node): seq<Node>
    decreases n, 1
  {
    if n.Elem? then [n] + Subtrees(n.children) else []
  }

  function Subtrees(ns: seq<Node>): seq<Node>
    decreases ns, 0
  {
    if ns == [] then [] else Subtree(ns[0]) + Subtrees(ns[1..])
  }

  /** The elements named `q` anywhere in the tree of `root`, root included,
      in document order: what `//q` selects in a document. */
  function DescendantsOf(root: Node, q: QName): seq<Node> {
    Where(Subtree(root), q, AnyAttrs)
  }

  /** The children of an element; nothing for other nodes. */
  function ChildrenOf(n: Node): seq<Node> {
    if n.Elem? then n.children else []
  }

  /** The children of each node in turn: the next level of a location path. */
  function AllChildren(ns: seq<Node>): seq<Node> {
    if ns == [] then [] else ChildrenOf(ns[0]) + AllChildren(ns[1..])
  }

  /** PHP's `empty()` on a string: true for "" and "0". */
  predicate IsEmptyString(s: string) {
    s == "" || s == "0"
  }

  /** `$items->item(0)->nodeValue` read as a string: the text value of the
      first node, "" when there is none (PHP reads null there). */
  function FirstValue(items: seq<Node>): string {
    if items == [] then "" else TextContent(items[0])
  }

  /** The `href` attribute of the first node, "" when there is no node or the
      node has no `href` (PHP reads null there). */
  function FirstHref(items: seq<Node>): string {
    if items != [] && items[0].Elem? && "href" in items[0].attrs then items[0].attrs["href"] else ""
  }

  /** The fallback order of the getContent getters (RDF.php's tries
      `content:encoded`, then `dc:description`, then `rss:description`), as a
      reference definition: try each
      query's first match in turn and stop at the first whose value PHP does
      not call empty; the last query's first match (or "") otherwise. */
  function FirstNonEmpty(chain: seq<seq<Node>>): string
    requires chain != []
  {
    if |chain| == 1 || !IsEmptyString(FirstValue(chain[0])) then FirstValue(chain[0])
    else FirstNonEmpty(chain[1..])
  }

  /** The fallback chain yields the value of the first query whose first
      match is not empty. */
  lemma {:induction false} FirstNonEmptyPicksFirstUsable(chain: seq<seq<Node>>, k: int)
    requires 0 <= k < |chain|
    requires !IsEmptyString(FirstValue(chain[k]))
    requires forall j :: 0 <= j < k ==> IsEmptyString(FirstValue(chain[j]))
    ensures FirstNonEmpty(chain) == FirstValue(chain[k])
  {
    if k > 0 {
      FirstNonEmptyPicksFirstUsable(chain[1..], k - 1);
    }
  }

  /** When every query's first match is empty the chain yields the last
      query's value, which PHP calls empty too. */
  lemma {:induction false} FirstNonEmptyAllEmpty(chain: seq<seq<Node>>)
    requires chain != []
    requires forall j :: 0 <= j < |chain| ==> IsEmptyString(FirstValue(chain[j]))
    ensures FirstNonEmpty(chain) == FirstValue(chain[|chain| - 1])
    ensures IsEmptyString(FirstNonEmpty(chain))
  {
    if |chain| > 1 {
      FirstNonEmptyAllEmpty(chain[1..]);
    }
  }

  /** The fallback chain over two queries, spelled out. */
  lemma FirstNonEmptyOfTwo(a: seq<Node>, b: seq<Node>)
    ensures FirstNonEmpty([a, b]) == if !IsEmptyString(FirstValue(a)) then FirstValue(a) else FirstValue(b)
  {
    assert [a, b][1..] == [b];
  }

  /** The fallback chain over three queries, spelled out. */
  lemma FirstNonEmptyOfThree(a: seq<Node>, b: seq<Node>, c: seq<Node>)
    ensures FirstNonEmpty([a, b, c])
         == if !IsEmptyString(FirstValue(a)) then FirstValue(a)
            else if !IsEmptyString(FirstValue(b)) then FirstValue(b)
            else FirstValue(c)
  {
    assert [a, b, c][1..] == [b, c];
    FirstNonEmptyOfTwo(b, c);
  }
}
