/** FeedParserAtom and FeedParserAtomElement (Atom.php): Atom feeds as
    RFC 4287 describes them, queried with the `Atom` prefix. */
module Atom {
  import opened Xml
  import opened XPath
  import opened Namespaces

  const FeedTypeLabel := "Atom 1.0"

  /** The only prefix both classes register. */
  const Bindings := map["Atom" := AtomNs]

  function AtomName(local: string): QName {
    QName(AtomNs, local)
  }

  const FeedStep := Step("Atom", "feed", AnyAttrs)
  const AlternateFilter := AttrIs("rel", "alternate")

  // The feed-level queries.
  const AlternateLinks := Absolute([FeedStep, Step("Atom", "link", AlternateFilter)])
  const BareLinks := Absolute([FeedStep, Step("Atom", "link", NoAttrs)])
  const SelfLinks := Absolute([FeedStep, Step("Atom", "link", AttrIs("rel", "self"))])
  const Titles := Absolute([FeedStep, Step("Atom", "title", AnyAttrs)])
  const Subtitles := Absolute([FeedStep, Step("Atom", "subtitle", AnyAttrs)])
  const Entries := Anywhere(Step("Atom", "entry", AnyAttrs))

  // The entry-level queries, over the entry's own document.
  const ItemTitles := Anywhere(Step("Atom", "title", AnyAttrs))
  const ItemContents := Anywhere(Step("Atom", "content", AnyAttrs))
  const ItemUpdated := Anywhere(Step("Atom", "updated", AnyAttrs))
  const ItemAlternateLinks := Anywhere(Step("Atom", "link", AlternateFilter))
  const ItemBareLinks := Anywhere(Step("Atom", "link", NoAttrs))

  /** A FeedParserAtom object: the document and its XPath object. */
  datatype Feed = Feed(model: Element, xpath: Context)

  /** A FeedParserAtomElement object: a document holding one entry. */
  datatype Item = Item(model: Element, xpath: Context)

  /** What the constructors establish: the XPath object is over the model and
      has exactly the `Atom` prefix registered. */
  predicate ValidFeed(f: Feed) {
    f.xpath == Context(f.model, Bindings)
  }

  predicate ValidItem(e: Item) {
    e.xpath == Context(e.model, Bindings)
  }

  /** `new FeedParserAtom($xml)` (the strict-validation branch is not modelled). */
  function NewFeed(xml: Element): (f: Feed)
    ensures ValidFeed(f) && f.model == xml
  {
    Feed(xml, Context(xml, map[]).Register("Atom", AtomNs))
  }

  /** `new FeedParserAtomElement($doc)`. */
  function NewItem(xml: Element): (e: Item)
    ensures ValidItem(e) && e.model == xml
  {
    Item(xml, Context(xml, map[]).Register("Atom", AtomNs))
  }

  /** The children of an Atom `feed` root with name `local` that `filter`
      selects: what `/Atom:feed/Atom:local[filter]` selects. */
  function TopLevel(root: Element, local: string, filter: Filter): seq<Node> {
    if Selects(root, AtomName("feed"), AnyAttrs) then Where(root.children, AtomName(local), filter) else []
  }

  /** The Atom elements named `local` that `filter` selects anywhere in a
      document, root included, in document order: what `//Atom:local[filter]`
      selects. */
  function Descendants(root: Element, local: string, filter: Filter): seq<Node> {
    Where(Subtree(root), AtomName(local), filter)
  }

  lemma FeedQuery(f: Feed, local: string, filter: Filter)
    requires ValidFeed(f)
    ensures f.xpath.Resolves(Absolute([FeedStep, Step("Atom", local, filter)]))
    ensures f.xpath.Evaluate(Absolute([FeedStep, Step("Atom", local, filter)])) == TopLevel(f.model, local, filter)
  {
    ChildPath(f.xpath, FeedStep, Step("Atom", local, filter));
  }

  /** getLink: the `href` of the first top-level alternate link; failing
      that, of the first top-level link with no attributes; "" when there is
      neither (or the chosen link has no `href`). */
  function Link(f: Feed): (r: string)
    requires ValidFeed(f)
    ensures r == if TopLevel(f.model, "link", AlternateFilter) != []
                 then FirstHref(TopLevel(f.model, "link", AlternateFilter))
                 else FirstHref(TopLevel(f.model, "link", NoAttrs))
  {
    FeedQuery(f, "link", AlternateFilter);
    FeedQuery(f, "link", NoAttrs);
    var items := f.xpath.Evaluate(AlternateLinks);
    if |items| != 0 then FirstHref(items)
    else
      var bare := f.xpath.Evaluate(BareLinks);
      if |bare| == 0 then "" else FirstHref(bare)
  }

  /** getFeedLink: the `href` of the first top-level `rel="self"` link, "" when
      there is none. */
  function FeedLink(f: Feed): (r: string)
    requires ValidFeed(f)
    ensures r == FirstHref(TopLevel(f.model, "link", AttrIs("rel", "self")))
  {
    FeedQuery(f, "link", AttrIs("rel", "self"));
    var items := f.xpath.Evaluate(SelfLinks);
    if |items| == 0 then "" else FirstHref(items)
  }

  /** getTitle: the first top-level `title`, "" when there is none. */
  function Title(f: Feed): (r: string)
    requires ValidFeed(f)
    ensures r == FirstValue(TopLevel(f.model, "title", AnyAttrs))
  {
    FeedQuery(f, "title", AnyAttrs);
    var items := f.xpath.Evaluate(Titles);
    if |items| == 0 then "" else TextContent(items[0])
  }

  /** getDescription: the first top-level `subtitle`, "" when there is none. */
  function Description(f: Feed): (r: string)
    requires ValidFeed(f)
    ensures r == FirstValue(TopLevel(f.model, "subtitle", AnyAttrs))
  {
    FeedQuery(f, "subtitle", AnyAttrs);
    var items := f.xpath.Evaluate(Subtitles);
    if |items| == 0 then "" else TextContent(items[0])
  }

  /** getFeedType: the `$feedType` field, fixed at 'Atom 1.0'. */
  function FeedType(f: Feed): (r: string)
    ensures r == "Atom 1.0"
  {
    FeedTypeLabel
  }

  /** getItems: one FeedParserAtomElement per `Atom:entry` anywhere in the
      document, in document order, each over a copy of that entry. */
  method GetItems(f: Feed) returns (items: seq<Item>)
    requires ValidFeed(f)
    ensures |items| == |Descendants(f.model, "entry", AnyAttrs)|
    ensures forall i :: 0 <= i < |items| ==> items[i] == NewItem(Descendants(f.model, "entry", AnyAttrs)[i])
  {
    var entries := f.xpath.Evaluate(Entries);
    items := NewItems(entries);
  }

  /** The `foreach` of getItems: one entry object per selected element, in order. */
  method NewItems(entries: seq<Node>) returns (items: seq<Item>)
    requires forall k :: 0 <= k < |entries| ==> entries[k].Elem?
    ensures |items| == |entries|
    ensures forall k :: 0 <= k < |items| ==> items[k] == NewItem(entries[k])
  {
    items := [];
    for i := 0 to |entries|
      invariant |items| == i
      invariant forall k :: 0 <= k < i ==> items[k] == NewItem(entries[k])
    {
      items := items + [NewItem(entries[i])];
    }
  }

  /** Entry getTitle: the first `title` in the entry, "" when there is none. */
  function ItemTitle(e: Item): (r: string)
    requires ValidItem(e)
    ensures r == FirstValue(Descendants(e.model, "title", AnyAttrs))
  {
    var items := e.xpath.Evaluate(ItemTitles);
    if |items| == 0 then "" else TextContent(items[0])
  }

  /** Entry getContent: the first `content`, with no fallback. */
  function ItemContent(e: Item): (r: string)
    requires ValidItem(e)
    ensures r == FirstValue(Descendants(e.model, "content", AnyAttrs))
  {
    var items := e.xpath.Evaluate(ItemContents);
    if |items| == 0 then "" else TextContent(items[0])
  }

  /** Entry getPubDate: the first `updated` (never `published`). */
  function ItemPubDate(e: Item): (r: string)
    requires ValidItem(e)
    ensures r == FirstValue(Descendants(e.model, "updated", AnyAttrs))
  {
    var items := e.xpath.Evaluate(ItemUpdated);
    if |items| == 0 then "" else TextContent(items[0])
  }

  /** Entry getLink: the feed-level link rule over the whole entry. */
  function ItemLink(e: Item): (r: string)
    requires ValidItem(e)
    ensures r == if Descendants(e.model, "link", AlternateFilter) != []
                 then FirstHref(Descendants(e.model, "link", AlternateFilter))
                 else FirstHref(Descendants(e.model, "link", NoAttrs))
  {
    var items := e.xpath.Evaluate(ItemAlternateLinks);
    if |items| != 0 then FirstHref(items)
    else
      var bare := e.xpath.Evaluate(ItemBareLinks);
      if |bare| == 0 then "" else FirstHref(bare)
  }

  /** A link with no attributes has no `href`: the bare-link fallback can only
      ever give "". */
  lemma BareLinkHasNoHref(ns: seq<Node>, q: QName)
    ensures FirstHref(Where(ns, q, NoAttrs)) == ""
  {
    var w := Where(ns, q, NoAttrs);
    if w != [] {
      assert w[0] in w;
    }
  }

  /** getLink returns the `href` of the first top-level alternate link
      whenever there is one. */
  lemma LinkPrefersAlternate(f: Feed, i: int)
    requires ValidFeed(f)
    requires Selects(f.model, AtomName("feed"), AnyAttrs)
    requires IsFirst(f.model.children, AtomName("link"), AlternateFilter, i)
    ensures Link(f) == FirstHref([f.model.children[i]])
  {
    WhereFirst(f.model.children, AtomName("link"), AlternateFilter, i);
  }

  /** Without a top-level alternate link getLink falls back to the bare
      links, and so returns "". */
  lemma LinkWithoutAlternate(f: Feed)
    requires ValidFeed(f)
    requires TopLevel(f.model, "link", AlternateFilter) == []
    ensures Link(f) == FirstHref(TopLevel(f.model, "link", NoAttrs))
    ensures Link(f) == ""
  {
    BareLinkHasNoHref(f.model.children, AtomName("link"));
  }

  /** The entry link follows the same rule over the entry's elements. */
  lemma ItemLinkRule(e: Item, i: int)
    requires ValidItem(e)
    requires i == -1 || IsFirst(Subtree(e.model), AtomName("link"), AlternateFilter, i)
    requires i == -1 ==> Descendants(e.model, "link", AlternateFilter) == []
    ensures i >= 0 ==> ItemLink(e) == FirstHref([Subtree(e.model)[i]])
    ensures i == -1 ==> ItemLink(e) == ""
  {
    if i >= 0 {
      WhereFirst(Subtree(e.model), AtomName("link"), AlternateFilter, i);
    } else {
      BareLinkHasNoHref(Subtree(e.model), AtomName("link"));
    }
  }

  /** getTitle and getDescription return the first top-level match even when
      there are several, and "" when there is none. */
  lemma TitleAndDescriptionFirst(f: Feed, local: string, i: int)
    requires ValidFeed(f)
    requires local == "title" || local == "subtitle"
    requires Selects(f.model, AtomName("feed"), AnyAttrs)
    requires i == -1 || IsFirst(f.model.children, AtomName(local), AnyAttrs, i)
    requires i == -1 ==> forall j :: 0 <= j < |f.model.children| ==> !Selects(f.model.children[j], AtomName(local), AnyAttrs)
    ensures i >= 0 ==> (if local == "title" then Title(f) else Description(f)) == TextContent(f.model.children[i])
    ensures i == -1 ==> (if local == "title" then Title(f) else Description(f)) == ""
  {
    if i >= 0 {
      WhereFirst(f.model.children, AtomName(local), AnyAttrs, i);
    }
  }

  /** Entry getPubDate is the first `updated` of the entry: `published`
      elements are never consulted, however many there are. */
  lemma PubDateIsFirstUpdated(e: Item, i: int)
    requires ValidItem(e)
    requires i == -1 || IsFirst(Subtree(e.model), AtomName("updated"), AnyAttrs, i)
    requires i == -1 ==> Descendants(e.model, "updated", AnyAttrs) == []
    ensures i >= 0 ==> ItemPubDate(e) == TextContent(Subtree(e.model)[i])
    ensures i == -1 ==> ItemPubDate(e) == ""
  {
    if i >= 0 {
      WhereFirst(Subtree(e.model), AtomName("updated"), AnyAttrs, i);
    }
  }

  /** An Atom 0.3 feed (detected as Atom) is queried with the Atom 1.0 URI
      only: when none of its elements is in that namespace, and its root does
      not bind the `Atom` prefix itself, title, description, link and feed
      link are "" and there are no entries. */
  lemma Atom03Unread(f: Feed)
    requires ValidFeed(f) && f.model.ns == Atom03Ns
    requires forall k :: 0 <= k < |Subtree(f.model)| ==> NamespaceOf(Subtree(f.model)[k]) != AtomNs
    ensures Title(f) == "" && Description(f) == "" && Link(f) == "" && FeedLink(f) == ""
    ensures Descendants(f.model, "entry", AnyAttrs) == []
  {
    forall k | 0 <= k < |Subtree(f.model)| ensures !Selects(Subtree(f.model)[k], AtomName("entry"), AnyAttrs) {
      assert NamespaceOf(Subtree(f.model)[k]) != AtomNs;
    }
  }
}
