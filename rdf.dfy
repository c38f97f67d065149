/** FeedParserRDF and FeedParserRDFElement (RDF.php): RSS 0.90, 1.0 and 1.1,
    which differ only in the URI bound to the `rss` prefix and in the label. */
module Rdf {
  import opened Xml
  import opened XPath
  import opened Namespaces

  /** The `$namespaces` array both classes start from, in its literal order. */
  const BaseTable: XPath.Table := [("rdf", RdfNs), ("dc", DcNs), ("content", ContentNs), ("sy", SyNs)]

  /** The array after the constructor's switch has added the `rss` entry. */
  function TableFor(rss: string): XPath.Table {
    BaseTable + [("rss", rss)]
  }

  function BindingsFor(rss: string): map<string, string> {
    map["rdf" := RdfNs, "dc" := DcNs, "content" := ContentNs, "sy" := SyNs, "rss" := rss]
  }

  /** Registering the table binds `rdf`, `dc`, `content` and `sy` the same
      way for every type, and `rss` to the type's URI. */
  lemma TableBindings(rss: string)
    ensures TableMap(TableFor(rss)) == BindingsFor(rss)
  {
    var t := TableFor(rss);
    var t1, t2, t3 := [("rdf", RdfNs)], [("rdf", RdfNs), ("dc", DcNs)], [("rdf", RdfNs), ("dc", DcNs), ("content", ContentNs)];
    assert t1[..0] == [] && t2[..1] == t1 && t3[..2] == t2 && BaseTable[..3] == t3 && t[..4] == BaseTable;
    assert TableMap(t1) == map["rdf" := RdfNs];
    assert TableMap(t2) == map["rdf" := RdfNs, "dc" := DcNs];
    assert TableMap(t3) == map["rdf" := RdfNs, "dc" := DcNs, "content" := ContentNs];
    assert TableMap(BaseTable) == map["rdf" := RdfNs, "dc" := DcNs, "content" := ContentNs, "sy" := SyNs];
  }

  /** The `$type` values the detector passes to the feed constructor. */
  predicate IsRdfType(t: string) {
    t == "0.90" || t == "1.0" || t == "1.1"
  }

  /** The feed constructor's switch: the label it stores in `$feedType`. */
  function FeedTypeFor(t: string): string
    requires IsRdfType(t)
  {
    if t == "0.90" then "RSS 0.90" else if t == "1.0" then "RSS 1.0" else "RSS 1.1"
  }

  /** The feed constructor's switch: the URI it binds to `rss`. */
  function FeedRssUri(t: string): string
    requires IsRdfType(t)
  {
    if t == "0.90" then Rss090Ns else if t == "1.0" then Rss10Ns else Rss11Ns
  }

  /** The labels the element constructor's switch knows. */
  predicate IsLabel(feedLabel: string) {
    feedLabel == "RSS 0.90" || feedLabel == "RSS 1.0" || feedLabel == "RSS 1.1"
  }

  /** The element constructor's switch: the URI it binds to `rss` for the
      label the feed passes down. */
  function LabelRssUri(feedLabel: string): string
    requires IsLabel(feedLabel)
  {
    if feedLabel == "RSS 0.90" then Rss090Ns else if feedLabel == "RSS 1.0" then Rss10Ns else Rss11Ns
  }

  /** The two switches agree: the label a feed stores maps back, in the
      element's table, to the `rss` URI the feed itself bound, and different
      types get different labels and URIs. */
  lemma LabelRoundTrip(t: string, u: string)
    requires IsRdfType(t) && IsRdfType(u)
    ensures IsLabel(FeedTypeFor(t))
    ensures LabelRssUri(FeedTypeFor(t)) == FeedRssUri(t)
    ensures t != u ==> FeedTypeFor(t) != FeedTypeFor(u) && FeedRssUri(t) != FeedRssUri(u)
  {
  }

  /** A FeedParserRDF object. */
  datatype Feed = Feed(model: Element, feedType: string, xpath: Context)

  /** A FeedParserRDFElement object: a document holding one item. */
  datatype Item = Item(model: Element, xpath: Context)

  /** What the feed constructor establishes: a known label, and the XPath
      object over the model with the table for that label's URI. */
  predicate ValidFeed(f: Feed) {
    IsLabel(f.feedType) && f.xpath == Context(f.model, BindingsFor(LabelRssUri(f.feedType)))
  }

  /** The URI a feed queries `rss:` elements in. */
  function RssUri(f: Feed): string
    requires ValidFeed(f)
  {
    LabelRssUri(f.feedType)
  }

  predicate IsRssUri(rss: string) {
    rss == Rss090Ns || rss == Rss10Ns || rss == Rss11Ns
  }

  /** What the element constructor establishes, for the URI its label chose. */
  predicate ValidItem(e: Item) {
    && "rss" in e.xpath.bindings
    && IsRssUri(e.xpath.bindings["rss"])
    && e.xpath == Context(e.model, BindingsFor(e.xpath.bindings["rss"]))
  }

  function ItemRssUri(e: Item): string
    requires ValidItem(e)
  {
    e.xpath.bindings["rss"]
  }

  /** `new FeedParserRDF($xml, $type)`. */
  method NewFeed(xml: Element, rdfType: string) returns (f: Feed)
    requires IsRdfType(rdfType)
    ensures ValidFeed(f) && f.model == xml
    ensures f.feedType == FeedTypeFor(rdfType) && RssUri(f) == FeedRssUri(rdfType)
  {
    var feedType := FeedTypeFor(rdfType);
    var rss := FeedRssUri(rdfType);
    var xpath := RegisterNamespaces(Context(xml, map[]), TableFor(rss));
    TableBindings(rss);
    assert map[] + BindingsFor(rss) == BindingsFor(rss);
    f := Feed(xml, feedType, xpath);
  }

  /** `new FeedParserRDFElement($doc, $type)` with the feed's label as `$type`. */
  method NewItem(xml: Element, feedLabel: string) returns (e: Item)
    requires IsLabel(feedLabel)
    ensures ValidItem(e) && e.model == xml && ItemRssUri(e) == LabelRssUri(feedLabel)
  {
    var rss := LabelRssUri(feedLabel);
    var xpath := RegisterNamespaces(Context(xml, map[]), TableFor(rss));
    TableBindings(rss);
    assert map[] + BindingsFor(rss) == BindingsFor(rss);
    e := Item(xml, xpath);
  }

  const RdfStep := Step("rdf", "RDF", AnyAttrs)

  function ChannelPath(local: string): Path {
    Absolute([RdfStep, Step("rss", "channel", AnyAttrs), Step("rss", local, AnyAttrs)])
  }

  const ItemsPath := Absolute([RdfStep, Step("rss", "item", AnyAttrs)])

  /** Whether a root is `rdf:RDF`. */
  predicate IsRdfRoot(root: Element) {
    Selects(root, QName(RdfNs, "RDF"), AnyAttrs)
  }

  /** What `/rdf:RDF/rss:channel/rss:local` selects when `rss` is bound to `rss`. */
  function ChannelChildren(root: Element, rss: string, local: string): seq<Node> {
    if IsRdfRoot(root)
    then Where(AllChildren(Where(root.children, QName(rss, "channel"), AnyAttrs)), QName(rss, local), AnyAttrs)
    else []
  }

  /** What `/rdf:RDF/rss:item` selects: `item` children of the root itself. */
  function TopItems(root: Element, rss: string): seq<Node> {
    if IsRdfRoot(root) then Where(root.children, QName(rss, "item"), AnyAttrs) else []
  }

  /** The prefixes the RDF queries use resolve as the table lists them. */
  lemma BindingsLookup(rss: string)
    ensures "rdf" in BindingsFor(rss) && BindingsFor(rss)["rdf"] == RdfNs
    ensures "rss" in BindingsFor(rss) && BindingsFor(rss)["rss"] == rss
    ensures "dc" in BindingsFor(rss) && BindingsFor(rss)["dc"] == DcNs
    ensures "content" in BindingsFor(rss) && BindingsFor(rss)["content"] == ContentNs
  {
  }

  /** `/rdf:RDF/rss:channel/rss:local` over a context with the RDF table. */
  lemma ChannelQuery(c: Context, rss: string, local: string)
    requires c.bindings == BindingsFor(rss)
    ensures c.Resolves(ChannelPath(local))
    ensures c.Evaluate(ChannelPath(local)) == ChannelChildren(c.doc, rss, local)
  {
    BindingsLookup(rss);
    GrandchildPath(c, RdfStep, Step("rss", "channel", AnyAttrs), Step("rss", local, AnyAttrs));
  }

  /** `/rdf:RDF/rss:item` over a context with the RDF table. */
  lemma ItemsQuery(c: Context, rss: string)
    requires c.bindings == BindingsFor(rss)
    ensures c.Resolves(ItemsPath)
    ensures c.Evaluate(ItemsPath) == TopItems(c.doc, rss)
  {
    BindingsLookup(rss);
    ChildPath(c, RdfStep, Step("rss", "item", AnyAttrs));
  }

  /** The first match of `/rdf:RDF/rss:channel/rss:local`, "" when there is none. */
  function ChannelValue(f: Feed, local: string): (r: string)
    requires ValidFeed(f)
    ensures r == FirstValue(ChannelChildren(f.model, RssUri(f), local))
  {
    ChannelQuery(f.xpath, RssUri(f), local);
    var items := f.xpath.Evaluate(ChannelPath(local));
    if |items| == 0 then "" else TextContent(items[0])
  }

  /** getLink. */
  function Link(f: Feed): string
    requires ValidFeed(f)
  {
    ChannelValue(f, "link")
  }

  /** getFeedLink: RSS has no link to the feed itself. */
  function FeedLink(f: Feed): (r: string)
    ensures r == ""
  {
    ""
  }

  /** getTitle. */
  function Title(f: Feed): string
    requires ValidFeed(f)
  {
    ChannelValue(f, "title")
  }

  /** getDescription. */
  function Description(f: Feed): string
    requires ValidFeed(f)
  {
    ChannelValue(f, "description")
  }

  /** getFeedType: the label the constructor chose. */
  function FeedType(f: Feed): (r: string)
    ensures ValidFeed(f) ==> IsLabel(r) && LabelRssUri(r) == RssUri(f)
  {
    f.feedType
  }

  /** getItems: one FeedParserRDFElement per `rss:item` child of the root (not
      of the channel), in document order, each told the feed's label so that
      it queries the same `rss` URI. */
  method GetItems(f: Feed) returns (items: seq<Item>)
    requires ValidFeed(f)
    ensures |items| == |TopItems(f.model, RssUri(f))|
    ensures forall i :: 0 <= i < |items| ==>
              && ValidItem(items[i])
              && items[i].model == TopItems(f.model, RssUri(f))[i]
              && ItemRssUri(items[i]) == RssUri(f)
  {
    ItemsQuery(f.xpath, RssUri(f));
    var entries := f.xpath.Evaluate(ItemsPath);
    items := NewItems(entries, f.feedType);
  }

  /** The `foreach` of getItems: one entry object per selected element, in
      order, each given the feed's label. */
  method NewItems(entries: seq<Node>, feedLabel: string) returns (items: seq<Item>)
    requires IsLabel(feedLabel)
    requires forall k :: 0 <= k < |entries| ==> entries[k].Elem?
    ensures |items| == |entries|
    ensures forall k :: 0 <= k < |items| ==>
              ValidItem(items[k]) && items[k].model == entries[k] && ItemRssUri(items[k]) == LabelRssUri(feedLabel)
  {
    items := [];
    for i := 0 to |entries|
      invariant |items| == i
      invariant forall k :: 0 <= k < i ==>
                  ValidItem(items[k]) && items[k].model == entries[k] && ItemRssUri(items[k]) == LabelRssUri(feedLabel)
    {
      var item := NewItem(entries[i], feedLabel);
      items := items + [item];
    }
  }

  /** The elements `//prefix:local` selects in an item's document. */
  function ItemMatches(e: Item, prefix: string, local: string): (r: seq<Node>)
    requires ValidItem(e)
    requires prefix in BindingsFor(ItemRssUri(e))
    ensures r == DescendantsOf(e.model, QName(BindingsFor(ItemRssUri(e))[prefix], local))
  {
    e.xpath.Evaluate(Anywhere(Step(prefix, local, AnyAttrs)))
  }

  /** Entry getTitle: the first `rss:title`, "" when there is none. */
  function ItemTitle(e: Item): (r: string)
    requires ValidItem(e)
    ensures r == FirstValue(DescendantsOf(e.model, QName(ItemRssUri(e), "title")))
  {
    var items := ItemMatches(e, "rss", "title");
    if |items| == 0 then "" else TextContent(items[0])
  }

  /** Entry getContent: `content:encoded`, then `dc:description`, then
      `rss:description`, moving on only while PHP calls the first match's
      value empty. */
  function ItemContent(e: Item): (r: string)
    requires ValidItem(e)
    ensures var enc := FirstValue(DescendantsOf(e.model, QName(ContentNs, "encoded")));
            var dc := FirstValue(DescendantsOf(e.model, QName(DcNs, "description")));
            var desc := FirstValue(DescendantsOf(e.model, QName(ItemRssUri(e), "description")));
            r == if !IsEmptyString(enc) then enc else if !IsEmptyString(dc) then dc else desc
  {
    var encoded := ItemMatches(e, "content", "encoded");
    var items :=
      if IsEmptyString(FirstValue(encoded)) then
        var dc := ItemMatches(e, "dc", "description");
        if IsEmptyString(FirstValue(dc)) then ItemMatches(e, "rss", "description") else dc
      else encoded;
    if |items| == 0 then "" else TextContent(items[0])
  }

  /** Entry getPubDate: the first `rss:pubDate`, "" when there is none. */
  function ItemPubDate(e: Item): (r: string)
    requires ValidItem(e)
    ensures r == FirstValue(DescendantsOf(e.model, QName(ItemRssUri(e), "pubDate")))
  {
    var items := ItemMatches(e, "rss", "pubDate");
    if |items| == 0 then "" else TextContent(items[0])
  }

  /** Entry getLink: the first `rss:link`, "" when there is none. */
  function ItemLink(e: Item): (r: string)
    requires ValidItem(e)
    ensures r == FirstValue(DescendantsOf(e.model, QName(ItemRssUri(e), "link")))
  {
    var items := ItemMatches(e, "rss", "link");
    if |items| == 0 then "" else TextContent(items[0])
  }

  /** The content chain is the fallback order of getContent (`content:encoded`,
      then `dc:description`, then `rss:description`) over its three queries. */
  lemma ItemContentChain(e: Item)
    requires ValidItem(e)
    ensures ItemContent(e) == FirstNonEmpty([DescendantsOf(e.model, QName(ContentNs, "encoded")),
                                             DescendantsOf(e.model, QName(DcNs, "description")),
                                             DescendantsOf(e.model, QName(ItemRssUri(e), "description"))])
  {
    FirstNonEmptyOfThree(DescendantsOf(e.model, QName(ContentNs, "encoded")),
                         DescendantsOf(e.model, QName(DcNs, "description")),
                         DescendantsOf(e.model, QName(ItemRssUri(e), "description")));
  }

  /** getItems takes only `rss:item` children of the root: an item nested in
      the channel (or deeper) is not one of them. */
  lemma ItemsAreRootChildren(f: Feed, x: Node)
    requires ValidFeed(f)
    ensures x in TopItems(f.model, RssUri(f))
        <==> IsRdfRoot(f.model) && x in f.model.children && Selects(x, QName(RssUri(f), "item"), AnyAttrs)
  {
  }

  /** For RSS 1.1 the feed queries `http://purl.org/net/rss1.1#`: a document
      none of whose root's children is in that namespace, and whose root does
      not bind the `rss` prefix itself, has empty title, description and link,
      and no items, whatever the detector saw. */
  lemma Rss11NamespaceMismatch(f: Feed)
    requires ValidFeed(f) && f.feedType == "RSS 1.1"
    requires forall i :: 0 <= i < |f.model.children| ==> NamespaceOf(f.model.children[i]) != Rss11Ns
    ensures Title(f) == "" && Description(f) == "" && Link(f) == ""
    ensures TopItems(f.model, RssUri(f)) == []
  {
    assert Where(f.model.children, QName(Rss11Ns, "channel"), AnyAttrs) == [];
    assert AllChildren([]) == [];
  }
}
