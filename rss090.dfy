/** FeedParserRSS090 and FeedParserRSS090Element (RSS090.php): a standalone
    RSS 0.90 parser with the `rss` prefix fixed to the Netscape 0.9 URI. The
    detector never chooses it; RSS 0.90 documents go to FeedParserRDF. */
module Rss090 {
  import opened Xml
  import opened XPath
  import opened Namespaces
  import Rdf

  const FeedTypeLabel := "RSS 0.9"

  /** The `$namespaces` array of both classes, in its literal order. */
  const Table: XPath.Table :=
    [("rdf", RdfNs), ("rss", Rss090Ns), ("dc", DcNs), ("content", ContentNs), ("sy", SyNs)]

  const Bindings := map["rdf" := RdfNs, "rss" := Rss090Ns, "dc" := DcNs, "content" := ContentNs, "sy" := SyNs]

  /** Registering the table binds its five prefixes as listed; the bindings
      are those of FeedParserRDF for type "0.90", although the array lists
      them in another order. */
  lemma TableBindings()
    ensures TableMap(Table) == Bindings
    ensures Bindings == Rdf.BindingsFor(Rss090Ns)
  {
    var t1, t2, t3, t4 :=
      [("rdf", RdfNs)],
      [("rdf", RdfNs), ("rss", Rss090Ns)],
      [("rdf", RdfNs), ("rss", Rss090Ns), ("dc", DcNs)],
      [("rdf", RdfNs), ("rss", Rss090Ns), ("dc", DcNs), ("content", ContentNs)];
    assert t1[..0] == [] && t2[..1] == t1 && t3[..2] == t2 && t4[..3] == t3 && Table[..4] == t4;
    assert TableMap(t1) == map["rdf" := RdfNs];
    assert TableMap(t2) == map["rdf" := RdfNs, "rss" := Rss090Ns];
    assert TableMap(t3) == map["rdf" := RdfNs, "rss" := Rss090Ns, "dc" := DcNs];
    assert TableMap(t4) == map["rdf" := RdfNs, "rss" := Rss090Ns, "dc" := DcNs, "content" := ContentNs];
  }

  /** A FeedParserRSS090 object. */
  datatype Feed = Feed(model: Element, xpath: Context)

  /** A FeedParserRSS090Element object: a document holding one item. */
  datatype Item = Item(model: Element, xpath: Context)

  predicate ValidFeed(f: Feed) {
    f.xpath == Context(f.model, Bindings)
  }

  predicate ValidItem(e: Item) {
    e.xpath == Context(e.model, Bindings)
  }

  /** `new FeedParserRSS090($xml)`: a fresh XPath object with the table
      registered in a loop. */
  method NewFeed(xml: Element) returns (f: Feed)
    ensures ValidFeed(f) && f.model == xml
  {
    var xpath := RegisterNamespaces(Context(xml, map[]), Table);
    TableBindings();
    assert map[] + Bindings == Bindings;
    f := Feed(xml, xpath);
  }

  /** `new FeedParserRSS090Element($doc)`. */
  method NewItem(xml: Element) returns (e: Item)
    ensures ValidItem(e) && e.model == xml
  {
    var xpath := RegisterNamespaces(Context(xml, map[]), Table);
    TableBindings();
    assert map[] + Bindings == Bindings;
    e := Item(xml, xpath);
  }

  /** The first match of `/rdf:RDF/rss:channel/rss:local`, "" when there is none. */
  function ChannelValue(f: Feed, local: string): (r: string)
    requires ValidFeed(f)
    ensures r == FirstValue(Rdf.ChannelChildren(f.model, Rss090Ns, local))
  {
    TableBindings();
    Rdf.ChannelQuery(f.xpath, Rss090Ns, local);
    var items := f.xpath.Evaluate(Rdf.ChannelPath(local));
    if |items| == 0 then "" else TextContent(items[0])
  }

  /** getLink. */
  function Link(f: Feed): string
    requires ValidFeed(f)
  {
    ChannelValue(f, "link")
  }

  /** getFeedLink: RSS has no link to the feed itself. */
  function FeedLink(f: Feed): (r: string)
    ensures r == ""
  {
    ""
  }

  /** getTitle. */
  function Title(f: Feed): string
    requires ValidFeed(f)
  {
    ChannelValue(f, "title")
  }

  /** getDescription. */
  function Description(f: Feed): string
    requires ValidFeed(f)
  {
    ChannelValue(f, "description")
  }

  /** getFeedType: "RSS 0.9", which is not the label the RDF class gives
      the same dialect. */
  function FeedType(f: Feed): (r: string)
    ensures r == "RSS 0.9" && r != Rdf.FeedTypeFor("0.90")
  {
    FeedTypeLabel
  }

  /** getItems: one FeedParserRSS090Element per `rss:item` child of the
      `rdf:RDF` root, in document order. */
  method GetItems(f: Feed) returns (items: seq<Item>)
    requires ValidFeed(f)
    ensures |items| == |Rdf.TopItems(f.model, Rss090Ns)|
    ensures forall i :: 0 <= i < |items| ==>
              ValidItem(items[i]) && items[i].model == Rdf.TopItems(f.model, Rss090Ns)[i]
  {
    TableBindings();
    Rdf.ItemsQuery(f.xpath, Rss090Ns);
    var entries := f.xpath.Evaluate(Rdf.ItemsPath);
    items := NewItems(entries);
  }

  /** The `foreach` of getItems: one entry object per selected element, in order. */
  method NewItems(entries: seq<Node>) returns (items: seq<Item>)
    requires forall k :: 0 <= k < |entries| ==> entries[k].Elem?
    ensures |items| == |entries|
    ensures forall k :: 0 <= k < |items| ==> ValidItem(items[k]) && items[k].model == entries[k]
  {
    items := [];
    for i := 0 to |entries|
      invariant |items| == i
      invariant forall k :: 0 <= k < i ==> ValidItem(items[k]) && items[k].model == entries[k]
    {
      var item := NewItem(entries[i]);
      items := items + [item];
    }
  }

  /** The elements `//prefix:local` selects in an item's document. */
  function ItemMatches(e: Item, prefix: string, local: string): (r: seq<Node>)
    requires ValidItem(e)
    requires prefix in Bindings
    ensures r == DescendantsOf(e.model, QName(Bindings[prefix], local))
  {
    e.xpath.Evaluate(Anywhere(Step(prefix, local, AnyAttrs)))
  }

  /** Entry getTitle: the first `rss:title`, "" when there is none. */
  function ItemTitle(e: Item): (r: string)
    requires ValidItem(e)
    ensures r == FirstValue(DescendantsOf(e.model, QName(Rss090Ns, "title")))
  {
    var items := ItemMatches(e, "rss", "title");
    if |items| == 0 then "" else TextContent(items[0])
  }

  /** Entry getContent: `content:encoded`, then `dc:description`, then
      `rss:description`, moving on only while PHP calls the first match's
      value empty. */
  function ItemContent(e: Item): (r: string)
    requires ValidItem(e)
    ensures var enc := FirstValue(DescendantsOf(e.model, QName(ContentNs, "encoded")));
            var dc := FirstValue(DescendantsOf(e.model, QName(DcNs, "description")));
            var desc := FirstValue(DescendantsOf(e.model, QName(Rss090Ns, "description")));
            r == if !IsEmptyString(enc) then enc else if !IsEmptyString(dc) then dc else desc
  {
    var encoded := ItemMatches(e, "content", "encoded");
    var items :=
      if IsEmptyString(FirstValue(encoded)) then
        var dc := ItemMatches(e, "dc", "description");
        if IsEmptyString(FirstValue(dc)) then ItemMatches(e, "rss", "description") else dc
      else encoded;
    if |items| == 0 then "" else TextContent(items[0])
  }

  /** Entry getPubDate: the first `rss:pubDate`, "" when there is none. */
  function ItemPubDate(e: Item): (r: string)
    requires ValidItem(e)
    ensures r == FirstValue(DescendantsOf(e.model, QName(Rss090Ns, "pubDate")))
  {
    var items := ItemMatches(e, "rss", "pubDate");
    if |items| == 0 then "" else TextContent(items[0])
  }

  /** Entry getLink: " " when the first `rss:link` is missing or its value is
      empty, that value otherwise. The emptiness test comes first, so the
      "no match" branch after it is never taken. */
  function ItemLink(e: Item): (r: string)
    requires ValidItem(e)
    ensures var v := FirstValue(DescendantsOf(e.model, QName(Rss090Ns, "link")));
            r == if IsEmptyString(v) then " " else v
  {
    var items := ItemMatches(e, "rss", "link");
    if IsEmptyString(FirstValue(items)) then " "
    else if |items| == 0 then ""
    else TextContent(items[0])
  }

  /** An entry link is never "": it is " " exactly when the first `rss:link`
      is missing, empty, "0" or itself " ". */
  lemma ItemLinkNeverEmpty(e: Item)
    requires ValidItem(e)
    ensures ItemLink(e) != ""
    ensures var v := FirstValue(DescendantsOf(e.model, QName(Rss090Ns, "link")));
            ItemLink(e) == " " <==> IsEmptyString(v) || v == " "
  {
  }

  /** The content chain is the fallback order of getContent (`content:encoded`,
      then `dc:description`, then `rss:description`) over its three queries. */
  lemma ItemContentChain(e: Item)
    requires ValidItem(e)
    ensures ItemContent(e) == FirstNonEmpty([DescendantsOf(e.model, QName(ContentNs, "encoded")),
                                             DescendantsOf(e.model, QName(DcNs, "description")),
                                             DescendantsOf(e.model, QName(Rss090Ns, "description"))])
  {
    FirstNonEmptyOfThree(DescendantsOf(e.model, QName(ContentNs, "encoded")),
                         DescendantsOf(e.model, QName(DcNs, "description")),
                         DescendantsOf(e.model, QName(Rss090Ns, "description")));
  }

  /** This parser reads a document as FeedParserRDF of type "0.90" does: the
      same title, description, link and items. Only the label differs
      ("RSS 0.9" against "RSS 0.90"). */
  lemma SameFeedAsRdf090(f: Feed, g: Rdf.Feed)
    requires ValidFeed(f) && Rdf.ValidFeed(g)
    requires g.feedType == "RSS 0.90" && g.model == f.model
    ensures Title(f) == Rdf.Title(g)
    ensures Description(f) == Rdf.Description(g)
    ensures Link(f) == Rdf.Link(g)
    ensures FeedLink(f) == Rdf.FeedLink(g)
    ensures Rdf.TopItems(f.model, Rss090Ns) == Rdf.TopItems(g.model, Rdf.RssUri(g))
    ensures FeedType(f) != Rdf.FeedType(g)
  {
  }

  /** An entry reads as the RDF entry of an RSS 0.90 feed does, except that a
      missing or empty link becomes " " here and stays "" (or "0") there. */
  lemma SameItemAsRdf090(e: Item, d: Rdf.Item)
    requires ValidItem(e) && Rdf.ValidItem(d)
    requires Rdf.ItemRssUri(d) == Rss090Ns && d.model == e.model
    ensures ItemTitle(e) == Rdf.ItemTitle(d)
    ensures ItemPubDate(e) == Rdf.ItemPubDate(d)
    ensures ItemLink(e) == if IsEmptyString(Rdf.ItemLink(d)) then " " else Rdf.ItemLink(d)
  {
    var link := FirstValue(DescendantsOf(e.model, QName(Rss090Ns, "link")));
    assert Rdf.ItemLink(d) == link;
  }

  /** Both parsers take an entry's content from the same three queries. */
  lemma SameContentAsRdf090(e: Item, d: Rdf.Item)
    requires ValidItem(e) && Rdf.ValidItem(d)
    requires Rdf.ItemRssUri(d) == Rss090Ns && d.model == e.model
    ensures ItemContent(e) == Rdf.ItemContent(d)
  {
    ItemContentChain(e);
    Rdf.ItemContentChain(d);
  }
}
