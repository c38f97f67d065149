/** FeedParserRSS2 and FeedParserRSS2Element (RSS2.php): the RSS 0.91, 0.92
    and 2.0 family, whose elements have no namespace. */
module Rss2 {
  import opened Xml
  import opened XPath
  import opened Namespaces

  const FeedTypeLabel := "RSS 2.0"

  /** The `$namespaces` array of both classes, in its literal order. */
  const Table: XPath.Table := [("dc", DcNs), ("content", ContentNs)]

  const Bindings := map["dc" := DcNs, "content" := ContentNs]

  /** Registering the table leaves exactly the `dc` and `content` prefixes bound. */
  lemma TableBindings()
    ensures TableMap(Table) == Bindings
  {
    assert Table[..1] == [("dc", DcNs)];
    assert [("dc", DcNs)][..0] == [];
    assert TableMap([("dc", DcNs)]) == map["dc" := DcNs];
  }

  /** An element in no namespace: what an unprefixed XPath name test means. */
  function Plain(local: string): QName {
    QName("", local)
  }

  function ChannelStep(local: string): Path {
    Absolute([Step("", "rss", AnyAttrs), Step("", "channel", AnyAttrs), Step("", local, AnyAttrs)])
  }

  function AnywhereStep(prefix: string, local: string): Path {
    Anywhere(Step(prefix, local, AnyAttrs))
  }

  /** A FeedParserRSS2 object. */
  datatype Feed = Feed(model: Element, xpath: Context)

  /** A FeedParserRSS2Element object: a document holding one item. */
  datatype Item = Item(model: Element, xpath: Context)

  predicate ValidFeed(f: Feed) {
    f.xpath == Context(f.model, Bindings)
  }

  predicate ValidItem(e: Item) {
    e.xpath == Context(e.model, Bindings)
  }

  /** `new FeedParserRSS2($xml)`: a fresh XPath object with the table registered
      in a loop. */
  method NewFeed(xml: Element) returns (f: Feed)
    ensures ValidFeed(f) && f.model == xml
  {
    var xpath := RegisterNamespaces(Context(xml, map[]), Table);
    TableBindings();
    assert map[] + Bindings == Bindings;
    f := Feed(xml, xpath);
  }

  /** `new FeedParserRSS2Element($doc)`. */
  method NewItem(xml: Element) returns (e: Item)
    ensures ValidItem(e) && e.model == xml
  {
    var xpath := RegisterNamespaces(Context(xml, map[]), Table);
    TableBindings();
    assert map[] + Bindings == Bindings;
    e := Item(xml, xpath);
  }

  /** The `local` children of the `channel` children of an `rss` root, in
      document order: what `/rss/channel/local` selects. */
  function ChannelChildren(root: Element, local: string): seq<Node> {
    if Selects(root, Plain("rss"), AnyAttrs)
    then Where(AllChildren(Where(root.children, Plain("channel"), AnyAttrs)), Plain(local), AnyAttrs)
    else []
  }

  lemma ChannelQuery(f: Feed, local: string)
    requires ValidFeed(f)
    ensures f.xpath.Resolves(ChannelStep(local))
    ensures f.xpath.Evaluate(ChannelStep(local)) == ChannelChildren(f.model, local)
  {
    GrandchildPath(f.xpath, Step("", "rss", AnyAttrs), Step("", "channel", AnyAttrs), Step("", local, AnyAttrs));
  }

  /** The value every feed-level getter computes: the first match of
      `/rss/channel/local`, "" when there is none. */
  function ChannelValue(f: Feed, local: string): (r: string)
    requires ValidFeed(f)
    ensures r == FirstValue(ChannelChildren(f.model, local))
  {
    ChannelQuery(f, local);
    var items := f.xpath.Evaluate(ChannelStep(local));
    if |items| == 0 then "" else TextContent(items[0])
  }

  /** getLink. */
  function Link(f: Feed): string
    requires ValidFeed(f)
  {
    ChannelValue(f, "link")
  }

  /** getFeedLink: RSS has no link to the feed itself. */
  function FeedLink(f: Feed): (r: string)
    ensures r == ""
  {
    ""
  }

  /** getTitle. */
  function Title(f: Feed): string
    requires ValidFeed(f)
  {
    ChannelValue(f, "title")
  }

  /** getDescription. */
  function Description(f: Feed): string
    requires ValidFeed(f)
  {
    ChannelValue(f, "description")
  }

  /** getFeedType: fixed at 'RSS 2.0'. */
  function FeedType(f: Feed): (r: string)
    ensures r == "RSS 2.0"
  {
    FeedTypeLabel
  }

  /** getItems: one FeedParserRSS2Element per un-namespaced `item` anywhere
      in the document, in document order. */
  method GetItems(f: Feed) returns (items: seq<Item>)
    requires ValidFeed(f)
    ensures |items| == |DescendantsOf(f.model, Plain("item"))|
    ensures forall i :: 0 <= i < |items| ==>
              ValidItem(items[i]) && items[i].model == DescendantsOf(f.model, Plain("item"))[i]
  {
    var entries := f.xpath.Evaluate(AnywhereStep("", "item"));
    items := NewItems(entries);
  }

  /** The `foreach` of getItems: one item object per selected element, in order. */
  method NewItems(entries: seq<Node>) returns (items: seq<Item>)
    requires forall k :: 0 <= k < |entries| ==> entries[k].Elem?
    ensures |items| == |entries|
    ensures forall k :: 0 <= k < |items| ==> ValidItem(items[k]) && items[k].model == entries[k]
  {
    items := [];
    for i := 0 to |entries|
      invariant |items| == i
      invariant forall k :: 0 <= k < i ==> ValidItem(items[k]) && items[k].model == entries[k]
    {
      var item := NewItem(entries[i]);
      items := items + [item];
    }
  }

  /** The first match of `//local` (or `//prefix:local`) in an item's document. */
  function ItemMatches(e: Item, prefix: string, local: string): (r: seq<Node>)
    requires ValidItem(e)
    requires prefix == "" || prefix in Bindings
    ensures r == DescendantsOf(e.model, QName(if prefix == "" then "" else Bindings[prefix], local))
  {
    e.xpath.Evaluate(AnywhereStep(prefix, local))
  }

  /** Entry getTitle: a single space when the first `title` is absent or PHP
      calls its value empty, its value otherwise. */
  function ItemTitle(e: Item): (r: string)
    requires ValidItem(e)
    ensures var v := FirstValue(DescendantsOf(e.model, Plain("title")));
            r == if IsEmptyString(v) then " " else v
  {
    var items := ItemMatches(e, "", "title");
    if IsEmptyString(FirstValue(items)) then " "
    else if |items| == 0 then ""
    else TextContent(items[0])
  }

  /** Entry getContent: the first `content:encoded` unless PHP calls it empty,
      then the first `description`, then "". */
  function ItemContent(e: Item): (r: string)
    requires ValidItem(e)
    ensures r == FirstNonEmpty([DescendantsOf(e.model, QName(ContentNs, "encoded")),
                                DescendantsOf(e.model, Plain("description"))])
  {
    var encoded := ItemMatches(e, "content", "encoded");
    var items := if IsEmptyString(FirstValue(encoded)) then ItemMatches(e, "", "description") else encoded;
    if |items| == 0 then "" else TextContent(items[0])
  }

  /** Entry getPubDate: the first `pubDate`, "" when there is none. */
  function ItemPubDate(e: Item): (r: string)
    requires ValidItem(e)
    ensures r == FirstValue(DescendantsOf(e.model, Plain("pubDate")))
  {
    var items := ItemMatches(e, "", "pubDate");
    if |items| == 0 then "" else TextContent(items[0])
  }

  /** Entry getLink: the first `link`, "" when there is none. */
  function ItemLink(e: Item): (r: string)
    requires ValidItem(e)
    ensures r == FirstValue(DescendantsOf(e.model, Plain("link")))
  {
    var items := ItemMatches(e, "", "link");
    if |items| == 0 then "" else TextContent(items[0])
  }

  /** Entry getTitle never returns "" (its `''` branch is unreachable), and
      gives " " exactly for an absent, "", "0" or " " title. */
  lemma ItemTitleNeverEmpty(e: Item)
    requires ValidItem(e)
    ensures ItemTitle(e) != ""
    ensures var v := FirstValue(DescendantsOf(e.model, Plain("title")));
            ItemTitle(e) == " " <==> IsEmptyString(v) || v == " "
  {
  }

  /** Entry getContent: a non-empty `content:encoded` wins; otherwise the
      first `description`, or "" when there is none. */
  lemma ItemContentFallback(e: Item)
    requires ValidItem(e)
    ensures var enc := FirstValue(DescendantsOf(e.model, QName(ContentNs, "encoded")));
            ItemContent(e) == if !IsEmptyString(enc) then enc
                              else FirstValue(DescendantsOf(e.model, Plain("description")))
  {
  }
}
