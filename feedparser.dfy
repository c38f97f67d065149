/** The FeedParser facade (FeedParser.php): it loads the document, lets the
    detector pick a dialect class, builds that object, and forwards every
    getter to it. */
module FeedParser {
  import opened Wrappers
  import opened Xml
  import opened Namespaces
  import opened Detector
  import Atom
  import Rss2
  import Rdf

  /** The dialect object held in `$this->feed`. */
  datatype AnyFeed = AtomFeed(atom: Atom.Feed) | Rss2Feed(rss2: Rss2.Feed) | RdfFeed(rdf: Rdf.Feed)

  /** One element of what `getItems` returns. */
  datatype AnyItem = AtomItem(atom: Atom.Item) | Rss2Item(rss2: Rss2.Item) | RdfItem(rdf: Rdf.Item)

  /** A FeedParser object: the parsed document and the dialect object. */
  datatype Parser = Parser(model: Element, feed: AnyFeed)

  predicate ValidFeed(f: AnyFeed) {
    match f
    case AtomFeed(a) => Atom.ValidFeed(a)
    case Rss2Feed(s) => Rss2.ValidFeed(s)
    case RdfFeed(d) => Rdf.ValidFeed(d)
  }

  predicate ValidItem(e: AnyItem) {
    match e
    case AtomItem(a) => Atom.ValidItem(a)
    case Rss2Item(s) => Rss2.ValidItem(s)
    case RdfItem(d) => Rdf.ValidItem(d)
  }

  function FeedModel(f: AnyFeed): Element {
    match f
    case AtomFeed(a) => a.model
    case Rss2Feed(s) => s.model
    case RdfFeed(d) => d.model
  }

  /** `p` is what the constructor builds for `root` once the detector has
      chosen `d`: the dialect object of that class, over the same document,
      and for RDF constructed with the detector's type argument. */
  predicate BuiltFrom(p: Parser, root: Element, d: Dialect) {
    && p.model == root
    && ValidFeed(p.feed)
    && FeedModel(p.feed) == root
    && match d
       case Atom => p.feed.AtomFeed?
       case Rss2 => p.feed.Rss2Feed?
       case Rdf(t) => p.feed.RdfFeed? && Rdf.IsRdfType(t) && p.feed.rdf.feedType == Rdf.FeedTypeFor(t)
  }

  /** The detector only ever passes one of the three RDF type strings. */
  lemma DetectedRdfType(doc: Loaded, eq: LooseEquals)
    requires Detect(doc, eq).Ok? && Detect(doc, eq).value.dialect.Rdf?
    ensures Rdf.IsRdfType(Detect(doc, eq).value.dialect.rdfType)
  {
  }

  /** `new FeedParser($xml)`: the parse failure and the unknown type become
      errors; otherwise the object of the detected class is built over the
      document. The warning text is computed by the detector and then
      dropped, as the constructor drops `$error`. */
  method Create(doc: Loaded, eq: LooseEquals) returns (r: Result<Parser, FeedError>)
    ensures Detect(doc, eq).Err? ==> r == Err(Detect(doc, eq).error)
    ensures Detect(doc, eq).Ok? ==> doc.Loaded? && r.Ok? && BuiltFrom(r.value, doc.root, Detect(doc, eq).value.dialect)
  {
    var detection := Detect(doc, eq);
    if detection.Err? {
      return Err(detection.error);
    }
    var root := doc.root;
    match detection.value.dialect
    case Atom =>
      r := Ok(Parser(root, AtomFeed(Atom.NewFeed(root))));
    case Rdf(t) =>
      DetectedRdfType(doc, eq);
      var f := Rdf.NewFeed(root, t);
      r := Ok(Parser(root, RdfFeed(f)));
    case Rss2 =>
      var f := Rss2.NewFeed(root);
      r := Ok(Parser(root, Rss2Feed(f)));
  }

  // The forwarding of `__call`: each feed getter goes to the dialect object.

  function Title(p: Parser): string
    requires ValidFeed(p.feed)
  {
    match p.feed
    case AtomFeed(a) => Atom.Title(a)
    case Rss2Feed(s) => Rss2.Title(s)
    case RdfFeed(d) => Rdf.Title(d)
  }

  function Description(p: Parser): string
    requires ValidFeed(p.feed)
  {
    match p.feed
    case AtomFeed(a) => Atom.Description(a)
    case Rss2Feed(s) => Rss2.Description(s)
    case RdfFeed(d) => Rdf.Description(d)
  }

  function Link(p: Parser): string
    requires ValidFeed(p.feed)
  {
    match p.feed
    case AtomFeed(a) => Atom.Link(a)
    case Rss2Feed(s) => Rss2.Link(s)
    case RdfFeed(d) => Rdf.Link(d)
  }

  function FeedLink(p: Parser): string
    requires ValidFeed(p.feed)
  {
    match p.feed
    case AtomFeed(a) => Atom.FeedLink(a)
    case Rss2Feed(s) => Rss2.FeedLink(s)
    case RdfFeed(d) => Rdf.FeedLink(d)
  }

  function FeedType(p: Parser): string {
    match p.feed
    case AtomFeed(a) => Atom.FeedType(a)
    case Rss2Feed(s) => Rss2.FeedType(s)
    case RdfFeed(d) => Rdf.FeedType(d)
  }

  /** `items` is what the dialect object's getItems returns. */
  predicate ItemsOf(f: AnyFeed, items: seq<AnyItem>)
    requires ValidFeed(f)
  {
    match f
    case AtomFeed(a) =>
      var entries := Atom.Descendants(a.model, "entry", AnyAttrs);
      && |items| == |entries|
      && forall i :: 0 <= i < |items| ==> items[i] == AtomItem(Atom.NewItem(entries[i]))
    case Rss2Feed(s) =>
      var entries := DescendantsOf(s.model, Rss2.Plain("item"));
      && |items| == |entries|
      && forall i :: 0 <= i < |items| ==>
           items[i].Rss2Item? && Rss2.ValidItem(items[i].rss2) && items[i].rss2.model == entries[i]
    case RdfFeed(d) =>
      var entries := Rdf.TopItems(d.model, Rdf.RssUri(d));
      && |items| == |entries|
      && forall i :: 0 <= i < |items| ==>
           && items[i].RdfItem?
           && Rdf.ValidItem(items[i].rdf)
           && items[i].rdf.model == entries[i]
           && Rdf.ItemRssUri(items[i].rdf) == Rdf.RssUri(d)
  }

  /** getItems, forwarded. */
  method GetItems(p: Parser) returns (items: seq<AnyItem>)
    requires ValidFeed(p.feed)
    ensures ItemsOf(p.feed, items)
    ensures forall i :: 0 <= i < |items| ==> ValidItem(items[i])
  {
    match p.feed
    case AtomFeed(a) =>
      var es := Atom.GetItems(a);
      items := seq(|es|, i requires 0 <= i < |es| => AtomItem(es[i]));
    case Rss2Feed(s) =>
      var es := Rss2.GetItems(s);
      items := seq(|es|, i requires 0 <= i < |es| => Rss2Item(es[i]));
    case RdfFeed(d) =>
      var es := Rdf.GetItems(d);
      items := seq(|es|, i requires 0 <= i < |es| => RdfItem(es[i]));
  }

  /** getItems on an unchanged document gives the same items every time: its
      postcondition leaves no freedom in the result. */
  lemma ItemsDeterministic(f: AnyFeed, a: seq<AnyItem>, b: seq<AnyItem>)
    requires ValidFeed(f) && ItemsOf(f, a) && ItemsOf(f, b)
    ensures a == b
  {
    assert |a| == |b|;
    forall i | 0 <= i < |a| ensures a[i] == b[i] {
      match f
      case AtomFeed(_) =>
      case Rss2Feed(_) =>
      case RdfFeed(d) =>
        assert a[i].rdf.xpath == b[i].rdf.xpath;
    }
  }

  // The item getters of the IItem interface, forwarded.

  function ItemTitle(e: AnyItem): string
    requires ValidItem(e)
  {
    match e
    case AtomItem(a) => Atom.ItemTitle(a)
    case Rss2Item(s) => Rss2.ItemTitle(s)
    case RdfItem(d) => Rdf.ItemTitle(d)
  }

  function ItemContent(e: AnyItem): string
    requires ValidItem(e)
  {
    match e
    case AtomItem(a) => Atom.ItemContent(a)
    case Rss2Item(s) => Rss2.ItemContent(s)
    case RdfItem(d) => Rdf.ItemContent(d)
  }

  function ItemPubDate(e: AnyItem): string
    requires ValidItem(e)
  {
    match e
    case AtomItem(a) => Atom.ItemPubDate(a)
    case Rss2Item(s) => Rss2.ItemPubDate(s)
    case RdfItem(d) => Rdf.ItemPubDate(d)
  }

  function ItemLink(e: AnyItem): string
    requires ValidItem(e)
  {
    match e
    case AtomItem(a) => Atom.ItemLink(a)
    case Rss2Item(s) => Rss2.ItemLink(s)
    case RdfItem(d) => Rdf.ItemLink(d)
  }

  /** The label a built parser reports is fixed by the detected dialect, and
      only Atom can report a link to the feed itself. */
  lemma FeedTypeByDialect(p: Parser, root: Element, d: Dialect)
    requires BuiltFrom(p, root, d)
    ensures FeedType(p) == match d
                           case Atom => "Atom 1.0"
                           case Rss2 => "RSS 2.0"
                           case Rdf(t) => if t == "0.90" then "RSS 0.90" else if t == "1.0" then "RSS 1.0" else "RSS 1.1"
    ensures !d.Atom? ==> FeedLink(p) == ""
  {
  }

  /** An Atom link element with the given attributes and no content. */
  function AtomLink(attrs: map<string, string>): Node {
    Elem(AtomNs, "", "link", attrs, [], [])
  }

  const SiteLink := AtomLink(map["rel" := "alternate", "href" := "http://site/"])
  const SelfLink := AtomLink(map["rel" := "self", "href" := "http://feed/"])
  const AtomScenario: Element := Elem(AtomNs, "", "feed", map[], [("", AtomNs)], [SiteLink, SelfLink])

  /** An Atom feed with an alternate and a self link: it is detected as Atom,
      its link is the alternate's `href` and its feed link the self link's. */
  lemma AtomLinks(p: Parser, eq: LooseEquals)
    requires BuiltFrom(p, AtomScenario, Atom)
    ensures Detect(Loaded(AtomScenario), eq) == Ok(Detection(Atom, None))
    ensures Link(p) == "http://site/"
    ensures FeedLink(p) == "http://feed/"
  {
    var q := Atom.AtomName("link");
    var alt := AttrIs("rel", "alternate");
    var self := AttrIs("rel", "self");
    assert [SiteLink, SelfLink][1..] == [SelfLink];
    assert Where([SiteLink, SelfLink], q, alt) == [SiteLink];
    assert !Selects(SiteLink, q, self);
    assert Where([SiteLink, SelfLink], q, self) == [SelfLink];
  }

  const Rss091Scenario: Element := Elem("", "", "rss", map["version" := "0.91"], [], [])

  /** `<rss version="0.91">`: parsed as RSS 2.0 with exactly the 0.91 warning,
      given that PHP's loose comparison takes "0.91" as equal to 0.91. */
  lemma Rss091(p: Parser, eq: LooseEquals)
    requires eq("0.91", V0_91)
    requires BuiltFrom(p, Rss091Scenario, Rss2)
    ensures Detect(Loaded(Rss091Scenario), eq) == Ok(Detection(Rss2, Some(Rss091Warning)))
    ensures FeedType(p) == "RSS 2.0"
  {
    LegacyRssBeforeGeneric(Rss091Scenario, eq, V0_91);
  }

  /** An element in no namespace holding only text. */
  function Leaf(local: string, text: string): Node {
    Elem("", "", local, map[], [], [Text(text)])
  }

  /** An RSS 2 item with only a `description` has that description as its
      content. */
  lemma Rss2DescriptionOnly(e: Rss2.Item)
    requires Rss2.ValidItem(e)
    requires e.model == Elem("", "", "item", map[], [], [Leaf("description", "Hello")])
    ensures ItemContent(Rss2Item(e)) == "Hello"
  {
    var d := Leaf("description", "Hello");
    assert [Text("Hello")][1..] == [];
    assert Subtree(Text("Hello")) == [];
    assert Subtree(d) == [d];
    assert [d][1..] == [];
    assert Subtree(e.model) == [e.model, d];
    assert [e.model, d][1..] == [d];
    assert DescendantsOf(e.model, QName(ContentNs, "encoded")) == [];
    assert DescendantsOf(e.model, Rss2.Plain("description")) == [d];
    assert TextContent(d) == "Hello";
  }

  /** An RSS 1.0 entry with only `rss:description` has that description as
      its content. */
  lemma Rdf10DescriptionOnly(e: Rdf.Item)
    requires Rdf.ValidItem(e) && Rdf.ItemRssUri(e) == Rss10Ns
    requires e.model == Elem(Rss10Ns, "", "item", map[], [],
                             [Elem(Rss10Ns, "", "description", map[], [], [Text("Body")])])
    ensures ItemContent(RdfItem(e)) == "Body"
  {
    var d := Elem(Rss10Ns, "", "description", map[], [], [Text("Body")]);
    assert [Text("Body")][1..] == [];
    assert Subtree(Text("Body")) == [];
    assert Subtree(d) == [d];
    assert [d][1..] == [];
    assert Subtree(e.model) == [e.model, d];
    assert [e.model, d][1..] == [d];
    assert DescendantsOf(e.model, QName(ContentNs, "encoded")) == [];
    assert DescendantsOf(e.model, QName(DcNs, "description")) == [];
    assert DescendantsOf(e.model, QName(Rss10Ns, "description")) == [d];
    assert TextContent(d) == "Body";
  }

  const Rss11Channel := Elem(Rss11DetectNs, "", "channel", map[], [("", Rss11DetectNs)],
                             [Elem(Rss11DetectNs, "", "title", map[], [], [Text("T")])])
  const Rss11Scenario: Element := Elem(RdfNs, "rdf", "RDF", map[], [("rdf", RdfNs)], [Text("\n"), Rss11Channel])

  /** An `rdf:RDF` document whose channel is in the RSS 1.1 URI the detector
      tests is classified RSS 1.1, yet the parser built for it reads no title,
      description, link or items: it queries a different URI. */
  lemma Rss11DetectedButUnread(p: Parser, eq: LooseEquals)
    requires BuiltFrom(p, Rss11Scenario, Rdf("1.1"))
    ensures Detect(Loaded(Rss11Scenario), eq) == Ok(Detection(Rdf("1.1"), None))
    ensures Title(p) == "" && Description(p) == "" && Link(p) == ""
    ensures Rdf.TopItems(p.model, Rdf.RssUri(p.feed.rdf)) == []
  {
    assert LookupPrefix(Rss11Scenario, Rss10Ns) == "" by {
      var decls := [("rdf", RdfNs)];
      assert decls[0].1 != Rss10Ns;
      assert decls[1..] == [];
      assert LookupPrefixIn(decls, Rss10Ns) == LookupPrefixIn([], Rss10Ns);
    }
    Rdf.Rss11NamespaceMismatch(p.feed.rdf);
  }
}
