# FeedParser in Dafny

A model of the PHP library FeedParser. The library reads a syndication
document (Atom 1.0/0.3, RSS 0.91/0.92/2.0, RSS 1.0, RSS 1.1, RSS 0.90). It
guesses the dialect from the root element. It then builds a dialect object
whose getters read the feed's title, description, link, feed link and type,
and its items. Each item's getters read its title, content, publication date
and link.

Modules, one per source file or concern:

- `Xml` (xml.dfy): the DOM tree the PHP code queries. Elements carry a
  namespace URI, a prefix, a local name, attributes, namespace declarations
  and children; text and comments are separate nodes. It also holds
  `nodeValue` (`TextContent`), `tagName`, `lookupPrefix`, pre-order
  traversal, and PHP's `empty()` on strings (`IsEmptyString`, which is what
  `is_empty` in FeedParser.php:280-283 returns). `FirstNonEmpty` is a
  reference definition of the "first query whose value is not empty"
  fallback.
- `XPath` (xpath.dfy): the two XPath shapes the library uses, `/a/b/c[...]`
  and `//a[...]`, with prefixes resolved through `registerNamespace`.
- `Detector` (detector.dfy): the `switch (true)` of the FeedParser
  constructor as an ordered list of rules. PHP's loose `==` between the
  `version` attribute and a float literal is a parameter (`LooseEquals`).
- `Atom`, `Rss2`, `Rdf`, `Rss090` (atom.dfy, rss2.dfy, rdf.dfy, rss090.dfy):
  the dialect classes and their item classes. Each object is a datatype
  holding its document and its XPath context. The RSS 2, RDF and RSS 0.90
  constructors and every `getItems` are methods with the source's loops; the
  Atom constructors, which register one prefix, are functions. The getters are
  functions whose contracts restate each XPath query as a function of the
  tree.
- `FeedParser` (feedparser.dfy): the facade. `Create` runs the detector and
  builds the chosen dialect object. The getters are forwarded to that
  object, and lemmas cover the end-to-end scenarios.

Points where the code does something other than what its comments or the
standards it follows suggest. The model follows the code:

- The comment in Atom.php:146-149 says a link without a `rel` attribute must
  be read as `alternate`, which is the rule of section 4.2.7.2 of RFC 4287.
  The query it uses is `link[not(@*)]`, though, so the link it selects has no
  `href` either. The model gives "" for it (`Atom.BareLinkHasNoHref`,
  `Atom.LinkWithoutAlternate`). PHP dereferences the missing attribute there
  and gets null with a warning (see "## Left out").
- The detector recognises RSS 1.1 by `http://purl.org/rss/1.1/`. The RDF
  classes then bind `rss` to `http://purl.org/net/rss1.1#`. So a document
  detected as RSS 1.1 through that URI, none of whose root's children is in
  `http://purl.org/net/rss1.1#` and whose root does not bind the `rss` prefix
  itself, yields no title, description, link or items
  (`Rdf.Rss11NamespaceMismatch`, `FeedParser.Rss11DetectedButUnread`).
- An Atom 0.3 root is detected as Atom with a deprecation warning
  (FeedParser.php:100-106). The Atom class only binds the Atom 1.0 URI
  (Atom.php:83), so an Atom 0.3 document with no element in that namespace,
  whose root does not bind the `Atom` prefix itself, yields no title,
  description, links or entries (`Atom.Atom03Unread`).
- The RSS 2 rule compares `version` with `2` loosely, not exactly
  (`Detector.GenericRss`).
- The " " sentinels are kept as written. RSS 2 entry titles and RSS 0.90
  entry links use " ", while the RDF entry link returns "" for the same
  condition (`Rss090.SameItemAsRdf090`).

## Model

| member | source | states |
|---|---|---|
| Detector.Detect | FeedParser.php:79-187 | the ordered rules: the parse error exactly for an unparsable document, Atom only for the two Atom namespaces, RDF only with type "1.0", "1.1" or "0.90", the Atom 0.3 warning exactly for that namespace, and any other warning only with RSS 2 |
| Detector.ParseFailureFirst | FeedParser.php:82-84 | a document that does not parse is rejected with the parse error before any rule is tried |
| Detector.AtomNamespaceWins | FeedParser.php:93-96 | a root in the Atom 1.0 namespace is Atom, with no warning, whatever its tag, attributes and children |
| Detector.Atom03Deprecated | FeedParser.php:100-106 | a root in the Atom 0.3 namespace goes to the Atom parser with the deprecation warning |
| Detector.Rdf10Exactly | FeedParser.php:110-120 | RSS 1.0 is chosen if and only if the root is not Atom and one of three tests holds: root namespace, a prefix bound to the RSS 1.0 URI, or the second child's namespace |
| Detector.Rdf11Exactly | FeedParser.php:124-132 | RSS 1.1 is chosen if and only if no earlier rule fires and the root or its second child is in the RSS 1.1 detection URI |
| Detector.Rdf090Exactly | FeedParser.php:136-145 | RSS 0.90 is chosen if and only if no earlier rule fires and the root or its second child is in the RSS 0.90 URI |
| Detector.DeclarationsOnlyForRss10 | FeedParser.php:110-145 | namespace declarations matter only through the RSS 1.0 prefix test: changing them without binding the RSS 1.0 URI leaves the classification unchanged |
| Detector.LegacyRssBeforeGeneric | FeedParser.php:149-167 | an `rss` root with version loosely 0.91 or 0.92 is RSS 2 with that version's warning, never the generic warning |
| Detector.GenericRss | FeedParser.php:171-180 | a root reaching the generic rule is RSS 2; the version warning appears if and only if `version` is absent or not loosely equal to 2 |
| Detector.UnknownExactly | FeedParser.php:183-185 | "Feed type unknown" if and only if no rule holds |
| Xml.TagNameUnprefixed | FeedParser.php:149-172 | comparing `tagName` with `rss` holds if and only if the root is written `rss` without a prefix |
| Xml.FirstNonEmptyPicksFirstUsable | RDF.php:346-360 | the fallback chain yields the value of the first query whose first match PHP does not call empty |
| Xml.FirstNonEmptyAllEmpty | RDF.php:346-360 | when every query's first match is empty, the chain yields the last query's value, which is empty too |
| XPath.RegisterNamespaces | RSS2.php:87-88 | the registration loop binds every prefix of the table, a later entry winning, and keeps the document |
| Atom.NewFeed | Atom.php:72-84 | the feed object is over the document with exactly the `Atom` prefix bound |
| Atom.NewItem | Atom.php:262-272 | the entry object is over its document with exactly the `Atom` prefix bound |
| Atom.Link | Atom.php:128-156 | the `href` of the first top-level alternate link; otherwise of the first top-level link without attributes; "" when neither exists |
| Atom.FeedLink | Atom.php:164-174 | the `href` of the first top-level `rel="self"` link, "" when there is none |
| Atom.Title | Atom.php:182-196 | the value of the first top-level `title`, "" when there is none |
| Atom.Description | Atom.php:205-219 | the value of the first top-level `subtitle`, "" when there is none |
| Atom.FeedType | Atom.php:228-231 | always "Atom 1.0" |
| Atom.GetItems | Atom.php:98-119 | one entry object per `Atom:entry` at any depth, in document order, each over that entry |
| Atom.NewItems | Atom.php:104-117 | the `foreach` builds exactly one entry object per selected element, in the same order |
| Atom.ItemTitle | Atom.php:280-297 | the first `title` in the entry, "" when there is none |
| Atom.ItemContent | Atom.php:307-317 | the first `content` in the entry, with no fallback |
| Atom.ItemPubDate | Atom.php:325-337 | the first `updated` in the entry |
| Atom.ItemLink | Atom.php:346-374 | the alternate-then-bare link rule over all of the entry's elements |
| Atom.BareLinkHasNoHref | Atom.php:146-154 | a link selected by `[not(@*)]` has no `href`, so the bare-link fallback gives "" in the model (PHP: null with a warning) |
| Atom.LinkPrefersAlternate | Atom.php:133-139 | when a top-level alternate link exists, getLink is the `href` of the first one |
| Atom.LinkWithoutAlternate | Atom.php:141-154 | without a top-level alternate link, getLink falls back to the bare links and yields "" |
| Atom.ItemLinkRule | Atom.php:352-374 | the entry link is the first alternate link's `href` in document order, "" when there is no alternate link |
| Atom.TitleAndDescriptionFirst | Atom.php:182-218 | with several top-level titles or subtitles the first is returned; with none, "" |
| Atom.PubDateIsFirstUpdated | Atom.php:325-337 | the entry date is the text of the first `updated` element in document order, "" without one |
| Atom.Atom03Unread | Atom.php:82-83 | an Atom 0.3 feed with no element in the Atom 1.0 namespace has empty title, description, link and feed link, and no entries |
| Rss2.TableBindings | RSS2.php:64-66 | registering the table binds exactly `dc` and `content` |
| Rss2.NewFeed | RSS2.php:77-89 | the feed object is over the document with the table's bindings |
| Rss2.NewItem | RSS2.php:259-270 | the item object is over its document with the table's bindings |
| Rss2.ChannelValue | RSS2.php:97-174 | feed link, title and description are the first `/rss/channel/{link,title,description}` value, "" when there is none |
| Rss2.FeedLink | RSS2.php:127-130 | always "" |
| Rss2.FeedType | RSS2.php:184-187 | always "RSS 2.0" |
| Rss2.GetItems | RSS2.php:200-220 | one item object per un-namespaced `item` at any depth, in document order |
| Rss2.NewItems | RSS2.php:206-218 | the `foreach` builds exactly one item object per selected element, in the same order |
| Rss2.ItemTitle | RSS2.php:278-295 | " " when the first `title` is absent or empty, its value otherwise |
| Rss2.ItemContent | RSS2.php:303-321 | the fallback chain `content:encoded` then `description` |
| Rss2.ItemPubDate | RSS2.php:329-337 | the first `pubDate`, "" when there is none |
| Rss2.ItemLink | RSS2.php:346-355 | the first `link`, "" when there is none |
| Rss2.ItemTitleNeverEmpty | RSS2.php:288-294 | the entry title is never "" (that branch is unreachable), and it is " " exactly for an absent, "", "0" or " " title |
| Rss2.ItemContentFallback | RSS2.php:310-320 | a non-empty `content:encoded` wins; otherwise the first `description`, or "" |
| Rdf.TableBindings | RDF.php:66-110 | `rdf`, `dc`, `content` and `sy` are bound the same way for every type, and `rss` to the type's URI |
| Rdf.LabelRoundTrip | RDF.php:283-302 | the entry's label-to-URI switch maps a feed's label back to the URI the feed bound; distinct types get distinct labels and URIs |
| Rdf.NewFeed | RDF.php:84-111 | the type fixes the label and the `rss` URI, and the XPath context binds the table |
| Rdf.NewItem | RDF.php:283-308 | the entry object binds `rss` to the URI of the label it is given |
| Rdf.ChannelValue | RDF.php:119-196 | feed link, title and description are the first `/rdf:RDF/rss:channel/rss:{link,title,description}` value, "" when there is none |
| Rdf.FeedLink | RDF.php:148-151 | always "" |
| Rdf.FeedType | RDF.php:205-208 | the label the constructor chose, one of the three, and it maps back to the `rss` URI the feed queries |
| Rdf.GetItems | RDF.php:221-241 | one entry per `rss:item` child of the root, in order, each querying the feed's `rss` URI |
| Rdf.NewItems | RDF.php:227-238 | the `foreach` builds one entry per selected element, in order, each querying the URI of the feed's label |
| Rdf.ItemTitle | RDF.php:316-331 | the first `rss:title`, "" when there is none |
| Rdf.ItemContent | RDF.php:339-361 | `content:encoded`, then `dc:description`, then `rss:description`, advancing only past empty values |
| Rdf.ItemPubDate | RDF.php:369-377 | the first `rss:pubDate`, "" when there is none |
| Rdf.ItemLink | RDF.php:386-394 | the first `rss:link`, "" when there is none |
| Rdf.ItemContentChain | RDF.php:346-360 | the entry content is the reference fallback chain over its three queries |
| Rdf.ItemsAreRootChildren | RDF.php:225-240 | an element is an item if and only if it is an `rss:item` child of an `rdf:RDF` root; items nested in the channel are not |
| Rdf.Rss11NamespaceMismatch | RDF.php:102-105 | an RSS 1.1 feed with no root child in `http://purl.org/net/rss1.1#` has empty title, description and link, and no items |
| Rss090.TableBindings | RSS090.php:74-79 | the fixed table binds the same prefixes as the RDF classes do for type "0.90" |
| Rss090.NewFeed | RSS090.php:89-101 | the feed object is over the document with the fixed bindings |
| Rss090.NewItem | RSS090.php:273-284 | the entry object is over its document with the fixed bindings |
| Rss090.ChannelValue | RSS090.php:109-186 | feed link, title and description are the first channel child of that name in the 0.9 namespace, "" when there is none |
| Rss090.FeedLink | RSS090.php:138-141 | always "" |
| Rss090.FeedType | RSS090.php:195-198 | always "RSS 0.9", which differs from the RDF class's "RSS 0.90" |
| Rss090.GetItems | RSS090.php:211-231 | one entry per `rss:item` child of the `rdf:RDF` root, in document order |
| Rss090.NewItems | RSS090.php:218-228 | the `foreach` builds exactly one entry object per selected element, in the same order |
| Rss090.ItemTitle | RSS090.php:292-307 | the first `rss:title`, "" when there is none |
| Rss090.ItemContent | RSS090.php:315-338 | `content:encoded`, then `dc:description`, then `rss:description`, advancing only past empty values |
| Rss090.ItemPubDate | RSS090.php:346-354 | the first `rss:pubDate`, "" when there is none |
| Rss090.ItemLink | RSS090.php:363-377 | " " when the first `rss:link` is absent or empty, its value otherwise |
| Rss090.ItemLinkNeverEmpty | RSS090.php:366-376 | the entry link is never "" (that branch is unreachable), and it is " " exactly for an absent, "", "0" or " " link |
| Rss090.ItemContentChain | RSS090.php:322-337 | the entry content is the reference fallback chain over its three queries |
| Rss090.SameFeedAsRdf090 | RSS090.php:109-231 | this class reads the same title, description, link and items as the RDF class of type "0.90"; only the label differs |
| Rss090.SameItemAsRdf090 | RSS090.php:292-377 | its entries have the same title and date as RDF 0.90 entries, and the same link except that an empty one becomes " " |
| Rss090.SameContentAsRdf090 | RSS090.php:315-338 | its entries have the same content as RDF 0.90 entries |
| FeedParser.DetectedRdfType | FeedParser.php:119-144 | the detector only passes "1.0", "1.1" or "0.90" to the RDF class |
| FeedParser.Create | FeedParser.php:79-187 | the parse and unknown-type errors propagate; otherwise the object of the detected class is built over the document, RDF with the detected type |
| FeedParser.GetItems | FeedParser.php:201-206 | forwarded getItems returns the dialect object's items |
| FeedParser.ItemsDeterministic | FeedParser.php:201-206 | two getItems calls on the same feed return equal item lists |
| FeedParser.FeedTypeByDialect | FeedParser.php:90-180 | the reported type is fixed by the detected dialect, and only Atom has a feed link |
| FeedParser.AtomLinks | Atom.php:128-174 | an Atom feed with an alternate and a self link reports the first as link and the second as feed link |
| FeedParser.Rss091 | FeedParser.php:149-156 | `<rss version="0.91">` is parsed as RSS 2.0 with exactly the 0.91 warning |
| FeedParser.Rss2DescriptionOnly | RSS2.php:303-321 | an RSS 2 item holding only `<description>Hello</description>` has content "Hello" |
| FeedParser.Rdf10DescriptionOnly | RDF.php:339-361 | an RSS 1.0 entry holding only `rss:description` "Body" has content "Body" |
| FeedParser.Rss11DetectedButUnread | FeedParser.php:124-132 | the scenario document `Rss11Scenario`, an `rdf:RDF` root whose channel is in `http://purl.org/rss/1.1/`, is detected as RSS 1.1, and the parser built for it reads no title, description, link or items |

## Left out

- Strict mode: the `relaxNGValidate` branch of every constructor has no working implementation in the library and is not modelled.
- The `__get` property forwarding of FeedParser is not modelled; `__call` is modelled by the forwarding functions.
- The `echo` diagnostics on multiple titles, links, descriptions or entries are output only and are not modelled.
- The warning texts are computed (`Detector.Detect`) but, as in the library, never emitted.
- Detector.Detect: PHP's loose comparison of the `version` string with a float is a parameter, not a model of PHP's numeric-string rules.
- Xml.LookupPrefix: looks only at the root's own declarations; the root has no element ancestors, so this is all DOM consults there.
- XPath.Context.Evaluate: registered prefixes are resolved through the registered table only; libxml's preference for namespaces in scope at the context node is not modelled.
- Attributes in a namespace are not modelled; the queries only test un-namespaced `rel` and `href` and "any attribute".
- Xml.FirstHref: a link without `href` yields "" where PHP dereferences the missing attribute and returns null with a warning (Atom.php:138, 154, 173, 357, 373).
- The copy of each item into a fresh document (`importNode`) is modelled as the item element becoming the item's root; namespace declarations inherited from its ancestors are not copied into the model.
- Text values: entity expansion, CDATA sections and whitespace handling of the XML parser are not modelled; a value is the concatenation of the text nodes below the element.
- Rdf.NewFeed: requires one of the three type strings; with any other string the PHP object has no label and no `rss` binding, and the detector never passes one.
- Rdf.NewItem: requires one of the three labels, which is all `getItems` ever passes.
- The example script feed.php (reading a URL and printing) is I/O and is not part of this model.
