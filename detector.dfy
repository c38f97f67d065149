/** The dialect detection of the FeedParser constructor (FeedParser.php): the
    `switch (true)` over the root element that picks the parser class, as an
    ordered first-match rule list. */
module Detector {
  import opened Wrappers
  import opened Xml
  import opened Namespaces

  /** What `DOMDocument::loadXML` gives back: a failure or the document's
      root element. */
  datatype Loaded = LoadFailed | Loaded(root: Element)

  /** The float literals the constructor compares the `version` attribute
      with: `0.91`, `0.92` and `2`. */
  datatype VersionLiteral = V0_91 | V0_92 | V2

  /** PHP's loose `==` between an attribute string and one of those literals;
      `!=` is its negation. */
  type LooseEquals = (string, VersionLiteral) -> bool

  /** The parser class chosen: FeedParserAtom, FeedParserRDF with its type
      argument ("1.0", "1.1" or "0.90"), or FeedParserRSS2. */
  datatype Dialect = Atom | Rdf(rdfType: string) | Rss2

  /** The chosen class and the text left in the constructor's `$error`
      variable, which is never emitted. */
  datatype Detection = Detection(dialect: Dialect, warning: Option<string>)

  /** The two exceptions the constructor throws. */
  datatype FeedError = ParseError | UnknownFeedType

  function Message(e: FeedError): string {
    match e
    case ParseError => "Error while parsing XML document"
    case UnknownFeedType => "Feed type unknown"
  }

  const Atom03Warning := "Atom 0.3 deprecated, using 1.0 parser which won't\n\t\t\t\t          provide all options"
  const Rss091Warning := "RSS 0.91 has been superceded by RSS2.0. Using RSS2.0 parser."
  const Rss092Warning := "RSS 0.92 has been superceded by RSS2.0. Using RSS2.0 parser."
  const Rss2VersionWarning := "RSS version not specified. Parsing as RSS2.0"

  /** `hasChildNodes() && childNodes->length > 1 && childNodes->item(1)->namespaceURI == uri`:
      the root's second child node (text included) is in `uri`. */
  predicate SecondChildIn(root: Element, uri: string) {
    |root.children| > 1 && NamespaceOf(root.children[1]) == uri
  }

  /** The test shared by the three RDF rules: the root, or its second child,
      is in `uri`. */
  predicate RdfRootOrChild(root: Element, uri: string) {
    root.ns == uri || SecondChildIn(root, uri)
  }

  /** The RSS 1.0 rule additionally accepts `uri` bound to a prefix on the root. */
  predicate IsRss10(root: Element) {
    RdfRootOrChild(root, Rss10Ns) || LookupPrefix(root, Rss10Ns) != ""
  }

  /** `hasAttribute('version') && getAttribute('version') == v`. */
  predicate VersionIs(root: Element, eq: LooseEquals, v: VersionLiteral) {
    "version" in root.attrs && eq(root.attrs["version"], v)
  }

  /** `tagName == 'rss'` and a version loosely equal to `v`. */
  predicate IsLegacyRss(root: Element, eq: LooseEquals, v: VersionLiteral) {
    TagName(root) == "rss" && VersionIs(root, eq, v)
  }

  /** The generic RSS 2 rule: a userland/harvard root namespace or the tag `rss`. */
  predicate IsGenericRss(root: Element) {
    root.ns in Rss2FeedNamespaces || TagName(root) == "rss"
  }

  /** The constructor's classification: parse failure first, then the cases
      of the switch in source order, the first that holds deciding. */
  function Detect(doc: Loaded, eq: LooseEquals): (r: Result<Detection, FeedError>)
    ensures r == Err(ParseError) <==> doc.LoadFailed?
    ensures r.Ok? && r.value.dialect.Atom? ==> AtomRoot(doc.root)
    ensures r.Ok? && r.value.dialect.Rdf? ==> r.value.dialect.rdfType in ["1.0", "1.1", "0.90"]
    ensures r.Ok? && r.value.warning == Some(Atom03Warning) <==> doc.Loaded? && doc.root.ns == Atom03Ns
    ensures r.Ok? && r.value.warning.Some? && r.value.warning != Some(Atom03Warning) ==> r.value.dialect == Rss2
  {
    match doc
    case LoadFailed => Err(ParseError)
    case Loaded(root) =>
      if root.ns == AtomNs then Ok(Detection(Atom, None))
      else if root.ns == Atom03Ns then Ok(Detection(Atom, Some(Atom03Warning)))
      else if IsRss10(root) then Ok(Detection(Rdf("1.0"), None))
      else if RdfRootOrChild(root, Rss11DetectNs) then Ok(Detection(Rdf("1.1"), None))
      else if RdfRootOrChild(root, Rss090Ns) then Ok(Detection(Rdf("0.90"), None))
      else if IsLegacyRss(root, eq, V0_91) then Ok(Detection(Rss2, Some(Rss091Warning)))
      else if IsLegacyRss(root, eq, V0_92) then Ok(Detection(Rss2, Some(Rss092Warning)))
      else if IsGenericRss(root) then
        Ok(Detection(Rss2, if !VersionIs(root, eq, V2) then Some(Rss2VersionWarning) else None))
      else Err(UnknownFeedType)
  }

  /** The rules that come before the RDF ones: the two Atom namespaces. */
  predicate AtomRoot(root: Element) {
    root.ns == AtomNs || root.ns == Atom03Ns
  }

  /** The rules that come before the RSS-tag ones: Atom and the three RDF rules. */
  predicate NamespaceRoot(root: Element) {
    AtomRoot(root) || IsRss10(root) || RdfRootOrChild(root, Rss11DetectNs) || RdfRootOrChild(root, Rss090Ns)
  }

  /** A document that does not parse is rejected before any rule is tried. */
  lemma ParseFailureFirst(eq: LooseEquals)
    ensures Detect(LoadFailed, eq) == Err(ParseError)
    ensures Message(Detect(LoadFailed, eq).error) == "Error while parsing XML document"
  {
  }

  /** An Atom 1.0 root namespace gives Atom with no warning, whatever the
      tag, attributes, declarations and children. */
  lemma AtomNamespaceWins(root: Element, eq: LooseEquals)
    requires root.ns == AtomNs
    ensures Detect(Loaded(root), eq) == Ok(Detection(Atom, None))
  {
  }

  /** The Atom 0.3 namespace gives the Atom parser with the deprecation warning. */
  lemma Atom03Deprecated(root: Element, eq: LooseEquals)
    requires root.ns == Atom03Ns
    ensures Detect(Loaded(root), eq) == Ok(Detection(Atom, Some(Atom03Warning)))
  {
  }

  /** RDF 1.0 is chosen exactly when the root is not Atom and one of its
      three tests holds: root namespace, a prefix bound to the RSS 1.0 URI,
      or the second child's namespace. */
  lemma Rdf10Exactly(root: Element, eq: LooseEquals)
    ensures (Detect(Loaded(root), eq) == Ok(Detection(Rdf("1.0"), None)))
        <==> !AtomRoot(root)
             && (root.ns == Rss10Ns || LookupPrefix(root, Rss10Ns) != "" || SecondChildIn(root, Rss10Ns))
  {
  }

  /** RDF 1.1 is chosen exactly when no earlier rule fires and the root or its
      second child is in the RSS 1.1 detection URI. */
  lemma Rdf11Exactly(root: Element, eq: LooseEquals)
    ensures (Detect(Loaded(root), eq) == Ok(Detection(Rdf("1.1"), None)))
        <==> !AtomRoot(root) && !IsRss10(root)
             && (root.ns == Rss11DetectNs || SecondChildIn(root, Rss11DetectNs))
  {
  }

  /** RDF 0.90 is chosen exactly when no earlier rule fires and the root or
      its second child is in the RSS 0.90 URI. */
  lemma Rdf090Exactly(root: Element, eq: LooseEquals)
    ensures (Detect(Loaded(root), eq) == Ok(Detection(Rdf("0.90"), None)))
        <==> !AtomRoot(root) && !IsRss10(root) && !RdfRootOrChild(root, Rss11DetectNs)
             && (root.ns == Rss090Ns || SecondChildIn(root, Rss090Ns))
  {
  }

  /** Only the RSS 1.0 rule looks at namespace declarations: two roots that
      differ only in their declarations, neither binding the RSS 1.0 URI to a
      prefix, are classified alike (in particular a prefix bound to the RSS 1.1
      or 0.90 URI changes nothing). */
  lemma DeclarationsOnlyForRss10(root: Element, decls: seq<(string, string)>, eq: LooseEquals)
    requires LookupPrefix(root, Rss10Ns) == ""
    requires LookupPrefixIn(decls, Rss10Ns) == ""
    ensures Detect(Loaded(root.(decls := decls)), eq) == Detect(Loaded(root), eq)
  {
  }

  /** An unprefixed `rss` root with a version loosely equal to 0.91 (or 0.92),
      reaching the RSS rules, is parsed as RSS 2 with that version's warning;
      the generic rule's warning is never produced for it. */
  lemma LegacyRssBeforeGeneric(root: Element, eq: LooseEquals, v: VersionLiteral)
    requires !NamespaceRoot(root)
    requires root.prefix == "" && root.local == "rss"
    requires v == V0_91 || v == V0_92
    requires VersionIs(root, eq, v)
    requires v == V0_92 ==> !VersionIs(root, eq, V0_91)
    ensures Detect(Loaded(root), eq)
         == Ok(Detection(Rss2, Some(if v == V0_91 then Rss091Warning else Rss092Warning)))
    ensures Detect(Loaded(root), eq).value.warning != Some(Rss2VersionWarning)
  {
  }

  /** A root reaching the generic RSS rule is parsed as RSS 2; the version
      warning is produced exactly when `version` is absent or not loosely
      equal to 2. */
  lemma GenericRss(root: Element, eq: LooseEquals)
    requires !NamespaceRoot(root)
    requires !IsLegacyRss(root, eq, V0_91) && !IsLegacyRss(root, eq, V0_92)
    requires root.ns in Rss2FeedNamespaces || (root.prefix == "" && root.local == "rss")
    ensures Detect(Loaded(root), eq).Ok?
    ensures Detect(Loaded(root), eq).value.dialect == Rss2
    ensures Detect(Loaded(root), eq).value.warning == Some(Rss2VersionWarning)
        <==> !("version" in root.attrs) || !eq(root.attrs["version"], V2)
    ensures Detect(Loaded(root), eq).value.warning == None
        <==> "version" in root.attrs && eq(root.attrs["version"], V2)
  {
  }

  /** A parsed document is rejected as of unknown type exactly when no rule
      holds. */
  lemma UnknownExactly(root: Element, eq: LooseEquals)
    ensures Detect(Loaded(root), eq) == Err(UnknownFeedType)
        <==> !NamespaceRoot(root) && root.ns !in Rss2FeedNamespaces && TagName(root) != "rss"
  {
  }
}
