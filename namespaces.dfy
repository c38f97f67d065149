/** The namespace URIs the feed classes detect and query, and the prefix
    tables their constructors register (FeedParser.php, Atom.php, RSS2.php,
    RDF.php, RSS090.php). */
module Namespaces {

  const AtomNs := "http://www.w3.org/2005/Atom"
  /** The deprecated Atom 0.3 namespace, parsed as Atom 1.0. */
  const Atom03Ns := "http://purl.org/atom/ns#"

  const Rss10Ns := "http://purl.org/rss/1.0/"
  /** The URI the detector takes as RSS 1.1. */
  const Rss11DetectNs := "http://purl.org/rss/1.1/"
  /** The URI the RDF classes bind the `rss` prefix to for RSS 1.1. */
  const Rss11Ns := "http://purl.org/net/rss1.1#"
  const Rss090Ns := "http://my.netscape.com/rdf/simple/0.9/"

  const RdfNs := "http://www.w3.org/1999/02/22-rdf-syntax-ns#"
  const DcNs := "http://purl.org/rss/1.0/modules/dc/"
  const ContentNs := "http://purl.org/rss/1.0/modules/content/"
  const SyNs := "http://web.resource.org/rss/1.0/modules/syndication/"

  /** `$feedNamespaces['rss2']`: root namespaces that mark an RSS 2 feed. */
  const Rss2FeedNamespaces: seq<string> := [
    "http://backend.userland.com/rss",
    "http://backend.userland.com/rss2",
    "http://blogs.law.harvard.edu/tech/rss"
  ]
}
