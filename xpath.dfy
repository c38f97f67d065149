/** The part of DOMXPath the feed classes use: prefixes registered with
    `registerNamespace`, and `evaluate` on absolute location paths
    (`/a/b/c[...]`) and on `//a[...]`, over a document whose root is an
    element. */
module XPath {
  import opened Xml

  /** One location step: a possibly prefixed name test and a filter. An
      unprefixed name test selects elements in no namespace. */
  datatype Step = Step(prefix: string, local: string, filter: Filter)

  /** `Absolute(steps)` is `/s1/s2/...`; `Anywhere(s)` is `//s`. */
  datatype Path = Absolute(steps: seq<Step>) | Anywhere(step: Step)

  /** A namespace table in the order the PHP array literal lists it. */
  type Table = seq<(string, string)>

  /** The prefix bindings a table leaves behind when registered entry by
      entry: a later entry for the same prefix wins. */
  function TableMap(t: Table): map<string, string> {
    if t == [] then map[] else TableMap(t[..|t| - 1])[t[|t| - 1].0 := t[|t| - 1].1]
  }

  /** A DOMXPath object: its document and the prefixes registered on it. */
  datatype Context = Context(doc: Element, bindings: map<string, string>) {

    /** `registerNamespace(prefix, uri)`. */
    function Register(prefix: string, uri: string): Context {
      Context(doc, bindings[prefix := uri])
    }

    /** A step's prefix can be resolved (unprefixed steps always can). */
    predicate Binds(s: Step) {
      s.prefix == "" || s.prefix in bindings
    }

    predicate Resolves(p: Path) {
      match p
      case Absolute(steps) => forall i :: 0 <= i < |steps| ==> Binds(steps[i])
      case Anywhere(s) => Binds(s)
    }

    /** The expanded name a step tests for. */
    function Name(s: Step): QName
      requires Binds(s)
    {
      QName(if s.prefix == "" then "" else bindings[s.prefix], s.local)
    }

    /** The nodes selected by `evaluate(p)`, in document order. */
    function Evaluate(p: Path): seq<Node>
      requires Resolves(p)
    {
      match p
      case Absolute(steps) =>
        if steps == [] then []
        else Descend(Where([doc], Name(steps[0]), steps[0].filter), steps[1..])
      case Anywhere(s) => Where(Subtree(doc), Name(s), s.filter)
    }

    /** Applies the remaining steps of an absolute path to the nodes the
        earlier steps selected. */
    function Descend(matched: seq<Node>, steps: seq<Step>): seq<Node>
      requires forall i :: 0 <= i < |steps| ==> Binds(steps[i])
      decreases |steps|
    {
      if steps == [] then matched
      else Descend(Where(AllChildren(matched), Name(steps[0]), steps[0].filter), steps[1..])
    }
  }

  /** The namespace-registration loop of the feed constructors:
      `foreach ($this->namespaces as $key => $value) registerNamespace($key, $value)`. */
  method RegisterNamespaces(c: Context, table: Table) returns (r: Context)
    ensures r.doc == c.doc
    ensures r.bindings == c.bindings + TableMap(table)
  {
    r := c;
    var i := 0;
    while i < |table|
      invariant 0 <= i <= |table|
      invariant r.doc == c.doc
      invariant r.bindings == c.bindings + TableMap(table[..i])
    {
      assert table[..i + 1][..i] == table[..i];
      r := r.Register(table[i].0, table[i].1);
      i := i + 1;
    }
    assert table[..|table|] == table;
  }

  /** A two-step path `/a/b[...]` selects the children of the root that the
      second step selects, provided the root matches the first. */
  lemma ChildPath(c: Context, s0: Step, s1: Step)
    requires c.Binds(s0) && c.Binds(s1)
    ensures c.Resolves(Absolute([s0, s1]))
    ensures c.Evaluate(Absolute([s0, s1]))
         == if Selects(c.doc, c.Name(s0), s0.filter)
            then Where(c.doc.children, c.Name(s1), s1.filter) else []
  {
    var steps := [s0, s1];
    assert steps[1..] == [s1] && [s1][1..] == [];
    var top := Where([c.doc], c.Name(s0), s0.filter);
    RootStep(c, s0);
    assert c.Evaluate(Absolute(steps)) == c.Descend(top, [s1]);
    assert c.Descend(top, [s1]) == Where(AllChildren(top), c.Name(s1), s1.filter);
  }

  /** The first step of an absolute path tests the root element alone. */
  lemma RootStep(c: Context, s0: Step)
    requires c.Binds(s0)
    ensures AllChildren(Where([c.doc], c.Name(s0), s0.filter))
         == if Selects(c.doc, c.Name(s0), s0.filter) then c.doc.children else []
  {
    assert [c.doc][1..] == [];
    if Selects(c.doc, c.Name(s0), s0.filter) {
      assert Where([c.doc], c.Name(s0), s0.filter) == [c.doc];
      assert AllChildren([c.doc]) == c.doc.children + AllChildren([]);
    } else {
      assert Where([c.doc], c.Name(s0), s0.filter) == [];
    }
  }

  /** A three-step path `/a/b/c` selects, in order, the `c` children of each
      `b` child of the root, provided the root matches `a`. */
  lemma GrandchildPath(c: Context, s0: Step, s1: Step, s2: Step)
    requires c.Binds(s0) && c.Binds(s1) && c.Binds(s2)
    ensures c.Resolves(Absolute([s0, s1, s2]))
    ensures c.Evaluate(Absolute([s0, s1, s2]))
         == if Selects(c.doc, c.Name(s0), s0.filter)
            then Where(AllChildren(Where(c.doc.children, c.Name(s1), s1.filter)), c.Name(s2), s2.filter)
            else []
  {
    var steps := [s0, s1, s2];
    assert steps[1..] == [s1, s2] && [s1, s2][1..] == [s2] && [s2][1..] == [];
    var top := Where([c.doc], c.Name(s0), s0.filter);
    RootStep(c, s0);
    var mid := Where(AllChildren(top), c.Name(s1), s1.filter);
    assert c.Evaluate(Absolute(steps)) == c.Descend(top, [s1, s2]);
    assert c.Descend(top, [s1, s2]) == c.Descend(mid, [s2]);
    assert c.Descend(mid, [s2]) == Where(AllChildren(mid), c.Name(s2), s2.filter);
    if !Selects(c.doc, c.Name(s0), s0.filter) {
      assert mid == [];
    }
  }
}
