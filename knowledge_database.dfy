/**
 * `KnowledgeDatabase.add_knowledge`: the graph is a set of `(label, name)`
 * nodes, since `merge` creates a node only when no node with that label and
 * name exists, and a sequence of typed edges, since every relationship is
 * created anew, never merged.
 */
module KnowledgeDb {
  import opened Wrappers

  /** The node labels this code writes: CONCEPT_LABEL, URL_LABEL, KEYWORD_LABEL. */
  datatype Label = ConceptLabel | UrlLabel | KeywordLabel

  datatype GraphNode = GraphNode(kind: Label, name: string)

  /** DESCRIBES_RELATIONSHIP (URL to Concept) and REPRESENTS_RELATIONSHIP (Keyword to Concept). */
  datatype Relationship = Describes | Represents

  datatype GraphEdge = GraphEdge(source: GraphNode, rel: Relationship, target: GraphNode)

  /** `KnowledgeConcept`: a concept name with its URLs and keywords, as extracted from one mail. */
  datatype KnowledgeConcept = KnowledgeConcept(name: string, urls: seq<string>, keywords: seq<string>)

  function ConceptNode(name: string): GraphNode { GraphNode(ConceptLabel, name) }
  function UrlNode(url: string): GraphNode { GraphNode(UrlLabel, url) }
  function KeywordNode(keyword: string): GraphNode { GraphNode(KeywordLabel, keyword) }

  /** The URL nodes merged for `urls`. */
  function UrlNodes(urls: seq<string>): set<GraphNode>
    decreases |urls|
  {
    if urls == [] then {} else UrlNodes(urls[..|urls| - 1]) + {UrlNode(urls[|urls| - 1])}
  }

  /** The keyword nodes merged for `keywords`. */
  function KeywordNodes(keywords: seq<string>): set<GraphNode>
    decreases |keywords|
  {
    if keywords == [] then {} else KeywordNodes(keywords[..|keywords| - 1]) + {KeywordNode(keywords[|keywords| - 1])}
  }

  /** The nodes merged for one concept: the concept, its URLs and its keywords. */
  function ConceptNodes(c: KnowledgeConcept): set<GraphNode> {
    {ConceptNode(c.name)} + UrlNodes(c.urls) + KeywordNodes(c.keywords)
  }

  /** The nodes merged for a list of concepts; every concept's own node is among them. */
  function NodesOf(concepts: seq<KnowledgeConcept>): (r: set<GraphNode>)
    ensures forall i :: 0 <= i < |concepts| ==> ConceptNode(concepts[i].name) in r
    decreases |concepts|
  {
    if concepts == [] then {}
    else NodesOf(concepts[..|concepts| - 1]) + ConceptNodes(concepts[|concepts| - 1])
  }

  /** The DESCRIBES edges created for a concept's URLs, one per URL, in URL order. */
  function DescribesEdges(name: string, urls: seq<string>): seq<GraphEdge>
    decreases |urls|
  {
    if urls == [] then []
    else DescribesEdges(name, urls[..|urls| - 1]) + [GraphEdge(UrlNode(urls[|urls| - 1]), Describes, ConceptNode(name))]
  }

  /** The REPRESENTS edges created for a concept's keywords, one per keyword, in keyword order. */
  function RepresentsEdges(name: string, keywords: seq<string>): seq<GraphEdge>
    decreases |keywords|
  {
    if keywords == [] then []
    else RepresentsEdges(name, keywords[..|keywords| - 1]) + [GraphEdge(KeywordNode(keywords[|keywords| - 1]), Represents, ConceptNode(name))]
  }

  /** The edges created for one concept: its URL edges, then its keyword edges. */
  function ConceptEdges(c: KnowledgeConcept): seq<GraphEdge> {
    DescribesEdges(c.name, c.urls) + RepresentsEdges(c.name, c.keywords)
  }

  /**
   * The edges created for a list of concepts, in creation order: one per
   * (concept, URL) pair and one per (concept, keyword) pair.
   */
  function EdgesOf(concepts: seq<KnowledgeConcept>): (r: seq<GraphEdge>)
    ensures |r| == UrlCount(concepts) + KeywordCount(concepts)
    decreases |concepts|
  {
    if concepts == [] then []
    else
      var last := concepts[|concepts| - 1];
      DescribesCount(last.name, last.urls);
      RepresentsCount(last.name, last.keywords);
      EdgesOf(concepts[..|concepts| - 1]) + ConceptEdges(last)
  }

  /** Total number of URLs over the concepts (`url_count` of a mail): no concept has more. */
  function UrlCount(concepts: seq<KnowledgeConcept>): (n: nat)
    ensures forall i :: 0 <= i < |concepts| ==> |concepts[i].urls| <= n
    decreases |concepts|
  {
    if concepts == [] then 0 else UrlCount(concepts[..|concepts| - 1]) + |concepts[|concepts| - 1].urls|
  }

  /** Total number of keywords over the concepts (`keyword_count` of a mail): no concept has more. */
  function KeywordCount(concepts: seq<KnowledgeConcept>): (n: nat)
    ensures forall i :: 0 <= i < |concepts| ==> |concepts[i].keywords| <= n
    decreases |concepts|
  {
    if concepts == [] then 0 else KeywordCount(concepts[..|concepts| - 1]) + |concepts[|concepts| - 1].keywords|
  }

  /**
   * Every edge joins two nodes of the graph, points at a Concept, and comes
   * from a URL when it is DESCRIBES and from a Keyword when it is REPRESENTS.
   */
  ghost predicate WellFormed(nodes: set<GraphNode>, edges: seq<GraphEdge>) {
    forall e :: e in edges ==>
      && e.source in nodes && e.target in nodes
      && e.target.kind == ConceptLabel
      && (e.rel == Describes <==> e.source.kind == UrlLabel)
      && (e.rel == Represents <==> e.source.kind == KeywordLabel)
  }

  /** A node is mentioned by the concepts: as a concept name, a URL or a keyword of one of them. */
  ghost predicate Mentions(concepts: seq<KnowledgeConcept>, n: GraphNode) {
    match n.kind
    case ConceptLabel => exists i :: 0 <= i < |concepts| && concepts[i].name == n.name
    case UrlLabel => exists i :: 0 <= i < |concepts| && n.name in concepts[i].urls
    case KeywordLabel => exists i :: 0 <= i < |concepts| && n.name in concepts[i].keywords
  }

  lemma {:induction false} UrlNodesExactly(urls: seq<string>, n: GraphNode)
    ensures n in UrlNodes(urls) <==> n.kind == UrlLabel && n.name in urls
    decreases |urls|
  {
    if urls != [] {
      var prefix := urls[..|urls| - 1];
      UrlNodesExactly(prefix, n);
      assert urls == prefix + [urls[|urls| - 1]];
    }
  }

  lemma {:induction false} KeywordNodesExactly(keywords: seq<string>, n: GraphNode)
    ensures n in KeywordNodes(keywords) <==> n.kind == KeywordLabel && n.name in keywords
    decreases |keywords|
  {
    if keywords != [] {
      var prefix := keywords[..|keywords| - 1];
      KeywordNodesExactly(prefix, n);
      assert keywords == prefix + [keywords[|keywords| - 1]];
    }
  }

  /**
   * The merged nodes are exactly the concept, URL and keyword nodes the
   * concepts mention: one per concept name, URL and keyword, and nothing else.
   */
  lemma {:induction false} NodesOfExactly(concepts: seq<KnowledgeConcept>, n: GraphNode)
    ensures n in NodesOf(concepts) <==> Mentions(concepts, n)
    decreases |concepts|
  {
    if concepts != [] {
      var prefix := concepts[..|concepts| - 1];
      var last := concepts[|concepts| - 1];
      NodesOfExactly(prefix, n);
      UrlNodesExactly(last.urls, n);
      KeywordNodesExactly(last.keywords, n);
      assert forall i :: 0 <= i < |prefix| ==> prefix[i] == concepts[i];
      if Mentions(concepts, n) && !Mentions(prefix, n) {
        match n.kind
        case ConceptLabel =>
          var i :| 0 <= i < |concepts| && concepts[i].name == n.name;
          assert i == |concepts| - 1;
        case UrlLabel =>
          var i :| 0 <= i < |concepts| && n.name in concepts[i].urls;
          assert i == |concepts| - 1;
        case KeywordLabel =>
          var i :| 0 <= i < |concepts| && n.name in concepts[i].keywords;
          assert i == |concepts| - 1;
      }
    }
  }

  lemma {:induction false} DescribesEdgesWellFormed(nodes: set<GraphNode>, name: string, urls: seq<string>)
    requires ConceptNode(name) in nodes && UrlNodes(urls) <= nodes
    ensures WellFormed(nodes, DescribesEdges(name, urls))
    decreases |urls|
  {
    if urls != [] {
      DescribesEdgesWellFormed(nodes, name, urls[..|urls| - 1]);
    }
  }

  lemma {:induction false} RepresentsEdgesWellFormed(nodes: set<GraphNode>, name: string, keywords: seq<string>)
    requires ConceptNode(name) in nodes && KeywordNodes(keywords) <= nodes
    ensures WellFormed(nodes, RepresentsEdges(name, keywords))
    decreases |keywords|
  {
    if keywords != [] {
      RepresentsEdgesWellFormed(nodes, name, keywords[..|keywords| - 1]);
    }
  }

  /** Two well-formed graphs together form a well-formed graph. */
  lemma WellFormedUnion(n1: set<GraphNode>, e1: seq<GraphEdge>, n2: set<GraphNode>, e2: seq<GraphEdge>)
    requires WellFormed(n1, e1) && WellFormed(n2, e2)
    ensures WellFormed(n1 + n2, e1 + e2)
  {
  }

  /** Every created edge joins two merged nodes, with the label typing of `WellFormed`. */
  lemma {:induction false} EdgesOfWellFormed(concepts: seq<KnowledgeConcept>)
    ensures WellFormed(NodesOf(concepts), EdgesOf(concepts))
    decreases |concepts|
  {
    if concepts != [] {
      var prefix := concepts[..|concepts| - 1];
      var last := concepts[|concepts| - 1];
      var nodes := NodesOf(concepts);
      EdgesOfWellFormed(prefix);
      DescribesEdgesWellFormed(nodes, last.name, last.urls);
      RepresentsEdgesWellFormed(nodes, last.name, last.keywords);
    }
  }

  lemma {:induction false} DescribesCount(name: string, urls: seq<string>)
    ensures |DescribesEdges(name, urls)| == |urls|
    decreases |urls|
  {
    if urls != [] {
      DescribesCount(name, urls[..|urls| - 1]);
    }
  }

  lemma {:induction false} RepresentsCount(name: string, keywords: seq<string>)
    ensures |RepresentsEdges(name, keywords)| == |keywords|
    decreases |keywords|
  {
    if keywords != [] {
      RepresentsCount(name, keywords[..|keywords| - 1]);
    }
  }

  /** Edge `j` of a concept's DESCRIBES edges goes from its URL `j` to the concept. */
  lemma {:induction false} DescribesEdgeAt(name: string, urls: seq<string>, j: nat)
    requires j < |urls|
    ensures |DescribesEdges(name, urls)| == |urls|
    ensures DescribesEdges(name, urls)[j] == GraphEdge(UrlNode(urls[j]), Describes, ConceptNode(name))
    decreases |urls|
  {
    DescribesCount(name, urls);
    if j < |urls| - 1 {
      DescribesEdgeAt(name, urls[..|urls| - 1], j);
    }
  }

  /** Merging `a` and then `b` merges the same nodes as merging `a + b` at once. */
  lemma {:induction false} NodesOfAppend(a: seq<KnowledgeConcept>, b: seq<KnowledgeConcept>)
    ensures NodesOf(a + b) == NodesOf(a) + NodesOf(b)
    decreases |b|
  {
    if b != [] {
      var ab := a + b;
      assert ab[..|ab| - 1] == a + b[..|b| - 1];
      NodesOfAppend(a, b[..|b| - 1]);
    } else {
      assert a + b == a;
    }
  }

  /** Concatenation is associative. */
  lemma AppendAssoc<T>(x: seq<T>, y: seq<T>, z: seq<T>)
    ensures (x + y) + z == x + (y + z)
  {
  }

  /** Creating the edges of `a` and then those of `b` creates the edges of `a + b`, in order. */

  lemma {:induction false} EdgesOfAppend(a: seq<KnowledgeConcept>, b: seq<KnowledgeConcept>)
    ensures EdgesOf(a + b) == EdgesOf(a) + EdgesOf(b)
    decreases |b|
  {
    if b != [] {
      var ab := a + b;
      var prefix, last := b[..|b| - 1], b[|b| - 1];
      assert ab[..|ab| - 1] == a + prefix && ab[|ab| - 1] == last;
      calc {
        EdgesOf(ab);
        EdgesOf(a + prefix) + ConceptEdges(last);
        { EdgesOfAppend(a, prefix); }
        (EdgesOf(a) + EdgesOf(prefix)) + ConceptEdges(last);
        { AppendAssoc(EdgesOf(a), EdgesOf(prefix), ConceptEdges(last)); }
        EdgesOf(a) + (EdgesOf(prefix) + ConceptEdges(last));
        EdgesOf(a) + EdgesOf(b);
      }
    } else {
      assert a + b == a;
    }
  }

  /**
   * Re-ingesting the same concepts leaves the node set as it was after the
   * first ingestion but adds every edge again.
   */
  lemma ReingestDuplicatesEdges(nodes: set<GraphNode>, edges: seq<GraphEdge>, concepts: seq<KnowledgeConcept>)
    ensures (nodes + NodesOf(concepts)) + NodesOf(concepts) == nodes + NodesOf(concepts)
    ensures |(edges + EdgesOf(concepts)) + EdgesOf(concepts)| == |edges| + 2 * (UrlCount(concepts) + KeywordCount(concepts))
    ensures (edges + EdgesOf(concepts)) + EdgesOf(concepts) == edges + EdgesOf(concepts + concepts)
  {
    EdgesOfAppend(concepts, concepts);
  }

  /** Merging concepts into a well-formed graph leaves it well-formed. */
  lemma MergeKeepsWellFormed(nodes: set<GraphNode>, edges: seq<GraphEdge>, concepts: seq<KnowledgeConcept>)
    requires WellFormed(nodes, edges)
    ensures WellFormed(nodes + NodesOf(concepts), edges + EdgesOf(concepts))
  {
    EdgesOfWellFormed(concepts);
    WellFormedUnion(nodes, edges, NodesOf(concepts), EdgesOf(concepts));
  }

  /**
   * One round of the concept loop: merging concept `i` (its node, then its URL
   * nodes, then its keyword nodes and their edges) onto the graph of the first
   * `i` concepts gives the graph of the first `i + 1`.
   */
  lemma MergeConceptStep(concepts: seq<KnowledgeConcept>, i: nat,
                         nodes0: set<GraphNode>, edges0: seq<GraphEdge>,
                         nodesBefore: set<GraphNode>, edgesBefore: seq<GraphEdge>,
                         nodesAfter: set<GraphNode>, edgesAfter: seq<GraphEdge>)
    requires i < |concepts|
    requires nodesBefore == nodes0 + NodesOf(concepts[..i])
    requires edgesBefore == edges0 + EdgesOf(concepts[..i])
    requires nodesAfter == nodesBefore + {ConceptNode(concepts[i].name)} + UrlNodes(concepts[i].urls) + KeywordNodes(concepts[i].keywords)
    requires edgesAfter == edgesBefore + DescribesEdges(concepts[i].name, concepts[i].urls) + RepresentsEdges(concepts[i].name, concepts[i].keywords)
    ensures nodesAfter == nodes0 + NodesOf(concepts[..i + 1])
    ensures edgesAfter == edges0 + EdgesOf(concepts[..i + 1])
  {
    assert concepts[..i + 1][..i] == concepts[..i];
  }

  /** The graph store the knowledge is merged into. */
  class KnowledgeDatabase {
    var nodes: set<GraphNode>
    var edges: seq<GraphEdge>

    ghost predicate Valid()
      reads this
    {
      WellFormed(nodes, edges)
    }

    /** A connection to the graph store, whose current contents are `nodes` and `edges`. */
    constructor (nodes: set<GraphNode>, edges: seq<GraphEdge>)
      ensures this.nodes == nodes && this.edges == edges
    {
      this.nodes := nodes;
      this.edges := edges;
    }

    /**
     * `add_knowledge(concepts, email_id, source)`: merge each concept node, then
     * for each URL merge its node and create a DESCRIBES edge to the concept,
     * then for each keyword merge its node and create a REPRESENTS edge.
     * `emailId` and `source` are not used. Nothing is removed.
     */
    method AddKnowledge(concepts: seq<KnowledgeConcept>, emailId: string, source: Option<string>)
      modifies this
      ensures old(Valid()) ==> Valid()
      ensures nodes == old(nodes) + NodesOf(concepts)
      ensures edges == old(edges) + EdgesOf(concepts)
    {
      ghost var nodes0, edges0 := nodes, edges;
      if Valid() {
        MergeKeepsWellFormed(nodes0, edges0, concepts);
      }
      var i := 0;
      while i < |concepts|
        invariant 0 <= i <= |concepts|
        invariant nodes == nodes0 + NodesOf(concepts[..i])
        invariant edges == edges0 + EdgesOf(concepts[..i])
      {
        var concept := concepts[i];
        ghost var nodesBefore, edgesBefore := nodes, edges;
        nodes := nodes + {ConceptNode(concept.name)};
        MergeUrls(concept.name, concept.urls);
        MergeKeywords(concept.name, concept.keywords);
        MergeConceptStep(concepts, i, nodes0, edges0, nodesBefore, edgesBefore, nodes, edges);
        i := i + 1;
      }
      assert concepts[..i] == concepts;
    }

    /** The URL loop of `add_knowledge`: merge each URL node and create its DESCRIBES edge to the concept. */
    method MergeUrls(name: string, urls: seq<string>)
      modifies this
      ensures nodes == old(nodes) + UrlNodes(urls)
      ensures edges == old(edges) + DescribesEdges(name, urls)
    {
      var j := 0;
      while j < |urls|
        invariant 0 <= j <= |urls|
        invariant nodes == old(nodes) + UrlNodes(urls[..j])
        invariant edges == old(edges) + DescribesEdges(name, urls[..j])
      {
        nodes := nodes + {UrlNode(urls[j])};
        edges := edges + [GraphEdge(UrlNode(urls[j]), Describes, ConceptNode(name))];
        assert urls[..j + 1][..j] == urls[..j];
        j := j + 1;
      }
      assert urls[..j] == urls;
    }

    /** The keyword loop of `add_knowledge`: merge each keyword node and create its REPRESENTS edge to the concept. */
    method MergeKeywords(name: string, keywords: seq<string>)
      modifies this
      ensures nodes == old(nodes) + KeywordNodes(keywords)
      ensures edges == old(edges) + RepresentsEdges(name, keywords)
    {
      var k := 0;
      while k < |keywords|
        invariant 0 <= k <= |keywords|
        invariant nodes == old(nodes) + KeywordNodes(keywords[..k])
        invariant edges == old(edges) + RepresentsEdges(name, keywords[..k])
      {
        nodes := nodes + {KeywordNode(keywords[k])};
        edges := edges + [GraphEdge(KeywordNode(keywords[k]), Represents, ConceptNode(name))];
        assert keywords[..k + 1][..k] == keywords[..k];
        k := k + 1;
      }
      assert keywords[..k] == keywords;
    }
  }
}
