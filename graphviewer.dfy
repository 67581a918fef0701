/**
 * The run graph viewer: the Mermaid flowchart text it builds from a run's nodes
 * and edges, the bracket shape of each node type, and the colour classes of
 * node statuses. Writing the result into the page is not modelled.
 */
module GraphViewer {

  /** The fields of a graph node the viewer reads; type and status are free strings here. */
  datatype GraphNode = GraphNode(nodeId: string, nodeLabel: string, nodeType: string, status: string)

  /** An edge between two node ids; neither end has to be a node of the graph. */
  datatype GraphEdge = GraphEdge(sourceNodeId: string, targetNodeId: string)

  /** The opening and closing brackets of a node in Mermaid syntax. */
  datatype Shape = Shape(open: string, close: string)

  const Rectangle := Shape("[", "]")
  const Rounded := Shape("(", ")")
  const Rhombus := Shape("{", "}")
  const Subroutine := Shape("[[", "]]")

  /** `getNodeShape`: tool a rectangle, llm rounded, decision a rhombus, data a subroutine, anything else a rectangle. */
  function NodeShape(nodeType: string): (s: Shape)
    ensures nodeType == "llm" <==> s == Rounded
    ensures nodeType == "decision" <==> s == Rhombus
    ensures nodeType == "data" <==> s == Subroutine
    ensures s == Rectangle <==> nodeType !in {"llm", "decision", "data"}
  {
    match nodeType
    case "tool" => Rectangle
    case "llm" => Rounded
    case "decision" => Rhombus
    case "data" => Subroutine
    case _ => Rectangle
  }

  // ---------------------------------------------------------------------------
  // The Mermaid text

  const Header := "graph TD\n"

  /** The line of one node: two spaces, the id, the label in the type's brackets, a newline. */
  function NodeLine(n: GraphNode): string {
    var shape := NodeShape(n.nodeType);
    "  " + n.nodeId + shape.open + n.nodeLabel + shape.close + "\n"
  }

  /** The line of one edge: two spaces, the source id, " --> ", the target id, a newline. */
  function EdgeLine(e: GraphEdge): string {
    "  " + e.sourceNodeId + " --> " + e.targetNodeId + "\n"
  }

  /** The node lines in input order. */
  function NodeLines(nodes: seq<GraphNode>): string {
    if nodes == [] then "" else NodeLines(nodes[..|nodes| - 1]) + NodeLine(nodes[|nodes| - 1])
  }

  /** The edge lines in input order. */
  function EdgeLines(edges: seq<GraphEdge>): string {
    if edges == [] then "" else EdgeLines(edges[..|edges| - 1]) + EdgeLine(edges[|edges| - 1])
  }

  /** The diagram of a graph: the header, every node line, then every edge line. */
  function Diagram(nodes: seq<GraphNode>, edges: seq<GraphEdge>): string {
    Header + NodeLines(nodes) + EdgeLines(edges)
  }

  /**
   * `generateMermaidDiagram`: starts from the header and appends, in two passes,
   * one line per node and then one line per edge.
   */
  method GenerateMermaidDiagram(nodes: seq<GraphNode>, edges: seq<GraphEdge>) returns (mermaid: string)
    ensures mermaid == Diagram(nodes, edges)
    ensures |mermaid| >= |Header| && mermaid[..|Header|] == Header
  {
    mermaid := Header;
    var i := 0;
    while i < |nodes|
      invariant 0 <= i <= |nodes|
      invariant mermaid == Header + NodeLines(nodes[..i])
    {
      var node := nodes[i];
      var shape := NodeShape(node.nodeType);
      var line := "  " + node.nodeId + shape.open + node.nodeLabel + shape.close + "\n";
      assert line == NodeLine(node);
      NodeLinesStep(nodes, i);
      AppendAssoc(Header, NodeLines(nodes[..i]), line);
      mermaid := mermaid + line;
      i := i + 1;
    }
    assert nodes[..i] == nodes;
    var j := 0;
    while j < |edges|
      invariant 0 <= j <= |edges|
      invariant mermaid == Header + NodeLines(nodes) + EdgeLines(edges[..j])
    {
      var edge := edges[j];
      var line := "  " + edge.sourceNodeId + " --> " + edge.targetNodeId + "\n";
      assert line == EdgeLine(edge);
      EdgeLinesStep(edges, j);
      AppendAssoc(Header + NodeLines(nodes), EdgeLines(edges[..j]), line);
      mermaid := mermaid + line;
      j := j + 1;
    }
    assert edges[..j] == edges;
  }

  lemma AppendAssoc(a: string, b: string, c: string)
    ensures (a + b) + c == a + (b + c)
  {
  }

  /** One more node of the input adds its line. */
  lemma NodeLinesStep(nodes: seq<GraphNode>, i: nat)
    requires i < |nodes|
    ensures NodeLines(nodes[..i + 1]) == NodeLines(nodes[..i]) + NodeLine(nodes[i])
  {
    assert nodes[..i + 1][..i] == nodes[..i];
  }

  /** One more edge of the input adds its line. */
  lemma EdgeLinesStep(edges: seq<GraphEdge>, j: nat)
    requires j < |edges|
    ensures EdgeLines(edges[..j + 1]) == EdgeLines(edges[..j]) + EdgeLine(edges[j])
  {
    assert edges[..j + 1][..j] == edges[..j];
  }

  /** The node lines of a concatenation are the node lines of each part, in order. */
  lemma {:induction false} NodeLinesAppend(a: seq<GraphNode>, b: seq<GraphNode>)
    ensures NodeLines(a + b) == NodeLines(a) + NodeLines(b)
    decreases |b|
  {
    if b != [] {
      var b' := b[..|b| - 1];
      assert (a + b)[..|a + b| - 1] == a + b';
      NodeLinesAppend(a, b');
    } else {
      assert a + b == a;
    }
  }

  /** The edge lines of a concatenation are the edge lines of each part, in order. */
  lemma {:induction false} EdgeLinesAppend(a: seq<GraphEdge>, b: seq<GraphEdge>)
    ensures EdgeLines(a + b) == EdgeLines(a) + EdgeLines(b)
    decreases |b|
  {
    if b != [] {
      var b' := b[..|b| - 1];
      assert (a + b)[..|a + b| - 1] == a + b';
      EdgeLinesAppend(a, b');
    } else {
      assert a + b == a;
    }
  }

  /** Every node line comes before every edge line: one more node lengthens the node part only. */
  lemma DiagramAddNode(nodes: seq<GraphNode>, edges: seq<GraphEdge>, n: GraphNode)
    ensures Diagram(nodes + [n], edges) == Header + NodeLines(nodes) + NodeLine(n) + EdgeLines(edges)
  {
    assert (nodes + [n])[..|nodes|] == nodes;
  }

  // ---------------------------------------------------------------------------
  // Line count

  function Newlines(s: string): nat {
    if s == [] then 0 else Newlines(s[..|s| - 1]) + (if s[|s| - 1] == '\n' then 1 else 0)
  }

  lemma {:induction false} NewlinesAppend(a: string, b: string)
    ensures Newlines(a + b) == Newlines(a) + Newlines(b)
    decreases |b|
  {
    if b != [] {
      var b' := b[..|b| - 1];
      assert (a + b)[..|a + b| - 1] == a + b';
      NewlinesAppend(a, b');
    } else {
      assert a + b == a;
    }
  }

  lemma {:induction false} NoNewlines(s: string)
    requires '\n' !in s
    ensures Newlines(s) == 0
  {
    if s != [] {
      NoNewlines(s[..|s| - 1]);
    }
  }

  predicate SingleLine(s: string) {
    '\n' !in s
  }

  lemma NodeLineCount(n: GraphNode)
    requires SingleLine(n.nodeId) && SingleLine(n.nodeLabel)
    ensures Newlines(NodeLine(n)) == 1
  {
    var shape := NodeShape(n.nodeType);
    NewlinesAppend("  " + n.nodeId + shape.open + n.nodeLabel + shape.close, "\n");
    NewlinesAppend("  " + n.nodeId + shape.open + n.nodeLabel, shape.close);
    NewlinesAppend("  " + n.nodeId + shape.open, n.nodeLabel);
    NewlinesAppend("  " + n.nodeId, shape.open);
    NewlinesAppend("  ", n.nodeId);
    NoNewlines(n.nodeId);
    NoNewlines(n.nodeLabel);
    NoNewlines(shape.open);
    NoNewlines(shape.close);
    NoNewlines("  ");
  }

  lemma EdgeLineCount(e: GraphEdge)
    requires SingleLine(e.sourceNodeId) && SingleLine(e.targetNodeId)
    ensures Newlines(EdgeLine(e)) == 1
  {
    NewlinesAppend("  " + e.sourceNodeId + " --> " + e.targetNodeId, "\n");
    NewlinesAppend("  " + e.sourceNodeId + " --> ", e.targetNodeId);
    NewlinesAppend("  " + e.sourceNodeId, " --> ");
    NewlinesAppend("  ", e.sourceNodeId);
    NoNewlines(e.sourceNodeId);
    NoNewlines(e.targetNodeId);
    NoNewlines(" --> ");
    NoNewlines("  ");
  }

  lemma {:induction false} NodeLinesCount(nodes: seq<GraphNode>)
    requires forall i | 0 <= i < |nodes| :: SingleLine(nodes[i].nodeId) && SingleLine(nodes[i].nodeLabel)
    ensures Newlines(NodeLines(nodes)) == |nodes|
  {
    if nodes != [] {
      NodeLinesCount(nodes[..|nodes| - 1]);
      NodeLineCount(nodes[|nodes| - 1]);
      NewlinesAppend(NodeLines(nodes[..|nodes| - 1]), NodeLine(nodes[|nodes| - 1]));
    }
  }

  lemma {:induction false} EdgeLinesCount(edges: seq<GraphEdge>)
    requires forall i | 0 <= i < |edges| :: SingleLine(edges[i].sourceNodeId) && SingleLine(edges[i].targetNodeId)
    ensures Newlines(EdgeLines(edges)) == |edges|
  {
    if edges != [] {
      EdgeLinesCount(edges[..|edges| - 1]);
      EdgeLineCount(edges[|edges| - 1]);
      NewlinesAppend(EdgeLines(edges[..|edges| - 1]), EdgeLine(edges[|edges| - 1]));
    }
  }

  /** With no line breaks inside ids and labels, the diagram has one line per node and edge after the header. */
  lemma DiagramLineCount(nodes: seq<GraphNode>, edges: seq<GraphEdge>)
    requires forall i | 0 <= i < |nodes| :: SingleLine(nodes[i].nodeId) && SingleLine(nodes[i].nodeLabel)
    requires forall i | 0 <= i < |edges| :: SingleLine(edges[i].sourceNodeId) && SingleLine(edges[i].targetNodeId)
    ensures Newlines(Diagram(nodes, edges)) == 1 + |nodes| + |edges|
  {
    NodeLinesCount(nodes);
    EdgeLinesCount(edges);
    NewlinesAppend(Header + NodeLines(nodes), EdgeLines(edges));
    NewlinesAppend(Header, NodeLines(nodes));
    assert Header == "graph TD" + "\n";
    NewlinesAppend("graph TD", "\n");
    NoNewlines("graph TD");
  }

  // ---------------------------------------------------------------------------
  // Status colours

  /** The four node statuses the viewer colours. */
  const KnownStatuses := ["pending", "running", "completed", "failed"]

  const GrayCard := "bg-gray-50 border-gray-200"
  const GrayBadge := "bg-gray-100 text-gray-800"

  /** `getNodeStatusColor`: a class per known status, the gray card otherwise. */
  function NodeStatusColor(status: string): (c: string)
    ensures c == GrayCard <==> status !in KnownStatuses
  {
    match status
    case "pending" => "bg-yellow-50 border-yellow-200"
    case "running" => "bg-blue-50 border-blue-200"
    case "completed" => "bg-green-50 border-green-200"
    case "failed" => "bg-red-50 border-red-200"
    case _ => GrayCard
  }

  /** `getStatusBadgeColor`: a class per known status, the gray badge otherwise. */
  function StatusBadgeColor(status: string): (c: string)
    ensures c == GrayBadge <==> status !in KnownStatuses
  {
    match status
    case "pending" => "bg-yellow-100 text-yellow-800"
    case "running" => "bg-blue-100 text-blue-800"
    case "completed" => "bg-green-100 text-green-800"
    case "failed" => "bg-red-100 text-red-800"
    case _ => GrayBadge
  }

  /** Distinct known statuses get distinct card classes. */
  lemma StatusCardColorsDistinct(a: string, b: string)
    requires a in KnownStatuses && b in KnownStatuses && a != b
    ensures NodeStatusColor(a) != NodeStatusColor(b)
  {
  }

  /** Distinct known statuses get distinct badge classes. */
  lemma StatusBadgeColorsDistinct(a: string, b: string)
    requires a in KnownStatuses && b in KnownStatuses && a != b
    ensures StatusBadgeColor(a) != StatusBadgeColor(b)
  {
  }
}
