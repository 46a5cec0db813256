/** BuildGraph in its own form: loops that append nodes, edges and numbered paths. */
module GraphBuilder {
  import opened Records
  import opened Independence
  import opened Graph
  import opened GraphLaws
  import Statements

  /** The graph drawn by the source's loops is the specified one, and it is the picture of the
      snapshot. */
  method BuildGraph(fold: Statements.Folding, snapshot: Snapshot) returns (graph: Graph)
    ensures graph == GraphOf(fold, snapshot)
    ensures Depicts(fold, snapshot, graph)
  {
    GraphDepicts(fold, snapshot);
    hide Depicts;
    var causes := Statements.SplitStatements(fold, snapshot.scenario.cause);
    var consequences := Statements.SplitStatements(fold, snapshot.scenario.consequence);
    var nodeId := NodeId(snapshot.node.id);
    var nodes := [GraphNode(nodeId, ProcessNodeKind, snapshot.node.nodeCode)];
    var causeNodes, causeEdges := AddCauses(nodeId, causes);
    var consequenceNodes, consequenceEdges := AddConsequences(nodeId, consequences);
    var safeguardNodes, mitigation := AddSafeguards(snapshot.safeguards, |consequences|);
    var paths := AddPaths(snapshot.node.nodeCode, causes, consequences);
    graph := Graph(nodes + causeNodes + consequenceNodes + safeguardNodes,
      causeEdges + consequenceEdges + mitigation, paths);
  }

  method AddCauses(nodeId: string, causes: seq<string>) returns (nodes: seq<GraphNode>, edges: seq<GraphEdge>)
    ensures nodes == CauseNodes(causes)
    ensures edges == CauseEdges(nodeId, |causes|)
  {
    hide CauseId;
    nodes, edges := [], [];
    for i := 0 to |causes|
      invariant nodes == CauseNodes(causes)[..i]
      invariant edges == CauseEdges(nodeId, |causes|)[..i]
    {
      nodes := nodes + [GraphNode(CauseId(i), CauseKind, causes[i])];
      edges := edges + [GraphEdge(CauseId(i), nodeId, Initiates)];
    }
  }

  method AddConsequences(nodeId: string, consequences: seq<string>) returns (nodes: seq<GraphNode>, edges: seq<GraphEdge>)
    ensures nodes == ConsequenceNodes(consequences)
    ensures edges == ConsequenceEdges(nodeId, |consequences|)
  {
    hide ConsequenceId;
    nodes, edges := [], [];
    for i := 0 to |consequences|
      invariant nodes == ConsequenceNodes(consequences)[..i]
      invariant edges == ConsequenceEdges(nodeId, |consequences|)[..i]
    {
      nodes := nodes + [GraphNode(ConsequenceId(i), ConsequenceKind, consequences[i])];
      edges := edges + [GraphEdge(nodeId, ConsequenceId(i), MayLeadTo)];
    }
  }

  // The last loop over safeguards, each linked to every consequence.
  method AddSafeguards(s: seq<Layer>, n: nat) returns (nodes: seq<GraphNode>, edges: seq<GraphEdge>)
    ensures nodes == SafeguardNodes(s)
    ensures edges == MitigationEdges(s, n)
  {
    hide SafeguardId, MitigationRow;
    nodes, edges := [], [];
    for i := 0 to |s|
      invariant nodes == SafeguardNodes(s)[..i]
      invariant edges == MitigationEdges(s[..i], n)
    {
      assert s[..i + 1][..i] == s[..i];
      nodes := nodes + [GraphNode(SafeguardId(s[i].id), SafeguardKind, s[i].name)];
      var row := AddMitigations(s[i], n);
      edges := edges + row;
    }
    assert s[..|s|] == s;
  }

  // The inner loop: one edge to every consequence.
  method AddMitigations(g: Layer, n: nat) returns (edges: seq<GraphEdge>)
    ensures edges == MitigationRow(g, n)
  {
    hide SafeguardId, ConsequenceId;
    edges := [];
    for j := 0 to n
      invariant edges == MitigationRow(g, n)[..j]
    {
      edges := edges + [GraphEdge(SafeguardId(g.id), ConsequenceId(j), Mitigates(g.id, g.effectiveness))];
    }
  }

  // The running pathIndex numbers every (cause, consequence) pair.
  method AddPaths(nodeCode: string, causes: seq<string>, consequences: seq<string>) returns (paths: seq<GraphPath>)
    ensures paths == Paths(nodeCode, causes, consequences)
  {
    var pathIndex := 1;
    paths := [];
    for i := 0 to |causes|
      invariant paths == Paths(nodeCode, causes[..i], consequences)
      invariant pathIndex == |paths| + 1
    {
      assert causes[..i + 1][..i] == causes[..i];
      ghost var before := paths;
      for j := 0 to |consequences|
        invariant paths == before + PathRow(nodeCode, causes[i], consequences, |before|)[..j]
        invariant pathIndex == |paths| + 1
      {
        paths := paths + [GraphPath(PathId(pathIndex), nodeCode, causes[i], consequences[j])];
        pathIndex := pathIndex + 1;
      }
    }
    assert causes[..|causes|] == causes;
  }
}
