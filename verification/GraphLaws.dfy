/** What the graph of a snapshot shows, in the terms of the snapshot. */
module GraphLaws {
  import opened Records
  import opened Independence
  import opened Graph
  import Statements

  // ----- printed numbers

  predicate IsDigit(c: char) { '0' <= c <= '9' }

  lemma {:induction false} DecimalDigits(n: nat)
    ensures Decimal(n) != "" && (forall c | c in Decimal(n) :: IsDigit(c))
    ensures n >= 10 ==> Decimal(n)[0] != '0'
    ensures n > 0 ==> Decimal(n)[0] != '0'
  {
    if n >= 10 { DecimalDigits(n / 10); }
  }

  /** A number is printed in decimal digits, with leading zeros only up to the width. */
  lemma PrintedInDigits(n: nat, width: nat)
    ensures Value(Padded(n, width)) == n == Value(Decimal(n))
    ensures forall c | c in Padded(n, width) :: IsDigit(c)
    ensures |Padded(n, width)| >= width
    ensures |Padded(n, width)| > width && |Padded(n, width)| > 1 ==> Padded(n, width)[0] != '0'
    ensures |Decimal(n)| > 1 ==> Decimal(n)[0] != '0'
  {
    ValueOfPadded(n, width);
    ValueOfDecimal(n);
    DecimalDigits(n);
    OneDigit(n);
    hide Decimal;
  }

  lemma OneDigit(n: nat)
    ensures n < 10 ==> |Decimal(n)| == 1
  {
  }

  // ----- the picture

  ghost predicate ShowsNodes(nodes: seq<GraphNode>, node: SnapshotNode, causes: seq<string>, consequences: seq<string>, s: seq<Layer>) {
    && |nodes| == 1 + |causes| + |consequences| + |s|
    && nodes[0] == GraphNode("node-" + Decimal(node.id), ProcessNodeKind, node.nodeCode)
    && (forall i | 0 <= i < |causes| :: nodes[1 + i] == GraphNode("cause-" + Padded(i + 1, 2), CauseKind, causes[i]))
    && (forall j | 0 <= j < |consequences| ::
          nodes[1 + |causes| + j] == GraphNode("consequence-" + Padded(j + 1, 2), ConsequenceKind, consequences[j]))
    && (forall k | 0 <= k < |s| ::
          nodes[1 + |causes| + |consequences| + k] == GraphNode("safeguard-" + Decimal(s[k].id), SafeguardKind, s[k].name))
  }

  ghost predicate ShowsEdges(edges: seq<GraphEdge>, node: SnapshotNode, n: nat, m: nat, s: seq<Layer>) {
    && |edges| == n + m + |s| * m
    && (forall i | 0 <= i < n :: edges[i] == GraphEdge("cause-" + Padded(i + 1, 2), "node-" + Decimal(node.id), Initiates))
    && (forall j | 0 <= j < m :: MayLeadToAt(edges, n, node, j))
    && (forall k | 0 <= k < |s| :: MitigatesAll(edges, s[k], m))
  }

  // The edge to consequence j, after those from n causes.
  ghost predicate MayLeadToAt(edges: seq<GraphEdge>, n: nat, node: SnapshotNode, j: nat) {
    n + j < |edges| && edges[n + j] == GraphEdge("node-" + Decimal(node.id), "consequence-" + Padded(j + 1, 2), MayLeadTo)
  }

  ghost predicate MitigatesAll(edges: seq<GraphEdge>, g: Layer, m: nat) { forall j | 0 <= j < m :: MitigatesIn(edges, g, j) }

  ghost predicate MitigatesIn(edges: seq<GraphEdge>, g: Layer, j: nat) {
    GraphEdge("safeguard-" + Decimal(g.id), "consequence-" + Padded(j + 1, 2), Mitigates(g.id, g.effectiveness)) in edges
  }

  ghost predicate ShowsPaths(paths: seq<GraphPath>, node: SnapshotNode, causes: seq<string>, consequences: seq<string>) {
    && |paths| == |causes| * |consequences|
    && (forall i, j | 0 <= i < |causes| && 0 <= j < |consequences| :: ShowsPath(paths, node, causes, consequences, i, j))
  }

  ghost predicate ShowsPath(paths: seq<GraphPath>, node: SnapshotNode, causes: seq<string>, consequences: seq<string>, i: nat, j: nat)
    requires i < |causes| && j < |consequences|
  {
    var k := i * |consequences| + j;
    k < |paths| && paths[k] == GraphPath("P-" + Padded(k + 1, 3), node.nodeCode, causes[i], consequences[j])
  }

  /** The picture of a snapshot: its process node, the statements of its cause text and of its
      consequence text under their numbers, its safeguards; causes lead to the node, the node to
      the consequences, every safeguard mitigates every consequence; and the paths are the pairs
      of a cause and a consequence, row by row. */
  ghost predicate Depicts(fold: Statements.Folding, snapshot: Snapshot, g: Graph) {
    var causes, consequences := Statements.Split(fold, snapshot.scenario.cause), Statements.Split(fold, snapshot.scenario.consequence);
    && ShowsNodes(g.nodes, snapshot.node, causes, consequences, snapshot.safeguards)
    && ShowsEdges(g.edges, snapshot.node, |causes|, |consequences|, snapshot.safeguards)
    && ShowsPaths(g.paths, snapshot.node, causes, consequences)
  }

  lemma NodesShown(node: SnapshotNode, causes: seq<string>, consequences: seq<string>, s: seq<Layer>)
    ensures ShowsNodes(GraphFor(node, causes, consequences, s).nodes, node, causes, consequences, s)
  {
    hide Decimal, Padded, CauseEdges, ConsequenceEdges, MitigationEdges, Paths;
  }

  lemma {:induction false} MitigationIn(s: seq<Layer>, m: nat, k: nat, j: nat)
    requires k < |s| && j < m
    ensures MitigatesIn(MitigationEdges(s, m), s[k], j)
  {
    hide Decimal, Padded;
    var n := |s| - 1;
    if k < n {
      MitigationIn(s[..n], m, k, j);
    } else {
      assert MitigationRow(s[n], m)[j] in MitigationRow(s[n], m);
    }
  }

  lemma EdgesShown(node: SnapshotNode, causes: seq<string>, consequences: seq<string>, s: seq<Layer>)
    ensures ShowsEdges(GraphFor(node, causes, consequences, s).edges, node, |causes|, |consequences|, s)
  {
    hide Decimal, Padded, CauseNodes, ConsequenceNodes, SafeguardNodes, Paths, MitigationEdges;
    MitigationCount(s, |consequences|);
    var edges := GraphFor(node, causes, consequences, s).edges;
    forall k | 0 <= k < |s| ensures MitigatesAll(edges, s[k], |consequences|) {
      forall j | 0 <= j < |consequences| ensures MitigatesIn(edges, s[k], j) { MitigationIn(s, |consequences|, k, j); }
    }
  }

  lemma PathsShown(node: SnapshotNode, causes: seq<string>, consequences: seq<string>, s: seq<Layer>)
    ensures ShowsPaths(GraphFor(node, causes, consequences, s).paths, node, causes, consequences)
  {
    hide Padded, CauseNodes, ConsequenceNodes, SafeguardNodes, CauseEdges, ConsequenceEdges, MitigationEdges, Paths;
    PathCount(node.nodeCode, causes, consequences);
    forall i, j | 0 <= i < |causes| && 0 <= j < |consequences|
      ensures ShowsPath(GraphFor(node, causes, consequences, s).paths, node, causes, consequences, i, j)
    {
      PathAt(node.nodeCode, causes, consequences, i, j);
    }
  }

  lemma GraphDepicts(fold: Statements.Folding, snapshot: Snapshot)
    ensures Depicts(fold, snapshot, GraphOf(fold, snapshot))
  {
    var causes, consequences := Statements.Split(fold, snapshot.scenario.cause), Statements.Split(fold, snapshot.scenario.consequence);
    NodesShown(snapshot.node, causes, consequences, snapshot.safeguards);
    EdgesShown(snapshot.node, causes, consequences, snapshot.safeguards);
    PathsShown(snapshot.node, causes, consequences, snapshot.safeguards);
    hide ShowsNodes, ShowsEdges, ShowsPaths, GraphFor;
  }
}
