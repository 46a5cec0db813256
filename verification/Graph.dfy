/** The cause-to-consequence graph of a snapshot, with the IDs it prints. */
module Graph {
  import opened Records
  import opened Sequences
  import opened Independence
  import Statements

  datatype NodeKind = ProcessNodeKind | CauseKind | ConsequenceKind | SafeguardKind

  datatype GraphNode = GraphNode(id: string, kind: NodeKind, name: string)

  datatype Relation = Initiates | MayLeadTo | Mitigates(safeguardId: nat, effectiveness: real)

  datatype GraphEdge = GraphEdge(source: string, target: string, relation: Relation)

  datatype GraphPath = GraphPath(id: string, nodeCode: string, cause: string, consequence: string)

  datatype Graph = Graph(nodes: seq<GraphNode>, edges: seq<GraphEdge>, paths: seq<GraphPath>)

  // ----- fmt.Sprintf for %d, %02d and %03d

  function Digit(n: nat): char requires n < 10 { "0123456789"[n] }

  function Decimal(n: nat): string {
    if n < 10 then [Digit(n)] else Decimal(n / 10) + [Digit(n % 10)]
  }

  function Zeros(n: nat): string { seq(n, _ => '0') }

  function Padded(n: nat, width: nat): string {
    var d := Decimal(n);
    if |d| < width then Zeros(width - |d|) + d else d
  }

  function NodeId(id: nat): string { "node-" + Decimal(id) }
  function CauseId(index: nat): string { "cause-" + Padded(index + 1, 2) }
  function ConsequenceId(index: nat): string { "consequence-" + Padded(index + 1, 2) }
  function SafeguardId(id: nat): string { "safeguard-" + Decimal(id) }
  function PathId(number: nat): string { "P-" + Padded(number, 3) }

  // ----- the specification of BuildGraph

  function CauseNodes(causes: seq<string>): seq<GraphNode> {
    seq(|causes|, i requires 0 <= i < |causes| => GraphNode(CauseId(i), CauseKind, causes[i]))
  }

  function CauseEdges(node: string, n: nat): seq<GraphEdge> {
    seq(n, i requires 0 <= i < n => GraphEdge(CauseId(i), node, Initiates))
  }

  function ConsequenceNodes(consequences: seq<string>): seq<GraphNode> {
    seq(|consequences|, i requires 0 <= i < |consequences| => GraphNode(ConsequenceId(i), ConsequenceKind, consequences[i]))
  }

  function ConsequenceEdges(node: string, n: nat): seq<GraphEdge> {
    seq(n, i requires 0 <= i < n => GraphEdge(node, ConsequenceId(i), MayLeadTo))
  }

  function SafeguardNodes(s: seq<Layer>): seq<GraphNode> {
    seq(|s|, i requires 0 <= i < |s| => GraphNode(SafeguardId(s[i].id), SafeguardKind, s[i].name))
  }

  function MitigationRow(g: Layer, n: nat): seq<GraphEdge> {
    seq(n, i requires 0 <= i < n => GraphEdge(SafeguardId(g.id), ConsequenceId(i), Mitigates(g.id, g.effectiveness)))
  }

  function MitigationEdges(s: seq<Layer>, n: nat): seq<GraphEdge> {
    if s == [] then [] else MitigationEdges(s[..|s| - 1], n) + MitigationRow(s[|s| - 1], n)
  }

  // The paths of one cause, numbered after `before` earlier paths.
  function PathRow(nodeCode: string, cause: string, consequences: seq<string>, before: nat): seq<GraphPath> {
    seq(|consequences|, i requires 0 <= i < |consequences| =>
      GraphPath(PathId(before + i + 1), nodeCode, cause, consequences[i]))
  }

  function Paths(nodeCode: string, causes: seq<string>, consequences: seq<string>): seq<GraphPath> {
    if causes == [] then []
    else
      var earlier := Paths(nodeCode, causes[..|causes| - 1], consequences);
      earlier + PathRow(nodeCode, causes[|causes| - 1], consequences, |earlier|)
  }

  function GraphFor(node: SnapshotNode, causes: seq<string>, consequences: seq<string>, s: seq<Layer>): Graph {
    var nodeId := NodeId(node.id);
    Graph(
      [GraphNode(nodeId, ProcessNodeKind, node.nodeCode)]
        + CauseNodes(causes) + ConsequenceNodes(consequences) + SafeguardNodes(s),
      CauseEdges(nodeId, |causes|) + ConsequenceEdges(nodeId, |consequences|) + MitigationEdges(s, |consequences|),
      Paths(node.nodeCode, causes, consequences))
  }

  function GraphOf(fold: Statements.Folding, snapshot: Snapshot): Graph {
    GraphFor(snapshot.node, Statements.Split(fold, snapshot.scenario.cause),
      Statements.Split(fold, snapshot.scenario.consequence), snapshot.safeguards)
  }

  // ----- printed numbers are never ambiguous

  function DigitValue(c: char): int { c as int - '0' as int }

  function Value(s: string): int {
    if s == "" then 0 else 10 * Value(s[..|s| - 1]) + DigitValue(s[|s| - 1])
  }

  lemma DigitValueOf(n: nat)
    requires n < 10
    ensures DigitValue(Digit(n)) == n
  {
  }

  lemma {:induction false} ValueOfDecimal(n: nat)
    ensures Value(Decimal(n)) == n
  {
    DigitValueOf(n % 10);
    if n < 10 {
      assert Decimal(n)[..0] == "";
    } else {
      ValueOfDecimal(n / 10);
      assert Decimal(n)[..|Decimal(n)| - 1] == Decimal(n / 10);
    }
  }

  lemma {:induction false} ValueOfZeros(k: nat, d: string)
    ensures Value(Zeros(k) + d) == Value(d)
  {
    if d == "" {
      assert Zeros(k) + d == Zeros(k);
      if k > 0 {
        assert Zeros(k)[..k - 1] == Zeros(k - 1) == Zeros(k - 1) + "";
        ValueOfZeros(k - 1, "");
      }
    } else {
      assert (Zeros(k) + d)[..k + |d| - 1] == Zeros(k) + d[..|d| - 1];
      ValueOfZeros(k, d[..|d| - 1]);
    }
  }

  lemma ValueOfPadded(n: nat, width: nat)
    ensures Value(Padded(n, width)) == n
  {
    ValueOfDecimal(n);
    if |Decimal(n)| < width { ValueOfZeros(width - |Decimal(n)|, Decimal(n)); }
  }

  // Widths only pad: numbers past 99 or 999 still print differently.
  lemma PrintedNumbersDiffer(m: nat, n: nat, width: nat)
    requires m != n
    ensures Decimal(m) != Decimal(n) && Padded(m, width) != Padded(n, width)
  {
    ValueOfDecimal(m);
    ValueOfDecimal(n);
    ValueOfPadded(m, width);
    ValueOfPadded(n, width);
  }

  // ----- well-formedness

  function NodeIds(nodes: seq<GraphNode>): seq<string> { MapSeq((n: GraphNode) => n.id, nodes) }

  function PathIds(paths: seq<GraphPath>): seq<string> { MapSeq((p: GraphPath) => p.id, paths) }

  lemma {:induction false} PathCount(nodeCode: string, causes: seq<string>, consequences: seq<string>)
    ensures |Paths(nodeCode, causes, consequences)| == |causes| * |consequences|
  {
    if causes != [] {
      PathCount(nodeCode, causes[..|causes| - 1], consequences);
      assert |causes| * |consequences| == (|causes| - 1) * |consequences| + |consequences|;
    }
  }

  // Row-major order: the pair (i, j) is path number i * |consequences| + j + 1.
  lemma {:induction false} PathAt(nodeCode: string, causes: seq<string>, consequences: seq<string>, i: nat, j: nat)
    requires i < |causes| && j < |consequences|
    ensures i * |consequences| + j < |Paths(nodeCode, causes, consequences)| == |causes| * |consequences|
    ensures Paths(nodeCode, causes, consequences)[i * |consequences| + j]
         == GraphPath(PathId(i * |consequences| + j + 1), nodeCode, causes[i], consequences[j])
  {
    var n := |causes| - 1;
    PathCount(nodeCode, causes, consequences);
    PathCount(nodeCode, causes[..n], consequences);
    if i < n { PathAt(nodeCode, causes[..n], consequences, i, j); }
  }

  lemma {:induction false} PathIdAt(nodeCode: string, causes: seq<string>, consequences: seq<string>, k: nat)
    requires k < |Paths(nodeCode, causes, consequences)|
    ensures Paths(nodeCode, causes, consequences)[k].id == PathId(k + 1)
  {
    var earlier := Paths(nodeCode, causes[..|causes| - 1], consequences);
    if k < |earlier| { PathIdAt(nodeCode, causes[..|causes| - 1], consequences, k); }
  }

  lemma PathIdsDiffer(m: nat, n: nat)
    requires m != n
    ensures PathId(m) != PathId(n)
  {
    PrintedNumbersDiffer(m, n, 3);
    hide Padded;
    SuffixesDiffer("P-", Padded(m, 3), Padded(n, 3));
  }

  lemma PathIdsDistinct(nodeCode: string, causes: seq<string>, consequences: seq<string>)
    ensures NoDuplicates(PathIds(Paths(nodeCode, causes, consequences)))
  {
    hide Paths, PathId;
    var paths := Paths(nodeCode, causes, consequences);
    forall i, j | 0 <= i < j < |paths| ensures paths[i].id != paths[j].id {
      PathIdAt(nodeCode, causes, consequences, i);
      PathIdAt(nodeCode, causes, consequences, j);
      PathIdsDiffer(i + 1, j + 1);
    }
  }

  lemma AppendDistinct<T>(s: seq<T>, t: seq<T>)
    requires NoDuplicates(s) && NoDuplicates(t)
    requires forall x | x in s :: x !in t
    ensures NoDuplicates(s + t)
  {
    forall i, j | 0 <= i < |s| && 0 <= j < |t| ensures s[i] != t[j] {
      assert s[i] in s && t[j] in t;
    }
  }

  lemma SuffixesDiffer(prefix: string, x: string, y: string)
    requires x != y
    ensures prefix + x != prefix + y
  {
    assert (prefix + x)[|prefix|..] == x && (prefix + y)[|prefix|..] == y;
  }

  function CauseIds(n: nat): seq<string> { seq(n, i requires 0 <= i < n => CauseId(i)) }
  function ConsequenceIds(n: nat): seq<string> { seq(n, i requires 0 <= i < n => ConsequenceId(i)) }
  function SafeguardIds(s: seq<Layer>): seq<string> { seq(|s|, i requires 0 <= i < |s| => SafeguardId(s[i].id)) }

  lemma CauseIdsDistinct(n: nat)
    ensures NoDuplicates(CauseIds(n))
    ensures forall x | x in CauseIds(n) :: |x| > 1 && x[0] == 'c' && x[1] == 'a'
  {
    forall i, j | 0 <= i < j < n ensures CauseId(i) != CauseId(j) {
      PrintedNumbersDiffer(i + 1, j + 1, 2);
      SuffixesDiffer("cause-", Padded(i + 1, 2), Padded(j + 1, 2));
    }
  }

  lemma ConsequenceIdsDistinct(n: nat)
    ensures NoDuplicates(ConsequenceIds(n))
    ensures forall x | x in ConsequenceIds(n) :: |x| > 1 && x[0] == 'c' && x[1] == 'o'
  {
    forall i, j | 0 <= i < j < n ensures ConsequenceId(i) != ConsequenceId(j) {
      PrintedNumbersDiffer(i + 1, j + 1, 2);
      SuffixesDiffer("consequence-", Padded(i + 1, 2), Padded(j + 1, 2));
    }
  }

  lemma SafeguardIdsDistinct(s: seq<Layer>)
    requires DistinctIds(s)
    ensures NoDuplicates(SafeguardIds(s))
    ensures forall x | x in SafeguardIds(s) :: |x| > 0 && x[0] == 's'
  {
    forall i, j | 0 <= i < j < |s| ensures SafeguardId(s[i].id) != SafeguardId(s[j].id) {
      assert Ids(s)[i] != Ids(s)[j];
      PrintedNumbersDiffer(s[i].id, s[j].id, 0);
      SuffixesDiffer("safeguard-", Decimal(s[i].id), Decimal(s[j].id));
    }
  }

  lemma NodeIdsListed(node: SnapshotNode, causes: seq<string>, consequences: seq<string>, s: seq<Layer>)
    ensures NodeIds(GraphFor(node, causes, consequences, s).nodes)
         == [NodeId(node.id)] + CauseIds(|causes|) + ConsequenceIds(|consequences|) + SafeguardIds(s)
  {
  }

  lemma NodeIdsDistinct(node: SnapshotNode, causes: seq<string>, consequences: seq<string>, s: seq<Layer>)
    requires DistinctIds(s)
    ensures NoDuplicates(NodeIds(GraphFor(node, causes, consequences, s).nodes))
  {
    var p, c, q, g := [NodeId(node.id)], CauseIds(|causes|), ConsequenceIds(|consequences|), SafeguardIds(s);
    CauseIdsDistinct(|causes|);
    ConsequenceIdsDistinct(|consequences|);
    SafeguardIdsDistinct(s);
    NodeIdsListed(node, causes, consequences, s);
    KindsApart(p, c, q, g);
  }

  lemma KindsApart(p: seq<string>, c: seq<string>, q: seq<string>, g: seq<string>)
    requires |p| == 1 && |p[0]| > 0 && p[0][0] == 'n'
    requires NoDuplicates(c) && forall x | x in c :: |x| > 1 && x[0] == 'c' && x[1] == 'a'
    requires NoDuplicates(q) && forall x | x in q :: |x| > 1 && x[0] == 'c' && x[1] == 'o'
    requires NoDuplicates(g) && forall x | x in g :: |x| > 0 && x[0] == 's'
    ensures NoDuplicates(p + c + q + g)
  {
    AppendDistinct(p, c);
    assert forall x | x in p + c :: x in p || x in c;
    AppendDistinct(p + c, q);
    assert forall x | x in p + c + q :: x in p || x in c || x in q;
    AppendDistinct(p + c + q, g);
  }

  lemma {:induction false} MitigationCount(s: seq<Layer>, n: nat)
    ensures |MitigationEdges(s, n)| == |s| * n
  {
    if s != [] {
      MitigationCount(s[..|s| - 1], n);
      assert |s| * n == (|s| - 1) * n + n;
    }
  }

  lemma {:induction false} MitigationEdgeFrom(s: seq<Layer>, n: nat, e: GraphEdge) returns (i: nat, j: nat)
    requires e in MitigationEdges(s, n)
    ensures i < |s| && j < n
    ensures e == GraphEdge(SafeguardId(s[i].id), ConsequenceId(j), Mitigates(s[i].id, s[i].effectiveness))
  {
    var m := |s| - 1;
    if e in MitigationEdges(s[..m], n) {
      i, j := MitigationEdgeFrom(s[..m], n, e);
    } else {
      i := m;
      j :| 0 <= j < n && MitigationRow(s[m], n)[j] == e;
    }
  }

  ghost predicate Declares(g: Graph, id: string) { exists i :: 0 <= i < |g.nodes| && g.nodes[i].id == id }

  lemma DeclaredNodes(node: SnapshotNode, causes: seq<string>, consequences: seq<string>, s: seq<Layer>)
    ensures var g := GraphFor(node, causes, consequences, s);
      && Declares(g, NodeId(node.id))
      && (forall i | 0 <= i < |causes| :: Declares(g, CauseId(i)))
      && (forall i | 0 <= i < |consequences| :: Declares(g, ConsequenceId(i)))
      && (forall i | 0 <= i < |s| :: Declares(g, SafeguardId(s[i].id)))
  {
    hide NodeId, CauseId, ConsequenceId, SafeguardId, CauseEdges, ConsequenceEdges, MitigationEdges, Paths;
    var g := GraphFor(node, causes, consequences, s);
    assert g.nodes[0].id == NodeId(node.id);
    forall i | 0 <= i < |causes| ensures Declares(g, CauseId(i)) {
      assert g.nodes[1 + i].id == CauseId(i);
    }
    forall i | 0 <= i < |consequences| ensures Declares(g, ConsequenceId(i)) {
      assert g.nodes[1 + |causes| + i].id == ConsequenceId(i);
    }
    forall i | 0 <= i < |s| ensures Declares(g, SafeguardId(s[i].id)) {
      assert g.nodes[1 + |causes| + |consequences| + i].id == SafeguardId(s[i].id);
    }
  }

  /** No dangling edge, and exactly one edge per cause, per consequence and per
      (safeguard, consequence) pair. */
  lemma EdgesWellFormed(node: SnapshotNode, causes: seq<string>, consequences: seq<string>, s: seq<Layer>)
    ensures var g := GraphFor(node, causes, consequences, s);
      && |g.edges| == |causes| + |consequences| + |s| * |consequences|
      && (forall e | e in g.edges :: Declares(g, e.source) && Declares(g, e.target))
  {
    var g := GraphFor(node, causes, consequences, s);
    DeclaredNodes(node, causes, consequences, s);
    MitigationCount(s, |consequences|);
    forall e | e in g.edges ensures Declares(g, e.source) && Declares(g, e.target) {
      if e in MitigationEdges(s, |consequences|) {
        var i, j := MitigationEdgeFrom(s, |consequences|, e);
      } else {
        assert e in CauseEdges(NodeId(node.id), |causes|) || e in ConsequenceEdges(NodeId(node.id), |consequences|);
      }
    }
  }

  /** Every path is a walk: its cause reaches its consequence through the process node. */
  lemma PathsAreWalks(node: SnapshotNode, causes: seq<string>, consequences: seq<string>, s: seq<Layer>, i: nat, j: nat)
    requires i < |causes| && j < |consequences|
    ensures var g := GraphFor(node, causes, consequences, s);
      && i * |consequences| + j < |g.paths|
      && g.paths[i * |consequences| + j].cause == causes[i]
      && g.paths[i * |consequences| + j].consequence == consequences[j]
      && GraphEdge(CauseId(i), NodeId(node.id), Initiates) in g.edges
      && GraphEdge(NodeId(node.id), ConsequenceId(j), MayLeadTo) in g.edges
  {
    PathAt(node.nodeCode, causes, consequences, i, j);
    assert CauseEdges(NodeId(node.id), |causes|)[i] in CauseEdges(NodeId(node.id), |causes|);
    assert ConsequenceEdges(NodeId(node.id), |consequences|)[j] in ConsequenceEdges(NodeId(node.id), |consequences|);
  }
}
