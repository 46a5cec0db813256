/** What the printed score, trace and risk ranks say about the combined protection. */
module ScoreProperties {
  import opened Records
  import opened Ordering
  import opened Independence
  import opened Protection
  import opened Freezing
  import opened Graph
  import opened Scoring

  // ----- rounding

  lemma RoundMonotone(x: real, y: real)
    requires x <= y
    ensures Round(x) <= Round(y)
  {
  }

  lemma PercentMonotone(x: real, y: real)
    requires x <= y
    ensures Percent(x) <= Percent(y)
  {
    RoundMonotone(x * 100.0 * 10000.0, y * 100.0 * 10000.0);
  }

  lemma Round4Error(x: real)
    ensures -1.0 / 20000.0 <= Round4(x) - x <= 1.0 / 20000.0
  {
  }

  // ----- the combined protection of the score order

  lemma ScoreOrderFacts(s: seq<Layer>)
    requires InRange(s)
    ensures Combined(ScoreOrder(s)) == Combined(s)
    ensures InRange(ScoreOrder(s))
    ensures 0.0 <= Combined(s) <= 1.0
  {
    LayerBeforeStrict();
    MultisetMembers(s, ScoreOrder(s));
    RemainingPermutation(ScoreOrder(s), s);
    RemainingBounds(s);
  }

  lemma CombinedGrows(s: seq<Layer>, i: nat, j: nat)
    requires InRange(s) && i <= j <= |s|
    ensures Combined(s[..i]) <= Combined(s[..j])
    decreases j
  {
    if i < j {
      CombinedGrows(s, i, j - 1);
      assert s[..j][..j - 1] == s[..j - 1] && s[j - 1] in s;
      RemainingBounds(s[..j - 1]);
      PastMonotone(Remaining(s[..j - 1]), s[j - 1], Remaining(s[..j - 1]), s[j - 1].(effectiveness := 0.0));
    }
  }

  // ----- the trace

  lemma {:induction false} LayerStepAt(s: seq<Layer>, i: nat)
    requires i < |s|
    ensures LayerSteps(s)[i] == CombinationStep(i + 1, s[i], Combined(s[..i]), Combined(s[..i + 1]))
  {
    var n := |s| - 1;
    if i < n {
      LayerStepAt(s[..n], i);
      assert s[..n][..i] == s[..i] && s[..n][..i + 1] == s[..i + 1];
    } else {
      assert s[..n + 1] == s;
    }
  }

  lemma TraceIsNumbered(paths: seq<GraphPath>, initial: int, ordered: seq<Layer>, rejected: seq<Rejection>)
    ensures var r := ScoreFor(paths, initial, ordered, rejected);
      && |r.steps| == |ordered| + |rejected| + 1
      && (forall i | 0 <= i < |r.steps| :: r.steps[i].number == i + 1)
      && r.steps[|r.steps| - 1].runningScore == r.coverageScore
  {
    var steps := ScoreFor(paths, initial, ordered, rejected).steps;
    forall i | 0 <= i < |steps| ensures steps[i].number == i + 1 {
      if i < |ordered| { LayerStepAt(ordered, i); }
    }
  }

  // The running score of step i is the rounded protection of the layers combined so far.
  lemma RunningScoreAt(paths: seq<GraphPath>, initial: int, ordered: seq<Layer>, rejected: seq<Rejection>, i: nat)
    requires i < |ordered| + |rejected| + 1
    ensures var steps := ScoreFor(paths, initial, ordered, rejected).steps;
      && i < |steps|
      && steps[i].runningScore == Percent(Combined(ordered[..if i < |ordered| then i + 1 else |ordered|]))
  {
    if i < |ordered| { LayerStepAt(ordered, i); }
    assert ordered[..|ordered|] == ordered;
  }

  lemma RunningScoresNeverDecrease(paths: seq<GraphPath>, initial: int, ordered: seq<Layer>, rejected: seq<Rejection>, i: nat, j: nat)
    requires InRange(ordered)
    requires i <= j < |ordered| + |rejected| + 1
    ensures var steps := ScoreFor(paths, initial, ordered, rejected).steps;
      j < |steps| && steps[i].runningScore <= steps[j].runningScore
  {
    var p, q := if i < |ordered| then i + 1 else |ordered|, if j < |ordered| then j + 1 else |ordered|;
    RunningScoreAt(paths, initial, ordered, rejected, i);
    RunningScoreAt(paths, initial, ordered, rejected, j);
    CombinedGrows(ordered, p, q);
    PercentMonotone(Combined(ordered[..p]), Combined(ordered[..q]));
  }

  function Contributions(steps: seq<ScoreStep>): real {
    if steps == [] then 0.0 else Contributions(steps[..|steps| - 1]) + steps[|steps| - 1].contribution
  }

  lemma {:induction false} LayerContributions(s: seq<Layer>)
    ensures -(|s| as real) / 20000.0 <= Contributions(LayerSteps(s)) - Combined(s) <= |s| as real / 20000.0
  {
    if s != [] {
      var n := |s| - 1;
      LayerContributions(s[..n]);
      Round4Error(Combined(s) - Combined(s[..n]));
      var last := CombinationStep(n + 1, s[n], Combined(s[..n]), Combined(s));
      assert LayerSteps(s) == LayerSteps(s[..n]) + [last];
      assert LayerSteps(s)[..n] == LayerSteps(s[..n]);
      assert Contributions(LayerSteps(s)) == Contributions(LayerSteps(s[..n])) + last.contribution;
    }
  }

  lemma {:induction false} IdleContributions(steps: seq<ScoreStep>, idle: seq<ScoreStep>)
    requires forall i | 0 <= i < |idle| :: idle[i].contribution == 0.0
    ensures Contributions(steps + idle) == Contributions(steps)
  {
    if idle == [] {
      assert steps + idle == steps;
    } else {
      assert (steps + idle)[..|steps + idle| - 1] == steps + idle[..|idle| - 1];
      IdleContributions(steps, idle[..|idle| - 1]);
    }
  }

  /** The printed contributions add up to the printed score, up to the rounding of
      n contributions and of the score itself. */
  lemma ContributionsExplainScore(paths: seq<GraphPath>, initial: int, ordered: seq<Layer>, rejected: seq<Rejection>)
    ensures var r := ScoreFor(paths, initial, ordered, rejected);
      var slack := (100 * |ordered| + 1) as real / 2000000.0;
      -slack <= Contributions(r.steps) - r.coverageScore / 100.0 <= slack
  {
    var r := ScoreFor(paths, initial, ordered, rejected);
    var idle := r.steps[|ordered|..];
    assert r.steps == LayerSteps(ordered) + idle;
    IdleContributions(LayerSteps(ordered), idle);
    LayerContributions(ordered);
    Round4Error(Combined(ordered) * 100.0);
  }

  // ----- the 50 % threshold

  lemma VerdictIsUniform(paths: seq<GraphPath>, initial: int, ordered: seq<Layer>, rejected: seq<Rejection>)
    ensures var r := ScoreFor(paths, initial, ordered, rejected);
      && |r.paths| == |paths|
      && (forall p | p in r.paths :: p.covered <==> Combined(ordered) >= COVERED_THRESHOLD)
      && (r.uncoveredPaths == [] || r.uncoveredPaths == r.paths)
      && (r.uncoveredPaths == [] <==> paths == [] || Combined(ordered) >= COVERED_THRESHOLD)
  {
  }

  // The printed score reaches 50 slightly before the verdict turns to "covered".
  lemma ScoreAtThreshold(combined: real)
    ensures combined >= COVERED_THRESHOLD ==> Percent(combined) >= 50.0
    ensures Percent(combined) > 50.0 ==> combined >= COVERED_THRESHOLD
    ensures Percent(combined) >= 50.0 <==> combined >= 0.4999995
  {
  }

  lemma FiftyIsNotAlwaysCovered(g: Layer)
    requires g.effectiveness == 0.4999996
    ensures Percent(Combined([g])) == 50.0 && Combined([g]) < COVERED_THRESHOLD
  {
    assert [g][..0] == [];
    assert Remaining([g]) == Past(1.0, g) == 1.0 - g.effectiveness;
  }

  // ----- residual risk

  lemma ScaledRisk(initial: int, c: real, d: real)
    requires initial >= 0 && c <= d
    ensures Scaled(initial, d) <= Scaled(initial, c)
  {
  }

  // More protection never leaves more risk.
  lemma ResidualAntitone(initial: int, c: real, d: real)
    requires initial >= 0 && c <= d
    ensures Residual(initial, d) <= Residual(initial, c)
  {
    ScaledRisk(initial, c, d);
    hide Scaled, Ceil;
    CeilMonotone(Scaled(initial, d), Scaled(initial, c));
  }

  lemma CeilMonotone(x: real, y: real)
    requires x <= y
    ensures Ceil(x) <= Ceil(y)
  {
  }

  lemma ResidualBounds(initial: int, c: real)
    requires initial >= 1 && 0.0 <= c <= 1.0
    ensures 1 <= Residual(initial, c) <= initial
  {
    ScaledRisk(initial, 0.0, c);
    assert Scaled(initial, 0.0) == initial as real;
    CeilMonotone(Scaled(initial, c), initial as real);
  }

  predicate NoWorse(a: RiskRank, b: RiskRank) {
    a == b || a == Low || (a == Medium && b != Low) || (a == High && b == Critical)
  }

  lemma RankMonotone(m: int, n: int)
    requires m <= n
    ensures NoWorse(RankOf(m), RankOf(n))
  {
  }

  lemma CoveredIsNeverCritical(initial: int, c: real)
    requires 1 <= initial <= 25 && COVERED_THRESHOLD <= c <= 1.0
    ensures Residual(initial, c) <= 13
    ensures RankOf(Residual(initial, c)) != Critical
  {
    ResidualAntitone(initial, 0.5, c);
    assert Residual(initial, 0.5) <= 13;
  }

  lemma MatrixProduct(likelihood: int, severity: int)
    requires 1 <= likelihood <= 5 && 1 <= severity <= 5
    ensures 1 <= likelihood * severity <= 25
  {
    assert 1 * severity <= likelihood * severity <= 5 * severity;
  }

  /** On the 5 x 5 risk matrix the evaluation never makes a scenario look worse, and a
      covered one is never left critical. */
  lemma RiskAfterIsBounded(graph: Graph, scenario: SnapshotScenario, s: seq<Layer>, rejected: seq<Rejection>)
    requires InRange(s)
    requires 1 <= scenario.likelihood <= 5 && 1 <= scenario.severity <= 5
    ensures var r := ScoreOf(graph, scenario, s, rejected);
      && NoWorse(r.riskAfter, r.riskBefore)
      && (Combined(s) >= COVERED_THRESHOLD ==> r.riskAfter != Critical)
  {
    var initial := scenario.InitialRisk();
    MatrixProduct(scenario.likelihood, scenario.severity);
    ScoreOrderFacts(s);
    ResidualBounds(initial, Combined(s));
    RankMonotone(Residual(initial, Combined(s)), initial);
    if Combined(s) >= COVERED_THRESHOLD { CoveredIsNeverCritical(initial, Combined(s)); }
  }
}
