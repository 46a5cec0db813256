module Wrappers {
  datatype Option<+T> = None | Some(value: T)

  function Or<T>(o: Option<T>, otherwise: T): T { if o.Some? then o.value else otherwise }

  datatype Result<+T, +E> = Ok(value: T) | Err(error: E)
}

/** Instants, the stored entities and the frozen evaluation input. */
module Records {
  import opened Wrappers

  // Nanoseconds after Go's zero time (1 January of year 1, UTC). A calendar day is
  // 86400 s: every instant is taken in UTC.
  type Time = int

  const ZERO_TIME: Time := 0
  const SECOND := 1_000_000_000
  const MINUTE := 60 * SECOND
  const DAY := 86_400 * SECOND

  function AddDays(t: Time, days: int): Time { t + days * DAY }

  // time.Time.Truncate(time.Second): down to a multiple of a second since the zero time.
  function TruncateToSecond(t: Time): Time { t - t % SECOND }

  datatype Lifecycle = Pending | Active | Expired | Invalid

  datatype ScenarioState = Draft | Analyzed | Verified | Accepted | Rework

  datatype ProcessNode = ProcessNode(
    id: nat, nodeCode: string, name: string, unitName: string, medium: string,
    designPressure: real, designTemperature: real, ownerTeam: string, active: bool)

  datatype DeviationScenario = DeviationScenario(
    id: nat, processNodeId: nat, guideword: string, parameter: string, cause: string, consequence: string,
    likelihood: int, severity: int, state: ScenarioState, version: int,
    createdBy: nat, reviewedBy: Option<nat>)

  datatype Safeguard = Safeguard(
    id: nat, name: string, kind: string, targetScenarioId: nat, independenceKey: string,
    effectiveness: real, testIntervalDays: int, lastVerifiedAt: Option<Time>,
    lifecycle: Lifecycle, evidenceNote: string, lastVerificationBy: Option<nat>)
  {
    function VerificationExpiresAt(): Option<Time> {
      if lastVerifiedAt.None? || testIntervalDays <= 0 then None
      else Some(AddDays(lastVerifiedAt.value, testIntervalDays))
    }

    predicate IsEffectiveAt(at: Time) {
      if lifecycle != Active || effectiveness <= 0.0 || lastVerifiedAt.None? then false
      else
        var expires := VerificationExpiresAt();
        expires.Some? && at <= expires.value
    }
  }

  datatype SnapshotNode = SnapshotNode(
    id: nat, nodeCode: string, name: string, unitName: string, medium: string,
    designPressure: real, designTemperature: real)

  datatype SnapshotScenario = SnapshotScenario(
    id: nat, guideword: string, parameter: string, cause: string, consequence: string,
    likelihood: int, severity: int, state: ScenarioState, version: int)
  {
    function InitialRisk(): int { likelihood * severity }
  }

  datatype SnapshotSafeguard = SnapshotSafeguard(
    id: nat, name: string, kind: string, independenceKey: string, effectiveness: real,
    testIntervalDays: int, lastVerifiedAt: Option<Time>, lifecycle: Lifecycle, evidenceNote: string)

  datatype Snapshot = Snapshot(
    algorithmVersion: string, referenceTime: Time, node: SnapshotNode,
    scenario: SnapshotScenario, safeguards: seq<SnapshotSafeguard>)

  const VERSION := "hazop-cover-v1.0.0"

  datatype RiskRank = Low | Medium | High | Critical

  function RankOf(score: int): RiskRank {
    if score >= 20 then Critical
    else if score >= 12 then High
    else if score >= 6 then Medium
    else Low
  }
}
