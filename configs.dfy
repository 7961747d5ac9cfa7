/**
 * The calibrated configuration documents the race engine consumes, as
 * already-parsed values: the team roster per season and the table that
 * maps the race labels SOFT/MEDIUM/HARD to concrete compound codes.
 */
module Configs {
  import opened Wrappers

  datatype DriverEntry = DriverEntry(name: string, number: int)

  /** A team's performance block; `pitExecutionStd` may be absent. */
  datatype PerformanceEntry = PerformanceEntry(
    paceOffset: real,
    degradationFactor: real,
    pitExecutionStd: Option<real>)

  datatype TeamEntry = TeamEntry(name: string, performance: PerformanceEntry, drivers: seq<DriverEntry>)

  /** A circuit record; the lap-time spread and track multiplier may be absent. */
  datatype CircuitEntry = CircuitEntry(
    totalLaps: int,
    baseLapTime: real,
    lapTimeStd: Option<real>,
    trackDegMultiplier: Option<real>,
    pitLoss: real)

  /** Season -> the season's teams, in document order. */
  type TeamsDocument = map<string, seq<TeamEntry>>

  /** Season -> circuit -> race label -> compound code. */
  type CompoundTable = map<string, map<string, map<string, string>>>

  /**
   * The plain three-level lookup of a race label: the first missing key,
   * season, circuit or label, is a KeyError naming it.
   */
  function CompoundLookup(cfg: CompoundTable, season: string, circuit: string, raceLabel: string): (r: Result<string>)
    ensures r.Ok? <==> season in cfg && circuit in cfg[season] && raceLabel in cfg[season][circuit]
    ensures r.Ok? ==> r.value == cfg[season][circuit][raceLabel]
    ensures season !in cfg ==> r == Err(KeyError(season))
  {
    if season !in cfg then Err(KeyError(season))
    else if circuit !in cfg[season] then Err(KeyError(circuit))
    else if raceLabel !in cfg[season][circuit] then Err(KeyError(raceLabel))
    else Ok(cfg[season][circuit][raceLabel])
  }
}
