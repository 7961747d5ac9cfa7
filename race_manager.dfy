/**
 * The lap-level race manager (src/sim/RaceManager.py): it builds two-car
 * teams from the season's roster, every car on the circuit's MEDIUM
 * compound and every team planning a stop on lap 20 onto the HARD
 * compound; each lap it first lets every team decide and apply its pit,
 * then ages every car's tyre and asks each car for its clean-air lap time.
 */
module RaceManager {
  import opened Wrappers
  import opened Configs
  import opened TyreModel
  import opened CarAgent
  import opened TeamAgent

  datatype CircuitSpec = CircuitSpec(
    name: string,
    totalLaps: int,
    baseLapTime: real,
    trackDegMultiplier: real,
    pitLoss: real)

  const StartLabel := "MEDIUM"
  const PitLabel := "HARD"
  const PlannedPitLap := 20

  /**
   * The car's clean-air lap estimate from its calibration, its state, the
   * base lap time and the track multiplier. The car agent does not define
   * it, so the caller supplies it.
   */
  type LapEstimate = (CarCalibration, SectorState, real, real) -> real

  /** The error the build raises for one team, given the two label lookups. */
  function TeamBuildError(t: TeamEntry, medium: Result<string>, hard: Result<string>): (e: Option<Error>)
    ensures e.None? <==> |t.drivers| >= 2 && medium.Ok? && hard.Ok?
    ensures |t.drivers| < 2 && (|t.drivers| == 0 || medium.Ok?) ==> e == Some(ValueError(TwoCarsMessage))
  {
    if |t.drivers| > 0 && medium.Err? then Some(medium.error)
    else if |t.drivers| < 2 then Some(ValueError(TwoCarsMessage))
    else if hard.Err? then Some(hard.error)
    else None
  }

  /** The error of the first team, in roster order, that fails to build. */
  function FirstBuildError(ts: seq<TeamEntry>, medium: Result<string>, hard: Result<string>): (e: Option<Error>)
    ensures e.None? <==> forall i :: 0 <= i < |ts| ==> TeamBuildError(ts[i], medium, hard).None?
  {
    if ts == [] then None
    else
      var e := FirstBuildError(ts[..|ts| - 1], medium, hard);
      if e.Some? then e else TeamBuildError(ts[|ts| - 1], medium, hard)
  }

  /** Once a prefix of the roster has failed, the whole roster fails with the same error. */
  lemma {:induction false} FirstBuildErrorOfPrefix(ts: seq<TeamEntry>, k: nat, medium: Result<string>, hard: Result<string>)
    requires k <= |ts| && FirstBuildError(ts[..k], medium, hard).Some?
    ensures FirstBuildError(ts, medium, hard) == FirstBuildError(ts[..k], medium, hard)
    decreases |ts| - k
  {
    if k < |ts| {
      assert ts[..k + 1][..k] == ts[..k];
      FirstBuildErrorOfPrefix(ts, k + 1, medium, hard);
    } else {
      assert ts[..k] == ts;
    }
  }

  /** A car exactly as the build creates it, on the race's shared tyre model. */
  ghost predicate NewCar(car: CarAgent, teamName: string, driver: DriverEntry,
                         perf: PerformanceEntry, compound: string, tyreModel: Model)
    reads car, car.tyreState
  {
    && car.carId == driver.name && car.teamId == teamName && car.tyreModel == tyreModel
    && car.calibration == CarCalibration(perf.paceOffset, perf.degradationFactor, 0.0, None)
    && car.tyreState.compound == compound && car.tyreState.ageLaps == 0
    && car.Valid() && car.sectorCounter == 0
    && car.totalTime == 0.0 && !car.retired && !car.pendingPit && car.pitCompound == None
  }

  class RaceManager {
    const circuit: CircuitSpec
    const season: string
    const circuitName: string
    const tyreModel: Model
    const teams: seq<TeamAgent>
    var currentLap: int

    /** Every car's tyre state, the only per-car state a lap changes. */
    ghost function AllTyres(): set<TyreState>
    {
      set i, j | 0 <= i < |teams| && 0 <= j < |teams[i].cars| :: teams[i].cars[j].tyreState
    }

    /** No two cars share a tyre state. */
    ghost predicate TyresDistinct()
    {
      forall i1, j1, i2, j2 ::
        0 <= i1 < |teams| && 0 <= j1 < |teams[i1].cars| &&
        0 <= i2 < |teams| && 0 <= j2 < |teams[i2].cars| && (i1 != i2 || j1 != j2) ==>
        teams[i1].cars[j1].tyreState != teams[i2].cars[j2].tyreState
    }

    ghost predicate Valid()
      reads set i | 0 <= i < |teams| :: teams[i]
    {
      (forall i :: 0 <= i < |teams| ==> teams[i].Valid()) && TyresDistinct()
    }

    constructor (circuit: CircuitSpec, season: string, circuitName: string,
                 tyreModel: Model, teams: seq<TeamAgent>)
      ensures this.circuit == circuit && this.season == season && this.circuitName == circuitName
      ensures this.tyreModel == tyreModel && this.teams == teams && currentLap == 0
    {
      this.circuit := circuit;
      this.season := season;
      this.circuitName := circuitName;
      this.tyreModel := tyreModel;
      this.teams := teams;
      currentLap := 0;
    }

    /**
     * Runs one lap: the lap counter moves on by one; all teams decide and
     * apply their pits first, then every car, team by team in build
     * order, ages its tyre and reports its clean-air lap time. A car whose
     * team pitted this lap is on the new compound at age 1, every other
     * car is one lap older on the same compound.
     */
    method StepLap(estimate: LapEstimate) returns (lapTimes: seq<real>)
      requires Valid()
      modifies this`currentLap, AllTyres()
      ensures Valid()
      ensures currentLap == old(currentLap) + 1
      ensures |lapTimes| == 2 * |teams|
      ensures forall i, j | 0 <= i < |teams| && 0 <= j < 2 ::
        var ts := teams[i].cars[j].tyreState;
        if teams[i].plannedPitLap == Some(currentLap)
        then ts.compound == teams[i].targetCompound.value && ts.ageLaps == 1
        else ts.compound == old(ts.compound) && ts.ageLaps == old(ts.ageLaps) + 1
      ensures forall i, j | 0 <= i < |teams| && 0 <= j < 2 ::
        lapTimes[2 * i + j] == estimate(teams[i].cars[j].calibration, teams[i].cars[j].View(),
                                        circuit.baseLapTime, circuit.trackDegMultiplier)
    {
      currentLap := currentLap + 1;
      ApplyDecisions();
      lapTimes := StepCars(estimate);
    }

    /**
     * Runs the race distance: exactly `totalLaps` laps (none when it is
     * not positive), printing left out. Afterwards each car whose team's
     * planned lap fell in the laps just run is on the target compound, as
     * old as the laps since that stop (counting the stop lap); every other
     * car is on its old compound, older by the laps run.
     */
    method RunRace(estimate: LapEstimate)
      requires Valid()
      modifies this`currentLap, AllTyres()
      ensures Valid()
      ensures currentLap == old(currentLap) + MaxInt(0, circuit.totalLaps)
      ensures forall i, j | 0 <= i < |teams| && 0 <= j < 2 ::
        var ts := teams[i].cars[j].tyreState;
        var p := teams[i].plannedPitLap;
        if p.Some? && old(currentLap) < p.value <= currentLap
        then ts.compound == teams[i].targetCompound.value && ts.ageLaps == currentLap - p.value + 1
        else ts.compound == old(ts.compound) && ts.ageLaps == old(ts.ageLaps) + (currentLap - old(currentLap))
    {
      var n := 0;
      while n < circuit.totalLaps
        invariant Valid()
        invariant 0 <= n <= MaxInt(0, circuit.totalLaps)
        invariant currentLap == old(currentLap) + n
        invariant forall i, j | 0 <= i < |teams| && 0 <= j < 2 ::
          var ts := teams[i].cars[j].tyreState;
          var p := teams[i].plannedPitLap;
          if p.Some? && old(currentLap) < p.value <= currentLap
          then ts.compound == teams[i].targetCompound.value && ts.ageLaps == currentLap - p.value + 1
          else ts.compound == old(ts.compound) && ts.ageLaps == old(ts.ageLaps) + n
      {
        var _ := StepLap(estimate);
        n := n + 1;
      }
    }

    /** Every team decides for the current lap and applies its decision. */
    method ApplyDecisions()
      requires Valid()
      modifies AllTyres()
      ensures Valid()
      ensures forall i, j | 0 <= i < |teams| && 0 <= j < 2 ::
        var ts := teams[i].cars[j].tyreState;
        if teams[i].plannedPitLap == Some(currentLap)
        then ts.compound == teams[i].targetCompound.value && ts.ageLaps == 0
        else ts.compound == old(ts.compound) && ts.ageLaps == old(ts.ageLaps)
    {
      var i := 0;
      while i < |teams|
        invariant 0 <= i <= |teams|
        invariant Valid()
        invariant forall i', j' | 0 <= i' < |teams| && 0 <= j' < 2 ::
          var ts := teams[i'].cars[j'].tyreState;
          if i' < i && teams[i'].plannedPitLap == Some(currentLap)
          then ts.compound == teams[i'].targetCompound.value && ts.ageLaps == 0
          else ts.compound == old(ts.compound) && ts.ageLaps == old(ts.ageLaps)
      {
        var decision := teams[i].Decide(currentLap);
        teams[i].ApplyDecision(decision, circuit.pitLoss);
        i := i + 1;
      }
    }

    /** Every car, team by team, ages its tyre by one lap and reports its lap time. */
    method StepCars(estimate: LapEstimate) returns (lapTimes: seq<real>)
      requires Valid()
      modifies AllTyres()
      ensures Valid()
      ensures |lapTimes| == 2 * |teams|
      ensures forall i, j | 0 <= i < |teams| && 0 <= j < 2 ::
        var ts := teams[i].cars[j].tyreState;
        ts.compound == old(ts.compound) && ts.ageLaps == old(ts.ageLaps) + 1
      ensures forall i, j | 0 <= i < |teams| && 0 <= j < 2 ::
        lapTimes[2 * i + j] == estimate(teams[i].cars[j].calibration, teams[i].cars[j].View(),
                                        circuit.baseLapTime, circuit.trackDegMultiplier)
    {
      lapTimes := [];
      var i := 0;
      while i < |teams|
        invariant 0 <= i <= |teams|
        invariant |lapTimes| == 2 * i
        invariant forall i', j' | 0 <= i' < |teams| && 0 <= j' < 2 ::
          var ts := teams[i'].cars[j'].tyreState;
          ts.compound == old(ts.compound) && ts.ageLaps == old(ts.ageLaps) + (if i' < i then 1 else 0)
        invariant forall i', j' | 0 <= i' < i && 0 <= j' < 2 ::
          lapTimes[2 * i' + j'] == estimate(teams[i'].cars[j'].calibration, teams[i'].cars[j'].View(),
                                            circuit.baseLapTime, circuit.trackDegMultiplier)
      {
        var times := StepTeamCars(teams[i], estimate);
        lapTimes := lapTimes + times;
        i := i + 1;
      }
    }

    /** The two cars of one team, in order, age their tyres and report their lap times. */
    method StepTeamCars(team: TeamAgent, estimate: LapEstimate) returns (times: seq<real>)
      requires team.Valid()
      modifies team.TyreStates()
      ensures |times| == 2
      ensures team.cars[0].tyreState != team.cars[1].tyreState ==> forall j | 0 <= j < 2 ::
        var ts := team.cars[j].tyreState;
        ts.compound == old(ts.compound) && ts.ageLaps == old(ts.ageLaps) + 1
      ensures team.cars[0].tyreState != team.cars[1].tyreState ==> forall j | 0 <= j < 2 ::
        times[j] == estimate(team.cars[j].calibration, team.cars[j].View(),
                             circuit.baseLapTime, circuit.trackDegMultiplier)
    {
      times := [];
      var j := 0;
      while j < |team.cars|
        invariant 0 <= j <= 2 && |times| == j
        invariant team.cars[0].tyreState != team.cars[1].tyreState ==> forall j' | 0 <= j' < 2 ::
          var ts := team.cars[j'].tyreState;
          ts.compound == old(ts.compound) && ts.ageLaps == old(ts.ageLaps) + (if j' < j then 1 else 0)
        invariant team.cars[0].tyreState != team.cars[1].tyreState ==> forall j' | 0 <= j' < j ::
          times[j'] == estimate(team.cars[j'].calibration, team.cars[j'].View(),
                                circuit.baseLapTime, circuit.trackDegMultiplier)
      {
        var car := team.cars[j];
        car.UpdateTyreWear();
        var lapTime := estimate(car.calibration, car.View(), circuit.baseLapTime, circuit.trackDegMultiplier);
        times := times + [lapTime];
        j := j + 1;
      }
    }
  }

  /**
   * Builds the race manager for a season and circuit: every team of the
   * season's roster, in order, keeps the first two of its drivers, each
   * on the MEDIUM-mapped compound at age 0, and plans a stop on lap 20
   * onto the HARD-mapped compound. An unknown season, a failed label
   * lookup, or a team with fewer than two drivers fails the build with
   * the error of the first team that hits it.
   */
  method Build(circuit: CircuitSpec, teamsJson: TeamsDocument, tyreModel: Model,
               compounds: CompoundTable, season: string, circuitName: string)
    returns (r: Result<RaceManager>)
    ensures season !in teamsJson ==> r == Err(KeyError(season))
    ensures season in teamsJson ==>
      var medium := CompoundLookup(compounds, season, circuitName, StartLabel);
      var hard := CompoundLookup(compounds, season, circuitName, PitLabel);
      var e := FirstBuildError(teamsJson[season], medium, hard);
      && (r.Err? <==> e.Some?)
      && (r.Err? ==> r.error == e.value)
    ensures r.Ok? ==>
      var rm := r.value;
      var entries := teamsJson[season];
      && fresh(rm) && rm.Valid() && rm.currentLap == 0 && rm.tyreModel == tyreModel
      && rm.circuit == circuit && rm.season == season && rm.circuitName == circuitName
      && |rm.teams| == |entries|
      && forall i | 0 <= i < |entries| ::
        && fresh(rm.teams[i])
        && rm.teams[i].teamId == entries[i].name
        && rm.teams[i].plannedPitLap == Some(PlannedPitLap)
        && rm.teams[i].targetCompound == Some(compounds[season][circuitName][PitLabel])
        && forall j | 0 <= j < 2 ::
          && fresh(rm.teams[i].cars[j]) && fresh(rm.teams[i].cars[j].tyreState)
          && NewCar(rm.teams[i].cars[j], entries[i].name, entries[i].drivers[j],
                    entries[i].performance, compounds[season][circuitName][StartLabel], tyreModel)
  {
    if season !in teamsJson {
      return Err(KeyError(season));
    }
    var medium := CompoundLookup(compounds, season, circuitName, StartLabel);
    var hard := CompoundLookup(compounds, season, circuitName, PitLabel);
    var built := BuildTeams(teamsJson[season], medium, hard, tyreModel);
    if built.Err? {
      return Err(built.error);
    }
    var rm := new RaceManager(circuit, season, circuitName, tyreModel, built.value);
    return Ok(rm);
  }

  /**
   * The team agents of a roster, in roster order, or the first team's
   * build error; no two cars share a tyre state.
   */
  method BuildTeams(entries: seq<TeamEntry>, medium: Result<string>, hard: Result<string>, tyreModel: Model)
    returns (r: Result<seq<TeamAgent>>)
    ensures var e := FirstBuildError(entries, medium, hard);
            && (r.Err? <==> e.Some?)
            && (r.Err? ==> r.error == e.value)
    ensures r.Ok? ==> |entries| > 0 ==> medium.Ok? && hard.Ok?
    ensures r.Ok? ==>
      var teams := r.value;
      && |teams| == |entries|
      && (forall i | 0 <= i < |entries| ::
        && fresh(teams[i]) && teams[i].Valid()
        && teams[i].teamId == entries[i].name
        && teams[i].plannedPitLap == Some(PlannedPitLap)
        && teams[i].targetCompound == Some(hard.value)
        && forall j | 0 <= j < 2 ::
          && fresh(teams[i].cars[j]) && fresh(teams[i].cars[j].tyreState)
          && NewCar(teams[i].cars[j], entries[i].name, entries[i].drivers[j],
                    entries[i].performance, medium.value, tyreModel))
      && forall i1, j1, i2, j2 ::
        0 <= i1 < |entries| && 0 <= j1 < 2 && 0 <= i2 < |entries| && 0 <= j2 < 2 && (i1 != i2 || j1 != j2) ==>
        teams[i1].cars[j1].tyreState != teams[i2].cars[j2].tyreState
  {
    var teams: seq<TeamAgent> := [];
    var k := 0;
    while k < |entries|
      invariant 0 <= k <= |entries| && |teams| == k
      invariant FirstBuildError(entries[..k], medium, hard).None?
      invariant k > 0 ==> medium.Ok? && hard.Ok?
      invariant forall i | 0 <= i < k ::
        && fresh(teams[i]) && teams[i].Valid()
        && teams[i].teamId == entries[i].name
        && teams[i].plannedPitLap == Some(PlannedPitLap)
        && teams[i].targetCompound == Some(hard.value)
        && forall j | 0 <= j < 2 ::
          && fresh(teams[i].cars[j]) && fresh(teams[i].cars[j].tyreState)
          && NewCar(teams[i].cars[j], entries[i].name, entries[i].drivers[j],
                    entries[i].performance, medium.value, tyreModel)
      invariant forall i1, j1, i2, j2 ::
        0 <= i1 < k && 0 <= j1 < 2 && 0 <= i2 < k && 0 <= j2 < 2 && (i1 != i2 || j1 != j2) ==>
        teams[i1].cars[j1].tyreState != teams[i2].cars[j2].tyreState
    {
      var entry := entries[k];
      assert entries[..k + 1][..k] == entries[..k];
      var built := BuildTeam(entry, medium, hard, tyreModel);
      if built.Err? {
        FirstBuildErrorOfPrefix(entries, k + 1, medium, hard);
        return Err(built.error);
      }
      teams := teams + [built.value];
      k := k + 1;
    }
    assert entries[..k] == entries;
    return Ok(teams);
  }

  /**
   * Builds one team: a car per listed driver on the MEDIUM compound, cut
   * to the first two, then the team agent with its lap-20 HARD plan.
   */
  method BuildTeam(entry: TeamEntry, medium: Result<string>, hard: Result<string>, tyreModel: Model)
    returns (r: Result<TeamAgent>)
    ensures r.Err? <==> TeamBuildError(entry, medium, hard).Some?
    ensures r.Err? ==> r.error == TeamBuildError(entry, medium, hard).value
    ensures r.Ok? ==>
      && fresh(r.value) && r.value.Valid()
      && r.value.teamId == entry.name
      && r.value.plannedPitLap == Some(PlannedPitLap)
      && r.value.targetCompound == Some(hard.value)
      && r.value.cars[0].tyreState != r.value.cars[1].tyreState
      && forall j | 0 <= j < 2 ::
        && fresh(r.value.cars[j]) && fresh(r.value.cars[j].tyreState)
        && NewCar(r.value.cars[j], entry.name, entry.drivers[j], entry.performance, medium.value, tyreModel)
  {
    var cars: seq<CarAgent> := [];
    var d := 0;
    while d < |entry.drivers|
      invariant 0 <= d <= |entry.drivers| && |cars| == d
      invariant d > 0 ==> medium.Ok?
      invariant forall x | 0 <= x < d ::
        && fresh(cars[x]) && fresh(cars[x].tyreState)
        && NewCar(cars[x], entry.name, entry.drivers[x], entry.performance, medium.value, tyreModel)
      invariant forall x, y | 0 <= x < y < d :: cars[x].tyreState != cars[y].tyreState
    {
      if medium.Err? {
        return Err(medium.error);
      }
      var tyreState := new TyreState(medium.value, 0);
      var calibration := CarCalibration(entry.performance.paceOffset,
                                        entry.performance.degradationFactor, 0.0, None);
      var car := new CarAgent(entry.drivers[d].name, entry.name, calibration, tyreState, tyreModel);
      cars := cars + [car];
      d := d + 1;
    }
    cars := cars[..MinInt(2, |cars|)];
    var team := NewTeamAgent(entry.name, cars);
    if team.Err? {
      return Err(team.error);
    }
    if hard.Err? {
      return Err(hard.error);
    }
    team.value.SetBasicStrategy(PlannedPitLap, hard.value);
    return Ok(team.value);
  }

}
