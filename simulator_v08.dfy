/**
 * The multi-car lap simulator of SimVersions/simulator_v0_8.py: a tyre
 * delta over a three-phase curve, the plain compound lookup, a grid of
 * teams ordered by pace offset, and a race loop in which every driver
 * pits once on lap 20 and then runs the lap, the lap time clamped at 0.
 * Each driver's state is a `DriverState` object the loop updates in
 * place; `DriverView` is its value, and `RunLaps` the value it takes
 * after a number of laps.
 */
module SimulatorV08 {
  import opened Wrappers
  import opened Configs
  import TyreModel
  import Sorting
  import opened Stint

  const Season := "2021"
  const CircuitName := "Bahrain Grand Prix"
  const StartTyreLabel := "MEDIUM"
  const EndTyreLabel := "HARD"
  const PitLap := 20
  const StartLapExtra := 4.0
  const UseLapNoise := true
  const UsePitNoise := true

  // ---------------------------------------------------------------
  // Tyre delta
  // ---------------------------------------------------------------

  /** The warm-up term: the start penalty scaled by the share of the window still ahead. */
  function WarmupTerm(spec: TyreModel.TyreSpec, life: int): (w: real)
    ensures spec.warmupLaps <= 0 || life >= spec.warmupLaps ==> w == 0.0
    ensures spec.warmupLaps > 0 && life == 0 ==> w == spec.warmupStartPenalty
    ensures 0 <= life && spec.warmupStartPenalty >= 0.0 ==> 0.0 <= w <= spec.warmupStartPenalty
  {
    if spec.warmupLaps > 0 && life < spec.warmupLaps then
      var frac := 1.0 - life as real / spec.warmupLaps as real;
      if 0 <= life then
        assert frac == TyreModel.WarmupFraction(spec, life);
        assert spec.warmupStartPenalty >= 0.0 ==>
          spec.warmupStartPenalty * frac <= spec.warmupStartPenalty * 1.0;
        spec.warmupStartPenalty * frac
      else
        spec.warmupStartPenalty * frac
    else 0.0
  }

  /** The degradation term: linear plus quadratic in the laps past the peak. */
  function DegradationTerm(spec: TyreModel.TyreSpec, life: int): (d: real)
    ensures life <= spec.peakLife ==> d == 0.0
    ensures spec.degLinear >= 0.0 && spec.degQuadratic >= 0.0 ==> d >= 0.0
  {
    if life > spec.peakLife then
      var age := (life - spec.peakLife) as real;
      spec.degLinear * age + spec.degQuadratic * (age * age)
    else 0.0
  }

  /**
   * The tyre's lap-time delta: warm-up plus degradation, both scaled by
   * the track multiplier and the team factor. An unknown compound is a
   * lookup failure in the source, hence the precondition.
   */
  function TyreDeltaSeconds(tyresCfg: map<string, TyreModel.TyreSpec>, compound: string, life: int,
                            trackDegMultiplier: real, teamDegFactor: real): (d: real)
    requires compound in tyresCfg
    ensures life == 0 && tyresCfg[compound].warmupLaps > 0 && tyresCfg[compound].peakLife >= 0 ==>
      d == tyresCfg[compound].warmupStartPenalty * trackDegMultiplier * teamDegFactor
    ensures trackDegMultiplier == 0.0 || teamDegFactor == 0.0 ==> d == 0.0
  {
    var spec := tyresCfg[compound];
    (WarmupTerm(spec, life) + DegradationTerm(spec, life)) * trackDegMultiplier * teamDegFactor
  }

  /** Between the warm-up window and the end of the peak the tyre costs nothing. */
  lemma NoDeltaInPeakWindow(tyresCfg: map<string, TyreModel.TyreSpec>, compound: string, life: int,
                            trackDegMultiplier: real, teamDegFactor: real)
    requires compound in tyresCfg
    requires tyresCfg[compound].warmupLaps <= life <= tyresCfg[compound].peakLife
    ensures TyreDeltaSeconds(tyresCfg, compound, life, trackDegMultiplier, teamDegFactor) == 0.0
  {
  }

  /**
   * For every non-negative life the delta is the one of the sector-level
   * tyre model (src/models/TyreModel.py), the same curve.
   */
  lemma AgreesWithSectorTyreModel(tyresCfg: map<string, TyreModel.TyreSpec>, compound: string, life: nat,
                                  trackDegMultiplier: real, teamDegFactor: real)
    requires compound in tyresCfg
    ensures TyreDeltaSeconds(tyresCfg, compound, life, trackDegMultiplier, teamDegFactor)
         == TyreModel.LapDelta(TyreModel.Model(tyresCfg), compound, life, trackDegMultiplier, teamDegFactor)
  {
    var spec := tyresCfg[compound];
    assert TyreModel.Life(life) == life;
    assert WarmupTerm(spec, life) == TyreModel.WarmupPenalty(spec, life);
    assert DegradationTerm(spec, life) == TyreModel.DegPenalty(spec, life);
  }

  /**
   * Unlike the sector-level model, a negative life is not read as 0: one
   * lap before a fresh tyre the warm-up term exceeds the start penalty.
   */
  lemma NegativeLifeIsNotClamped()
    ensures var cfg := map["C3" := TyreModel.TyreSpec(2, 1.0, 0, 0.0, 0.0)];
            && TyreDeltaSeconds(cfg, "C3", -1, 1.0, 1.0) == 1.5
            && TyreModel.LapDelta(TyreModel.Model(cfg), "C3", -1, 1.0, 1.0) == 1.0
  {
    var spec := TyreModel.TyreSpec(2, 1.0, 0, 0.0, 0.0);
    assert WarmupTerm(spec, -1) == 1.0 * (1.0 - (-1) as real / 2 as real);
    assert TyreModel.WarmupPenalty(spec, 0) == 1.0;
  }

  // ---------------------------------------------------------------
  // Grid
  // ---------------------------------------------------------------

  datatype TeamPerf = TeamPerf(paceOffset: real, degradationFactor: real, pitExecutionStd: real)

  const PitStdKey := "pit_execution_std"

  /** A team's figures; here the pit-execution spread is required. */
  function PerfOf(p: PerformanceEntry): (r: Result<TeamPerf>)
    ensures r.Ok? <==> p.pitExecutionStd.Some?
    ensures r.Err? ==> r.error == KeyError(PitStdKey)
    ensures r.Ok? ==> r.value == TeamPerf(p.paceOffset, p.degradationFactor, p.pitExecutionStd.value)
  {
    match p.pitExecutionStd
    case None => Err(KeyError(PitStdKey))
    case Some(std) => Ok(TeamPerf(p.paceOffset, p.degradationFactor, std))
  }

  /** No two teams of the season share a name (they are the keys of one document object). */
  ghost predicate NamesDistinct(ts: seq<TeamEntry>)
  {
    forall i, j :: 0 <= i < j < |ts| ==> ts[i].name != ts[j].name
  }

  function Names(ts: seq<TeamEntry>): (names: seq<string>)
    ensures |names| == |ts| && forall i :: 0 <= i < |ts| ==> names[i] == ts[i].name
  {
    seq(|ts|, i requires 0 <= i < |ts| => ts[i].name)
  }

  /** The team table: each team's figures by name, or the KeyError of a team without a pit spread. */
  function PerfTable(ts: seq<TeamEntry>): (r: Result<map<string, TeamPerf>>)
    ensures r.Ok? <==> forall t :: t in ts ==> t.performance.pitExecutionStd.Some?
    ensures r.Err? ==> r.error == KeyError(PitStdKey)
    ensures r.Ok? ==> r.value.Keys == set t | t in ts :: t.name
    ensures r.Ok? && NamesDistinct(ts) ==>
      forall i :: 0 <= i < |ts| ==> r.value[ts[i].name] == PerfOf(ts[i].performance).value
    decreases |ts|
  {
    if ts == [] then Ok(map[])
    else
      var init, last := ts[..|ts| - 1], ts[|ts| - 1];
      assert ts == init + [last];
      var front := PerfTable(init);
      if front.Err? then front
      else
        match PerfOf(last.performance)
        case Err(e) => Err(e)
        case Ok(perf) => Ok(front.value[last.name := perf])
  }

  /** The drivers listed for the team of that name. */
  function DriversOf(ts: seq<TeamEntry>, name: string): (ds: seq<DriverEntry>)
    ensures NamesDistinct(ts) ==> forall i :: 0 <= i < |ts| && ts[i].name == name ==> ds == ts[i].drivers
    decreases |ts|
  {
    if ts == [] then []
    else if ts[|ts| - 1].name == name then ts[|ts| - 1].drivers
    else DriversOf(ts[..|ts| - 1], name)
  }

  /** A driver of the grid and the team it drives for. */
  datatype Entrant = Entrant(code: string, team: string)

  function Entrants(team: string, ds: seq<DriverEntry>): (es: seq<Entrant>)
    ensures |es| == |ds| && forall k :: 0 <= k < |ds| ==> es[k] == Entrant(ds[k].name, team)
  {
    seq(|ds|, k requires 0 <= k < |ds| => Entrant(ds[k].name, team))
  }

  /** The grid for a team order: every listed driver of each team in turn, in list order. */
  function Lineup(order: seq<string>, ts: seq<TeamEntry>): (l: seq<Entrant>)
    ensures forall k :: 0 <= k < |l| ==> l[k].team in order
    decreases |order|
  {
    if order == [] then []
    else Lineup(order[..|order| - 1], ts) + Entrants(order[|order| - 1], DriversOf(ts, order[|order| - 1]))
  }

  /** Each team's drivers stay together: the lineup of two orders is one lineup after the other. */
  lemma {:induction false} LineupOfConcatenation(a: seq<string>, b: seq<string>, ts: seq<TeamEntry>)
    ensures Lineup(a + b, ts) == Lineup(a, ts) + Lineup(b, ts)
    decreases |b|
  {
    if b == [] {
      assert a + b == a;
    } else {
      var init, last := b[..|b| - 1], b[|b| - 1];
      var ab := a + b;
      assert ab[..|ab| - 1] == a + init;
      calc {
        Lineup(ab, ts);
        Lineup(a + init, ts) + Entrants(last, DriversOf(ts, last));
        { LineupOfConcatenation(a, init, ts); }
        Lineup(a, ts) + Lineup(init, ts) + Entrants(last, DriversOf(ts, last));
        Lineup(a, ts) + Lineup(b, ts);
      }
    }
  }

  /** A driver's state in the race loop. */
  datatype DriverView = DriverView(totalTime: real, tyreCompound: string, tyreLife: int, pitted: bool)

  class DriverState {
    const code: string
    const team: string
    var totalTime: real
    var tyreCompound: string
    var tyreLife: int
    var pitted: bool

    constructor (code: string, team: string)
      ensures this.code == code && this.team == team
      ensures totalTime == 0.0 && tyreCompound == "" && tyreLife == 0 && !pitted
    {
      this.code := code;
      this.team := team;
      totalTime := 0.0;
      tyreCompound := "";
      tyreLife := 0;
      pitted := false;
    }

    function View(): DriverView
      reads this
    {
      DriverView(totalTime, tyreCompound, tyreLife, pitted)
    }

    /**
     * One lap of the race loop for this driver: on the pit lap, if not yet
     * pitted, the pit time is added and the end compound fitted at life 0;
     * then the lap time is added and the tyre ages by one lap.
     */
    method RunLap(lap: int, circuit: LapSettings, tyresCfg: map<string, TyreModel.TyreSpec>,
                  perf: TeamPerf, endCompound: string, pitDraw: real, lapDraw: real)
      requires LapCompound(View(), lap, endCompound) in tyresCfg
      modifies this
      ensures View() == LapStep(old(View()), lap, circuit, tyresCfg, perf, endCompound, pitDraw, lapDraw)
    {
      if lap == PitLap && !pitted {
        var pitNoise := 0.0;
        if UsePitNoise && perf.pitExecutionStd > 0.0 {
          pitNoise := perf.pitExecutionStd * pitDraw;
        }
        var pitTime := circuit.pitLoss + pitNoise;
        totalTime := totalTime + pitTime;
        tyreCompound := endCompound;
        tyreLife := 0;
        pitted := true;
        assert totalTime == old(totalTime) + PitTime(circuit, perf, pitDraw);
      }
      ghost var afterPit := if PitsOn(old(View()), lap)
                            then DriverView(old(totalTime) + PitTime(circuit, perf, pitDraw), endCompound, 0, true)
                            else old(View());
      assert View() == afterPit;
      var tyrePen := TyreDeltaSeconds(tyresCfg, tyreCompound, tyreLife, circuit.trackDegMultiplier,
                                      perf.degradationFactor);
      var teamPace := perf.paceOffset;
      var startExtra := if lap == 1 then StartLapExtra else 0.0;
      var noise := 0.0;
      if UseLapNoise && circuit.lapTimeStd > 0.0 {
        noise := circuit.lapTimeStd * lapDraw;
      }
      var lapTime := circuit.baseLapTime + teamPace + tyrePen + startExtra + noise;
      assert lapTime == RawLapTime(lap, circuit, tyresCfg, perf, tyreCompound, tyreLife, lapDraw);
      if lapTime < 0.0 {
        lapTime := 0.0;
      }
      assert lapTime == LapTime(lap, circuit, tyresCfg, perf, tyreCompound, tyreLife, lapDraw);
      totalTime := totalTime + lapTime;
      tyreLife := tyreLife + 1;
    }
  }

  /** The season's drivers, in grid order, and the team table. */
  datatype Grid = Grid(drivers: seq<DriverState>, teamPerf: map<string, TeamPerf>)

  /** The drivers are new and match the lineup one to one, nothing run yet. */
  ghost predicate FreshLineup(drivers: seq<DriverState>, lineup: seq<Entrant>)
    reads drivers
  {
    && |drivers| == |lineup|
    && forall k :: 0 <= k < |drivers| ==>
         && drivers[k].code == lineup[k].code && drivers[k].team == lineup[k].team
         && drivers[k].View() == DriverView(0.0, "", 0, false)
  }

  /** The team order is sorted by pace offset, fastest (most negative) first. */
  ghost predicate PaceOrdered(order: seq<string>, teamPerf: map<string, TeamPerf>)
  {
    && (forall i :: 0 <= i < |order| ==> order[i] in teamPerf)
    && forall i, j :: 0 <= i < j < |order| ==> teamPerf[order[i]].paceOffset <= teamPerf[order[j]].paceOffset
  }

  /**
   * Builds the grid: the team table, then the teams sorted by pace
   * offset, then every listed driver of each team in that order. An
   * unknown season and a team without a pit spread are KeyErrors.
   */
  method BuildGrid(teamsCfg: TeamsDocument, season: string) returns (r: Result<Grid>, ghost order: seq<string>)
    requires season in teamsCfg ==> NamesDistinct(teamsCfg[season])
    ensures season !in teamsCfg ==> r == Err(KeyError(season))
    ensures season in teamsCfg ==> (r.Ok? <==> PerfTable(teamsCfg[season]).Ok?)
    ensures season in teamsCfg && r.Err? ==> r.error == KeyError(PitStdKey)
    ensures r.Ok? ==>
      && r.value.teamPerf == PerfTable(teamsCfg[season]).value
      && multiset(order) == multiset(Names(teamsCfg[season]))
      && PaceOrdered(order, r.value.teamPerf)
      && FreshLineup(r.value.drivers, Lineup(order, teamsCfg[season]))
      && Sorting.Distinct(r.value.drivers)
      && forall k :: 0 <= k < |r.value.drivers| ==> fresh(r.value.drivers[k])
  {
    order := [];
    if season !in teamsCfg {
      return Err(KeyError(season)), order;
    }
    var seasonTeams := teamsCfg[season];
    var table := StoreTeamPerf(seasonTeams);
    if table.Err? {
      return Err(table.error), order;
    }
    var teamPerf := table.value;
    var names := Names(seasonTeams);
    var key := map n | n in teamPerf :: teamPerf[n].paceOffset;
    assert forall k :: 0 <= k < |names| ==> names[k] in teamPerf by {
      forall k | 0 <= k < |names|
        ensures names[k] in teamPerf
      {
        assert seasonTeams[k] in seasonTeams;
      }
    }
    var sortedTeams := Sorting.SortByKey(names, key);
    order := sortedTeams;
    PaceOrderOfSorted(sortedTeams, names, teamPerf, key);
    var drivers := LineUp(sortedTeams, seasonTeams);
    return Ok(Grid(drivers, teamPerf)), order;
  }

  /** The team table, team by team in document order. */
  method StoreTeamPerf(seasonTeams: seq<TeamEntry>) returns (r: Result<map<string, TeamPerf>>)
    ensures r == PerfTable(seasonTeams)
  {
    var teamPerf: map<string, TeamPerf> := map[];
    var i := 0;
    while i < |seasonTeams|
      invariant 0 <= i <= |seasonTeams|
      invariant PerfTable(seasonTeams[..i]) == Ok(teamPerf)
    {
      var perf := PerfOf(seasonTeams[i].performance);
      if perf.Err? {
        assert seasonTeams[i] in seasonTeams;
        return Err(perf.error);
      }
      assert PerfTable(seasonTeams[..i + 1]) == Ok(teamPerf[seasonTeams[i].name := perf.value]) by {
        assert seasonTeams[..i + 1][..i] == seasonTeams[..i] && seasonTeams[..i + 1][i] == seasonTeams[i];
      }
      teamPerf := teamPerf[seasonTeams[i].name := perf.value];
      i := i + 1;
    }
    assert seasonTeams[..i] == seasonTeams;
    return Ok(teamPerf);
  }

  /** Sorting the names by the pace-offset key orders them by pace. */
  lemma PaceOrderOfSorted(sorted: seq<string>, names: seq<string>, teamPerf: map<string, TeamPerf>,
                          key: map<string, real>)
    requires key == map n | n in teamPerf :: teamPerf[n].paceOffset
    requires forall k :: 0 <= k < |names| ==> names[k] in teamPerf
    requires multiset(sorted) == multiset(names)
    requires Sorting.AllKeyed(sorted, key) && Sorting.SortedBy(sorted, key)
    ensures PaceOrdered(sorted, teamPerf)
  {
    forall i | 0 <= i < |sorted|
      ensures sorted[i] in teamPerf
    {
      assert sorted[i] in key;
    }
  }

  /** One new driver state per listed driver of each team in `order`. */
  method LineUp(order: seq<string>, seasonTeams: seq<TeamEntry>) returns (drivers: seq<DriverState>)
    ensures FreshLineup(drivers, Lineup(order, seasonTeams))
    ensures Sorting.Distinct(drivers) && forall k :: 0 <= k < |drivers| ==> fresh(drivers[k])
  {
    drivers := [];
    var j := 0;
    while j < |order|
      invariant 0 <= j <= |order|
      invariant FreshLineup(drivers, Lineup(order[..j], seasonTeams))
      invariant Sorting.Distinct(drivers) && forall k :: 0 <= k < |drivers| ==> fresh(drivers[k])
    {
      var teamName := order[j];
      var added := EnterTeam(teamName, DriversOf(seasonTeams, teamName));
      assert order[..j + 1][..j] == order[..j];
      FreshLineupOfConcatenation(drivers, added, Lineup(order[..j], seasonTeams),
                                 Entrants(teamName, DriversOf(seasonTeams, teamName)));
      Sorting.DistinctConcatenation(drivers, added);
      drivers := drivers + added;
      j := j + 1;
    }
    assert order[..j] == order;
  }

  /** One new driver state per listed driver of one team, in list order. */
  method EnterTeam(teamName: string, listed: seq<DriverEntry>) returns (added: seq<DriverState>)
    ensures FreshLineup(added, Entrants(teamName, listed))
    ensures Sorting.Distinct(added) && forall k :: 0 <= k < |added| ==> fresh(added[k])
  {
    added := [];
    var k := 0;
    while k < |listed|
      invariant 0 <= k <= |listed|
      invariant FreshLineup(added, Entrants(teamName, listed)[..k])
      invariant Sorting.Distinct(added) && forall m :: 0 <= m < |added| ==> fresh(added[m])
    {
      var d := new DriverState(listed[k].name, teamName);
      added := added + [d];
      k := k + 1;
    }
    assert Entrants(teamName, listed)[..k] == Entrants(teamName, listed);
  }

  lemma FreshLineupOfConcatenation(a: seq<DriverState>, b: seq<DriverState>, s: seq<Entrant>, t: seq<Entrant>)
    requires FreshLineup(a, s) && FreshLineup(b, t)
    ensures FreshLineup(a + b, s + t)
  {
  }

  // ---------------------------------------------------------------
  // Race
  // ---------------------------------------------------------------

  /** The circuit figures the race loop reads. */
  datatype LapSettings = LapSettings(
    totalLaps: int,
    baseLapTime: real,
    lapTimeStd: real,
    trackDegMultiplier: real,
    pitLoss: real)

  const LapTimeStdKey := "lap_time_std"

  /** The figures of a circuit record; the lap-time spread is required here, the track multiplier defaults to 1.0. */
  function Settings(c: CircuitEntry): (r: Result<LapSettings>)
    ensures r.Ok? <==> c.lapTimeStd.Some?
    ensures r.Err? ==> r.error == KeyError(LapTimeStdKey)
    ensures r.Ok? ==> r.value.trackDegMultiplier == GetOr(c.trackDegMultiplier, 1.0)
  {
    match c.lapTimeStd
    case None => Err(KeyError(LapTimeStdKey))
    case Some(std) =>
      Ok(LapSettings(c.totalLaps, c.baseLapTime, std, GetOr(c.trackDegMultiplier, 1.0), c.pitLoss))
  }

  /** The driver pits on this lap: it is the pit lap and the driver has not pitted yet. */
  predicate PitsOn(v: DriverView, lap: int)
  {
    lap == PitLap && !v.pitted
  }

  /** The compound the driver runs this lap on, after any pit stop. */
  function LapCompound(v: DriverView, lap: int, endCompound: string): string
  {
    if PitsOn(v, lap) then endCompound else v.tyreCompound
  }

  /** Pit time: the pit loss plus the team's execution noise, when that is on and the spread positive. */
  function PitTime(circuit: LapSettings, perf: TeamPerf, pitDraw: real): (t: real)
    ensures !UsePitNoise || perf.pitExecutionStd <= 0.0 || pitDraw == 0.0 ==> t == circuit.pitLoss
  {
    circuit.pitLoss + (if UsePitNoise && perf.pitExecutionStd > 0.0 then perf.pitExecutionStd * pitDraw else 0.0)
  }

  /** The lap time before the safety clamp: base, pace, tyre, start extra and noise. */
  function RawLapTime(lap: int, circuit: LapSettings, tyresCfg: map<string, TyreModel.TyreSpec>,
                      perf: TeamPerf, compound: string, life: int, lapDraw: real): (raw: real)
    requires compound in tyresCfg
    ensures circuit.lapTimeStd <= 0.0 || lapDraw == 0.0 ==>
      raw == circuit.baseLapTime + perf.paceOffset
             + TyreDeltaSeconds(tyresCfg, compound, life, circuit.trackDegMultiplier, perf.degradationFactor)
             + (if lap == 1 then StartLapExtra else 0.0)
  {
    circuit.baseLapTime + perf.paceOffset
    + TyreDeltaSeconds(tyresCfg, compound, life, circuit.trackDegMultiplier, perf.degradationFactor)
    + (if lap == 1 then StartLapExtra else 0.0)
    + (if UseLapNoise && circuit.lapTimeStd > 0.0 then circuit.lapTimeStd * lapDraw else 0.0)
  }

  /** The lap time, never negative: a negative raw time counts as 0. */
  function LapTime(lap: int, circuit: LapSettings, tyresCfg: map<string, TyreModel.TyreSpec>,
                   perf: TeamPerf, compound: string, life: int, lapDraw: real): (t: real)
    requires compound in tyresCfg
    ensures t >= 0.0
    ensures t >= RawLapTime(lap, circuit, tyresCfg, perf, compound, life, lapDraw)
    ensures RawLapTime(lap, circuit, tyresCfg, perf, compound, life, lapDraw) >= 0.0 ==>
      t == RawLapTime(lap, circuit, tyresCfg, perf, compound, life, lapDraw)
  {
    var raw := RawLapTime(lap, circuit, tyresCfg, perf, compound, life, lapDraw);
    if raw < 0.0 then 0.0 else raw
  }

  /**
   * One lap of one driver, as a value: the pit stop on the pit lap if
   * not yet pitted, then the lap.
   */
  function LapStep(v: DriverView, lap: int, circuit: LapSettings, tyresCfg: map<string, TyreModel.TyreSpec>,
                   perf: TeamPerf, endCompound: string, pitDraw: real, lapDraw: real): (r: DriverView)
    requires LapCompound(v, lap, endCompound) in tyresCfg
    ensures r.pitted == (v.pitted || lap == PitLap)
    ensures r.tyreCompound == LapCompound(v, lap, endCompound)
    ensures r.tyreLife == (if PitsOn(v, lap) then 1 else v.tyreLife + 1)
    ensures r.totalTime >= v.totalTime + (if PitsOn(v, lap) then PitTime(circuit, perf, pitDraw) else 0.0)
  {
    var p := if PitsOn(v, lap) then DriverView(v.totalTime + PitTime(circuit, perf, pitDraw), endCompound, 0, true)
             else v;
    var t := LapTime(lap, circuit, tyresCfg, perf, p.tyreCompound, p.tyreLife, lapDraw);
    p.(totalTime := p.totalTime + t, tyreLife := p.tyreLife + 1)
  }

  /** The state a driver starts the race in. */
  function Start(startCompound: string): DriverView
  {
    DriverView(0.0, startCompound, 0, false)
  }

  /**
   * A driver's state after `n` laps of the race, the driver being number
   * `k` of the grid (its draws are `pitDraw` and `lapDraw(lap, k)`): on
   * the start compound until lap 20, on the end compound from it, the
   * life counting laps since the start or the stop.
   */
  function RunLaps(startCompound: string, endCompound: string, n: nat, circuit: LapSettings,
                   tyresCfg: map<string, TyreModel.TyreSpec>, perf: TeamPerf,
                   pitDraw: real, lapDraw: (int, nat) -> real, k: nat): (v: DriverView)
    requires TyreError(tyresCfg, startCompound, endCompound, PitLap, n).None?
    ensures v.tyreCompound == TyreAfter(startCompound, endCompound, PitLap, n)
    ensures v.tyreLife == LifeAfter(PitLap, n)
    ensures v.pitted <==> n >= PitLap
    decreases n
  {
    if n == 0 then Start(startCompound)
    else
      var before := RunLaps(startCompound, endCompound, n - 1, circuit, tyresCfg, perf, pitDraw, lapDraw, k);
      assert LapCompound(before, n, endCompound) == TyreAfter(startCompound, endCompound, PitLap, n);
      LapStep(before, n, circuit, tyresCfg, perf, endCompound, pitDraw, lapDraw(n, k))
  }

  /** One more lap is one more `LapStep`, with that lap's draw. */
  lemma RunLapsOneMore(startCompound: string, endCompound: string, n: nat, circuit: LapSettings,
                       tyresCfg: map<string, TyreModel.TyreSpec>, perf: TeamPerf,
                       pitDraw: real, lapDraw: (int, nat) -> real, k: nat)
    requires TyreError(tyresCfg, startCompound, endCompound, PitLap, n + 1).None?
    ensures var before := RunLaps(startCompound, endCompound, n, circuit, tyresCfg, perf, pitDraw, lapDraw, k);
            && LapCompound(before, n + 1, endCompound) in tyresCfg
            && RunLaps(startCompound, endCompound, n + 1, circuit, tyresCfg, perf, pitDraw, lapDraw, k)
               == LapStep(before, n + 1, circuit, tyresCfg, perf, endCompound, pitDraw, lapDraw(n + 1, k))
  {
    var before := RunLaps(startCompound, endCompound, n, circuit, tyresCfg, perf, pitDraw, lapDraw, k);
    assert LapCompound(before, n + 1, endCompound) == TyreAfter(startCompound, endCompound, PitLap, n + 1);
  }

  /**
   * Total time only grows: between any two points of the race it rises by
   * at least the pit time when the stop falls between them, and by at
   * least 0 otherwise.
   */
  lemma {:induction false} TotalTimeNeverDecreases(startCompound: string, endCompound: string, m: nat, n: nat,
                                                   circuit: LapSettings, tyresCfg: map<string, TyreModel.TyreSpec>,
                                                   perf: TeamPerf, pitDraw: real, lapDraw: (int, nat) -> real, k: nat)
    requires m <= n
    requires TyreError(tyresCfg, startCompound, endCompound, PitLap, n).None?
    ensures RunLaps(startCompound, endCompound, n, circuit, tyresCfg, perf, pitDraw, lapDraw, k).totalTime
         >= RunLaps(startCompound, endCompound, m, circuit, tyresCfg, perf, pitDraw, lapDraw, k).totalTime
            + (if m < PitLap <= n then PitTime(circuit, perf, pitDraw) else 0.0)
    decreases n
  {
    if m < n {
      TotalTimeNeverDecreases(startCompound, endCompound, m, n - 1, circuit, tyresCfg, perf, pitDraw, lapDraw, k);
      var before := RunLaps(startCompound, endCompound, n - 1, circuit, tyresCfg, perf, pitDraw, lapDraw, k);
      assert PitsOn(before, n) <==> n == PitLap;
    }
  }

  /**
   * A driver pits at most once: once it has pitted, its compound no longer
   * changes and its life only counts laps.
   */
  lemma PitsAtMostOnce(startCompound: string, endCompound: string, m: nat, n: nat,
                       circuit: LapSettings, tyresCfg: map<string, TyreModel.TyreSpec>,
                       perf: TeamPerf, pitDraw: real, lapDraw: (int, nat) -> real, k: nat)
    requires m <= n
    requires TyreError(tyresCfg, startCompound, endCompound, PitLap, n).None?
    requires RunLaps(startCompound, endCompound, m, circuit, tyresCfg, perf, pitDraw, lapDraw, k).pitted
    ensures var vm := RunLaps(startCompound, endCompound, m, circuit, tyresCfg, perf, pitDraw, lapDraw, k);
            var vn := RunLaps(startCompound, endCompound, n, circuit, tyresCfg, perf, pitDraw, lapDraw, k);
            vn.pitted && vn.tyreCompound == vm.tyreCompound && vn.tyreLife == vm.tyreLife + (n - m)
  {
  }

  /** Every driver starts the race on `startCompound`, at life 0, time 0, not pitted. */
  method StartAll(drivers: seq<DriverState>, startCompound: string)
    requires Sorting.Distinct(drivers)
    modifies drivers
    ensures forall k :: 0 <= k < |drivers| ==> drivers[k].View() == Start(startCompound)
  {
    var k := 0;
    while k < |drivers|
      invariant 0 <= k <= |drivers|
      invariant forall m :: 0 <= m < k ==> drivers[m].View() == Start(startCompound)
    {
      drivers[k].tyreCompound := startCompound;
      drivers[k].tyreLife := 0;
      drivers[k].totalTime := 0.0;
      drivers[k].pitted := false;
      k := k + 1;
    }
  }

  /** Every driver, in grid order, runs lap `lap`. */
  method RunLapAll(drivers: seq<DriverState>, lap: int, circuit: LapSettings,
                   tyresCfg: map<string, TyreModel.TyreSpec>, teamPerf: map<string, TeamPerf>,
                   endCompound: string, pitDraw: nat -> real, lapDraw: (int, nat) -> real)
    requires Sorting.Distinct(drivers)
    requires forall k :: 0 <= k < |drivers| ==>
      drivers[k].team in teamPerf && LapCompound(drivers[k].View(), lap, endCompound) in tyresCfg
    modifies drivers
    ensures forall k :: 0 <= k < |drivers| ==>
      drivers[k].View() == LapStep(old(drivers[k].View()), lap, circuit, tyresCfg, teamPerf[drivers[k].team],
                                   endCompound, pitDraw(k), lapDraw(lap, k))
  {
    var k := 0;
    while k < |drivers|
      invariant 0 <= k <= |drivers|
      invariant forall m :: 0 <= m < k ==>
        drivers[m].View() == LapStep(old(drivers[m].View()), lap, circuit, tyresCfg, teamPerf[drivers[m].team],
                                     endCompound, pitDraw(m), lapDraw(lap, m))
      invariant forall m :: k <= m < |drivers| ==> drivers[m].View() == old(drivers[m].View())
    {
      drivers[k].RunLap(lap, circuit, tyresCfg, teamPerf[drivers[k].team], endCompound, pitDraw(k), lapDraw(lap, k));
      k := k + 1;
    }
  }

  /**
   * The race loop: every driver starts on the start compound, then runs
   * laps 1 to the race length. A lap on a compound missing from the tyre
   * table fails with its KeyError, as soon as there is a driver to look
   * it up. Otherwise each driver ends in the state `RunLaps` gives it.
   */
  method RunRace(drivers: seq<DriverState>, teamPerf: map<string, TeamPerf>,
                 tyresCfg: map<string, TyreModel.TyreSpec>, circuit: LapSettings,
                 startCompound: string, endCompound: string,
                 pitDraw: nat -> real, lapDraw: (int, nat) -> real) returns (err: Option<Error>)
    requires Sorting.Distinct(drivers)
    requires forall k :: 0 <= k < |drivers| ==> drivers[k].team in teamPerf
    modifies drivers
    ensures err == (if |drivers| == 0 then None
                    else TyreError(tyresCfg, startCompound, endCompound, PitLap, circuit.totalLaps))
    ensures err.None? ==> forall k :: 0 <= k < |drivers| ==>
      drivers[k].View() == RunLaps(startCompound, endCompound, TyreModel.MaxInt(0, circuit.totalLaps), circuit,
                                   tyresCfg, teamPerf[drivers[k].team], pitDraw(k), lapDraw, k)
  {
    StartAll(drivers, startCompound);
    err := RaceLoop(drivers, teamPerf, tyresCfg, circuit, startCompound, endCompound, pitDraw, lapDraw);
  }

  /** Laps 1 to the race length, from the start of the race. */
  method RaceLoop(drivers: seq<DriverState>, teamPerf: map<string, TeamPerf>,
                  tyresCfg: map<string, TyreModel.TyreSpec>, circuit: LapSettings,
                  startCompound: string, endCompound: string,
                  pitDraw: nat -> real, lapDraw: (int, nat) -> real) returns (err: Option<Error>)
    requires Sorting.Distinct(drivers)
    requires forall k :: 0 <= k < |drivers| ==> drivers[k].team in teamPerf
    requires forall k :: 0 <= k < |drivers| ==> drivers[k].View() == Start(startCompound)
    modifies drivers
    ensures err == (if |drivers| == 0 then None
                    else TyreError(tyresCfg, startCompound, endCompound, PitLap, circuit.totalLaps))
    ensures err.None? ==> forall k :: 0 <= k < |drivers| ==>
      drivers[k].View() == RunLaps(startCompound, endCompound, TyreModel.MaxInt(0, circuit.totalLaps), circuit,
                                   tyresCfg, teamPerf[drivers[k].team], pitDraw(k), lapDraw, k)
  {
    var lap := 1;
    while lap <= circuit.totalLaps
      invariant 1 <= lap <= TyreModel.MaxInt(1, circuit.totalLaps + 1)
      invariant |drivers| > 0 ==> TyreError(tyresCfg, startCompound, endCompound, PitLap, lap - 1).None?
      invariant forall k :: 0 <= k < |drivers| ==>
        drivers[k].View() == RunLaps(startCompound, endCompound, lap - 1, circuit, tyresCfg,
                                     teamPerf[drivers[k].team], pitDraw(k), lapDraw, k)
    {
      var compound := TyreAfter(startCompound, endCompound, PitLap, lap);
      if |drivers| > 0 && compound !in tyresCfg {
        TyreErrorAtFirstMissingLap(tyresCfg, startCompound, endCompound, PitLap, circuit.totalLaps, lap);
        return Some(KeyError(compound));
      }
      RaceLap(drivers, teamPerf, tyresCfg, circuit, startCompound, endCompound, pitDraw, lapDraw, lap);
      lap := lap + 1;
    }
    return None;
  }

  /** Lap `lap` of the race loop takes every driver from its state after the previous lap to the next. */
  method RaceLap(drivers: seq<DriverState>, teamPerf: map<string, TeamPerf>,
                 tyresCfg: map<string, TyreModel.TyreSpec>, circuit: LapSettings,
                 startCompound: string, endCompound: string,
                 pitDraw: nat -> real, lapDraw: (int, nat) -> real, lap: nat)
    requires Sorting.Distinct(drivers) && 1 <= lap
    requires forall k :: 0 <= k < |drivers| ==> drivers[k].team in teamPerf
    requires |drivers| > 0 ==> TyreError(tyresCfg, startCompound, endCompound, PitLap, lap).None?
    requires forall k :: 0 <= k < |drivers| ==>
      drivers[k].View() == RunLaps(startCompound, endCompound, lap - 1, circuit, tyresCfg,
                                   teamPerf[drivers[k].team], pitDraw(k), lapDraw, k)
    modifies drivers
    ensures forall k :: 0 <= k < |drivers| ==>
      drivers[k].View() == RunLaps(startCompound, endCompound, lap, circuit, tyresCfg,
                                   teamPerf[drivers[k].team], pitDraw(k), lapDraw, k)
  {
    forall k | 0 <= k < |drivers|
      ensures LapCompound(drivers[k].View(), lap, endCompound) in tyresCfg
    {
      RunLapsOneMore(startCompound, endCompound, lap - 1, circuit, tyresCfg, teamPerf[drivers[k].team],
                     pitDraw(k), lapDraw, k);
    }
    RunLapAll(drivers, lap, circuit, tyresCfg, teamPerf, endCompound, pitDraw, lapDraw);
    forall k | 0 <= k < |drivers|
      ensures drivers[k].View() == RunLaps(startCompound, endCompound, lap, circuit, tyresCfg,
                                           teamPerf[drivers[k].team], pitDraw(k), lapDraw, k)
    {
      RunLapsOneMore(startCompound, endCompound, lap - 1, circuit, tyresCfg, teamPerf[drivers[k].team],
                     pitDraw(k), lapDraw, k);
    }
  }

  /** The drivers are in non-decreasing order of total time. */
  ghost predicate SortedByTime(drivers: seq<DriverState>)
    reads drivers
  {
    forall i, j :: 0 <= i < j < |drivers| ==> drivers[i].totalTime <= drivers[j].totalTime
  }

  /** The classification: the same drivers, by non-decreasing total time. */
  method Classify(drivers: seq<DriverState>) returns (classified: seq<DriverState>)
    ensures multiset(classified) == multiset(drivers) && |classified| == |drivers|
    ensures SortedByTime(classified)
  {
    var key := map d | d in drivers :: d.totalTime;
    classified := Sorting.SortByKey(drivers, key);
    forall i, j | 0 <= i < j < |classified|
      ensures classified[i].totalTime <= classified[j].totalTime
    {
      assert classified[i] in multiset(drivers) && classified[j] in multiset(drivers);
    }
  }

  // ---------------------------------------------------------------
  // Whole simulation
  // ---------------------------------------------------------------

  /** Some team of the season lists a driver. */
  ghost predicate HasDrivers(ts: seq<TeamEntry>)
  {
    exists i :: 0 <= i < |ts| && |ts[i].drivers| > 0
  }

  /** A lineup is empty exactly when none of its teams lists a driver. */
  lemma {:induction false} EmptyLineup(order: seq<string>, ts: seq<TeamEntry>)
    ensures |Lineup(order, ts)| == 0 <==> forall j :: 0 <= j < |order| ==> |DriversOf(ts, order[j])| == 0
    decreases |order|
  {
    if order != [] {
      EmptyLineup(order[..|order| - 1], ts);
    }
  }

  /** The grid of a re-ordering of all the season's teams has a driver exactly when some team lists one. */
  lemma LineupHasDrivers(order: seq<string>, ts: seq<TeamEntry>)
    requires NamesDistinct(ts) && multiset(order) == multiset(Names(ts))
    ensures |Lineup(order, ts)| > 0 <==> HasDrivers(ts)
  {
    EmptyLineup(order, ts);
    if HasDrivers(ts) {
      var i :| 0 <= i < |ts| && |ts[i].drivers| > 0;
      assert Names(ts)[i] in multiset(order);
      var j :| 0 <= j < |order| && order[j] == ts[i].name;
      assert |DriversOf(ts, order[j])| > 0;
    }
    if |Lineup(order, ts)| > 0 {
      var j :| 0 <= j < |order| && |DriversOf(ts, order[j])| > 0;
      assert order[j] in multiset(Names(ts));
      var i :| 0 <= i < |ts| && Names(ts)[i] == order[j];
    }
  }

  /**
   * The error the simulation raises, if any, in the order it meets them:
   * the circuit, its lap-time spread, the start and end labels, the
   * season, a team's pit spread, then a compound missing from the tyre
   * table once there is a driver to look it up.
   */
  ghost function SimulateError(circuitsCfg: map<string, CircuitEntry>, teamsCfg: TeamsDocument,
                               tyresCfg: map<string, TyreModel.TyreSpec>, compoundsCfg: CompoundTable): (e: Option<Error>)
    ensures CircuitName !in circuitsCfg ==> e == Some(KeyError(CircuitName))
    ensures e.None? ==> CircuitName in circuitsCfg && Season in teamsCfg
  {
    if CircuitName !in circuitsCfg then Some(KeyError(CircuitName))
    else
      var settings := Settings(circuitsCfg[CircuitName]);
      var start := CompoundLookup(compoundsCfg, Season, CircuitName, StartTyreLabel);
      var end := CompoundLookup(compoundsCfg, Season, CircuitName, EndTyreLabel);
      if settings.Err? then Some(settings.error)
      else if start.Err? then Some(start.error)
      else if end.Err? then Some(end.error)
      else if Season !in teamsCfg then Some(KeyError(Season))
      else if PerfTable(teamsCfg[Season]).Err? then Some(PerfTable(teamsCfg[Season]).error)
      else if !HasDrivers(teamsCfg[Season]) then None
      else TyreError(tyresCfg, start.value, end.value, PitLap, settings.value.totalLaps)
  }

  /**
   * The whole simulation, without its printing: look up the circuit,
   * resolve the start and end compounds, build the grid, run the race
   * and classify. On success the classification holds the grid's
   * drivers, fastest first, each in the state `RunLaps` gives it.
   */
  method Simulate(circuitsCfg: map<string, CircuitEntry>, teamsCfg: TeamsDocument,
                  tyresCfg: map<string, TyreModel.TyreSpec>, compoundsCfg: CompoundTable,
                  pitDraw: nat -> real, lapDraw: (int, nat) -> real)
    returns (r: Result<seq<DriverState>>, ghost grid: seq<DriverState>, ghost order: seq<string>)
    requires Season in teamsCfg ==> NamesDistinct(teamsCfg[Season])
    ensures var e := SimulateError(circuitsCfg, teamsCfg, tyresCfg, compoundsCfg);
            (r.Err? <==> e.Some?) && (r.Err? ==> r.error == e.value)
    ensures r.Ok? ==>
      && multiset(r.value) == multiset(grid) && |r.value| == |grid|
      && Sorting.Distinct(r.value) && SortedByTime(r.value)
      && forall k :: 0 <= k < |grid| ==> fresh(grid[k])
    ensures r.Ok? ==>
      && CircuitName in circuitsCfg && Season in teamsCfg
      && PerfTable(teamsCfg[Season]).Ok? && PaceOrdered(order, PerfTable(teamsCfg[Season]).value)
      && multiset(order) == multiset(Names(teamsCfg[Season]))
      && |grid| == |Lineup(order, teamsCfg[Season])|
      && forall k :: 0 <= k < |grid| ==>
           grid[k].code == Lineup(order, teamsCfg[Season])[k].code
           && grid[k].team == Lineup(order, teamsCfg[Season])[k].team
    ensures r.Ok? ==>
      && Settings(circuitsCfg[CircuitName]).Ok?
      && CompoundLookup(compoundsCfg, Season, CircuitName, StartTyreLabel).Ok?
      && CompoundLookup(compoundsCfg, Season, CircuitName, EndTyreLabel).Ok?
      && forall k :: 0 <= k < |grid| ==>
           && grid[k].team in PerfTable(teamsCfg[Season]).value
           && TyreError(tyresCfg, CompoundLookup(compoundsCfg, Season, CircuitName, StartTyreLabel).value,
                        CompoundLookup(compoundsCfg, Season, CircuitName, EndTyreLabel).value, PitLap,
                        Settings(circuitsCfg[CircuitName]).value.totalLaps).None?
           && grid[k].View()
              == RunLaps(CompoundLookup(compoundsCfg, Season, CircuitName, StartTyreLabel).value,
                         CompoundLookup(compoundsCfg, Season, CircuitName, EndTyreLabel).value,
                         TyreModel.MaxInt(0, Settings(circuitsCfg[CircuitName]).value.totalLaps),
                         Settings(circuitsCfg[CircuitName]).value, tyresCfg,
                         PerfTable(teamsCfg[Season]).value[grid[k].team], pitDraw(k), lapDraw, k)
  {
    grid, order := [], [];
    if CircuitName !in circuitsCfg {
      return Err(KeyError(CircuitName)), grid, order;
    }
    var settings := Settings(circuitsCfg[CircuitName]);
    if settings.Err? {
      return Err(settings.error), grid, order;
    }
    var circuit := settings.value;
    var startCompound := CompoundLookup(compoundsCfg, Season, CircuitName, StartTyreLabel);
    if startCompound.Err? {
      return Err(startCompound.error), grid, order;
    }
    var endCompound := CompoundLookup(compoundsCfg, Season, CircuitName, EndTyreLabel);
    if endCompound.Err? {
      return Err(endCompound.error), grid, order;
    }
    var built;
    built, order := BuildGrid(teamsCfg, Season);
    if built.Err? {
      return Err(built.error), grid, order;
    }
    var drivers := built.value.drivers;
    grid := drivers;
    var ts := teamsCfg[Season];
    forall k | 0 <= k < |drivers|
      ensures drivers[k].team in built.value.teamPerf
    {
      LineupTeamsAreKnown(order, ts, k);
    }
    LineupHasDrivers(order, ts);
    var err := RunRace(drivers, built.value.teamPerf, tyresCfg, circuit, startCompound.value, endCompound.value,
                       pitDraw, lapDraw);
    if err.Some? {
      return Err(err.value), grid, order;
    }
    var classified := Classify(drivers);
    Sorting.PermutationKeepsDistinct(classified, drivers);
    return Ok(classified), grid, order;
  }

  /** Every driver of a lineup drives for a team of the order. */
  lemma {:induction false} LineupTeamsAreKnown(order: seq<string>, ts: seq<TeamEntry>, k: nat)
    requires k < |Lineup(order, ts)|
    ensures Lineup(order, ts)[k].team in order
    decreases |order|
  {
    var init, last := order[..|order| - 1], order[|order| - 1];
    if k < |Lineup(init, ts)| {
      LineupTeamsAreKnown(init, ts, k);
    }
  }
}
