/**
 * The minimal lap-level car agent (src/agents/Car_Agent.py): a car with a
 * tyre, a tyre life and a total time. Each lap adds the base lap time,
 * the team's pace offset, a start-lap penalty on lap 1, an unscaled
 * warm-up penalty, degradation scaled by track and team, and optional
 * noise; the lap time goes into the total and the tyre ages by one lap.
 */
module MvpCarAgent {
  import opened Wrappers
  import opened Configs
  import TyreModel
  import SimTyreModel

  datatype DriverInfo = DriverInfo(code: string, number: int)

  /**
   * The team figures the car reads from its team agent. The team agent
   * module is not part of this model; only these three figures are used.
   */
  datatype TeamPerformance = TeamPerformance(
    paceOffset: real,
    degradationFactor: real,
    pitExecutionStd: real)

  /** A compound's tyre record, any key of which may be absent. */
  datatype TyreEntry = TyreEntry(
    warmupLaps: Option<int>,
    warmupStartPenalty: Option<real>,
    peakLife: Option<int>,
    degLinear: Option<real>,
    degQuadratic: Option<real>)

  function LapTimeStd(circuit: CircuitEntry): real { GetOr(circuit.lapTimeStd, 0.0) }
  function TrackDegMultiplier(circuit: CircuitEntry): real { GetOr(circuit.trackDegMultiplier, 1.0) }

  /** The tyre record with every absent key read as 0. */
  function Resolve(t: TyreEntry): (spec: TyreModel.TyreSpec)
    ensures t.warmupLaps.None? ==> spec.warmupLaps == 0
    ensures t.warmupStartPenalty.None? ==> spec.warmupStartPenalty == 0.0
    ensures t.peakLife.None? ==> spec.peakLife == 0
    ensures t.degLinear.None? ==> spec.degLinear == 0.0
    ensures t.degQuadratic.None? ==> spec.degQuadratic == 0.0
  {
    TyreModel.TyreSpec(GetOr(t.warmupLaps, 0), GetOr(t.warmupStartPenalty, 0.0), GetOr(t.peakLife, 0),
             GetOr(t.degLinear, 0.0), GetOr(t.degQuadratic, 0.0))
  }

  /**
   * Warm-up penalty: full at life 0, exactly 0 at warmupLaps - 1 and never
   * negative when the window is longer than one lap (a negative value is
   * clamped to 0), 0 outside the window.
   */
  function WarmupPenalty(spec: TyreModel.TyreSpec, life: nat): (w: real)
    ensures spec.warmupLaps <= 0 || life >= spec.warmupLaps ==> w == 0.0
    ensures spec.warmupLaps >= 1 && life == 0 ==> w == (if spec.warmupLaps == 1 then spec.warmupStartPenalty
                                                        else TyreModel.MaxReal(0.0, spec.warmupStartPenalty))
    ensures spec.warmupLaps > 1 && life == spec.warmupLaps - 1 ==> w == 0.0
    ensures spec.warmupLaps > 1 ==> w >= 0.0
    ensures spec.warmupStartPenalty >= 0.0 ==> 0.0 <= w <= spec.warmupStartPenalty
  {
    if spec.warmupLaps > 0 && life < spec.warmupLaps then
      if spec.warmupLaps == 1 then spec.warmupStartPenalty
      else
        var frac := life as real / (spec.warmupLaps - 1) as real;
        FractionAtMostOne(life as real, (spec.warmupLaps - 1) as real);
        var pen := spec.warmupStartPenalty * (1.0 - frac);
        assert spec.warmupStartPenalty >= 0.0 ==>
          spec.warmupStartPenalty * (1.0 - frac) <= spec.warmupStartPenalty * 1.0;
        if pen < 0.0 then 0.0 else pen
    else 0.0
  }

  /** Inside a window longer than one lap the penalty decays with the share `frac` of the window run. */
  lemma DecayingWarmup(spec: TyreModel.TyreSpec, life: nat, frac: real)
    requires 1 < spec.warmupLaps && life < spec.warmupLaps
    requires frac == life as real / (spec.warmupLaps - 1) as real
    ensures var pen := spec.warmupStartPenalty * (1.0 - frac);
            WarmupPenalty(spec, life) == if pen < 0.0 then 0.0 else pen
  {
  }

  lemma FractionAtMostOne(a: real, b: real)
    requires 0.0 <= a <= b && b > 0.0
    ensures 0.0 <= a / b <= 1.0
  {
    assert a / b * b == a;
  }

  /** The degradation penalty after the track and team scaling. */
  function ScaledDegradation(spec: TyreModel.TyreSpec, life: nat, circuit: CircuitEntry, team: TeamPerformance): (d: real)
    ensures life <= spec.peakLife ==> d == 0.0
    ensures (spec.degLinear >= 0.0 && spec.degQuadratic >= 0.0
             && TrackDegMultiplier(circuit) >= 0.0 && team.degradationFactor >= 0.0) ==> d >= 0.0
  {
    var deg := TyreModel.DegPenalty(spec, life);
    NonNegativeProduct(deg, TrackDegMultiplier(circuit), team.degradationFactor);
    deg * TrackDegMultiplier(circuit) * team.degradationFactor
  }

  lemma NonNegativeProduct(x: real, y: real, z: real)
    ensures x >= 0.0 && y >= 0.0 && z >= 0.0 ==> x * y * z >= 0.0
  {
    if x >= 0.0 && y >= 0.0 && z >= 0.0 {
      assert x * y >= 0.0;
    }
  }

  /** The lap-1 standing-start penalty, when it is switched on. */
  function StartPenalty(lapIndex: int, includeStartPenalty: bool, startLapPenalty: real): (p: real)
    ensures p != 0.0 ==> includeStartPenalty && lapIndex == 1
    ensures includeStartPenalty && lapIndex == 1 ==> p == startLapPenalty
  {
    if includeStartPenalty && lapIndex == 1 then startLapPenalty else 0.0
  }

  /** Lap noise for a standard-normal draw: only with noise on and a positive spread. */
  function LapNoise(circuit: CircuitEntry, enableNoise: bool, gaussDraw: real): (n: real)
    ensures !enableNoise || LapTimeStd(circuit) <= 0.0 ==> n == 0.0
  {
    if enableNoise && LapTimeStd(circuit) > 0.0 then LapTimeStd(circuit) * gaussDraw else 0.0
  }

  /** The lap time of a car on tyre `tyre` of life `life`. */
  function LapTime(lapIndex: int, circuit: CircuitEntry, tyre: TyreEntry, team: TeamPerformance,
                   life: nat, includeStartPenalty: bool, startLapPenalty: real,
                   enableNoise: bool, gaussDraw: real): (t: real)
    ensures var spec := Resolve(tyre);
            spec.warmupStartPenalty >= 0.0 && spec.degLinear >= 0.0 && spec.degQuadratic >= 0.0
            && TrackDegMultiplier(circuit) >= 0.0 && team.degradationFactor >= 0.0 ==>
            t >= circuit.baseLapTime + team.paceOffset + StartPenalty(lapIndex, includeStartPenalty, startLapPenalty)
                 + LapNoise(circuit, enableNoise, gaussDraw)
  {
    var spec := Resolve(tyre);
    circuit.baseLapTime + team.paceOffset
    + StartPenalty(lapIndex, includeStartPenalty, startLapPenalty)
    + WarmupPenalty(spec, life)
    + ScaledDegradation(spec, life, circuit, team)
    + LapNoise(circuit, enableNoise, gaussDraw)
  }

  /**
   * With noise off, a tyre record with no keys costs nothing: the lap is
   * the base time plus the pace offset plus the start penalty.
   */
  lemma MissingTyreKeysCostNothing(lapIndex: int, circuit: CircuitEntry, team: TeamPerformance,
                                   life: nat, includeStartPenalty: bool, startLapPenalty: real,
                                   gaussDraw: real)
    ensures LapTime(lapIndex, circuit, TyreEntry(None, None, None, None, None), team, life,
                    includeStartPenalty, startLapPenalty, false, gaussDraw)
         == circuit.baseLapTime + team.paceOffset
            + (if includeStartPenalty && lapIndex == 1 then startLapPenalty else 0.0)
  {
  }

  /**
   * Only degradation is scaled: inside the peak window the track
   * multiplier and the team's degradation factor do not affect the lap.
   */
  lemma WarmupIsUnscaled(lapIndex: int, circuit: CircuitEntry, tyre: TyreEntry,
                         team1: TeamPerformance, team2: TeamPerformance, track: real,
                         life: nat, includeStartPenalty: bool, startLapPenalty: real,
                         enableNoise: bool, gaussDraw: real)
    requires life <= Resolve(tyre).peakLife && team1.paceOffset == team2.paceOffset
    ensures LapTime(lapIndex, circuit, tyre, team1, life, includeStartPenalty, startLapPenalty,
                    enableNoise, gaussDraw)
         == LapTime(lapIndex, circuit.(trackDegMultiplier := Some(track)), tyre, team2, life,
                    includeStartPenalty, startLapPenalty, enableNoise, gaussDraw)
  {
  }

  /**
   * The lap-1 penalty is the only difference between a lap with and
   * without the start penalty switched on, and it applies on lap 1 only.
   */
  lemma StartPenaltyOnlyOnLapOne(lapIndex: int, circuit: CircuitEntry, tyre: TyreEntry,
                                 team: TeamPerformance, life: nat, startLapPenalty: real,
                                 enableNoise: bool, gaussDraw: real)
    ensures LapTime(lapIndex, circuit, tyre, team, life, true, startLapPenalty, enableNoise, gaussDraw)
         == LapTime(lapIndex, circuit, tyre, team, life, false, startLapPenalty, enableNoise, gaussDraw)
            + (if lapIndex == 1 then startLapPenalty else 0.0)
  {
  }

  /**
   * For a non-negative start penalty the warm-up term agrees with the
   * lap-level tyre model's; the two differ only in how a negative
   * penalty is clamped.
   */
  lemma WarmupAgreesWithSimTyreModel(spec: TyreModel.TyreSpec, life: nat)
    requires spec.warmupStartPenalty >= 0.0
    ensures WarmupPenalty(spec, life) == SimTyreModel.WarmupPenalty(spec, life)
  {
  }

  class MvpCarAgent {
    const driver: DriverInfo
    const teamName: string
    const team: TeamPerformance
    var tyre: string
    var tyreLife: nat
    var totalTime: real

    constructor (driver: DriverInfo, teamName: string, team: TeamPerformance, startTyre: string)
      ensures this.driver == driver && this.teamName == teamName && this.team == team
      ensures tyre == startTyre && tyreLife == 0 && totalTime == 0.0
    {
      this.driver := driver;
      this.teamName := teamName;
      this.team := team;
      tyre := startTyre;
      tyreLife := 0;
      totalTime := 0.0;
    }

    /** Fits a new set: the compound changes and the life restarts at 0. */
    method SetTyre(tyre: string)
      modifies this`tyre, this`tyreLife
      ensures this.tyre == tyre && tyreLife == 0
    {
      this.tyre := tyre;
      tyreLife := 0;
    }

    /**
     * Runs one lap, `gaussDraw` being the standard-normal draw of the lap
     * noise; an unknown tyre is a lookup failure. The returned lap time is
     * added to the total and the tyre is one lap older.
     */
    method StepLap(lapIndex: int, circuit: CircuitEntry, tyreParams: map<string, TyreEntry>,
                   gaussDraw: real, includeStartPenalty: bool, startLapPenalty: real,
                   enableNoise: bool) returns (lapTime: real)
      requires tyre in tyreParams
      modifies this`totalTime, this`tyreLife
      ensures lapTime == LapTime(lapIndex, circuit, tyreParams[tyre], team, old(tyreLife),
                                 includeStartPenalty, startLapPenalty, enableNoise, gaussDraw)
      ensures totalTime == old(totalTime) + lapTime
      ensures tyreLife == old(tyreLife) + 1
    {
      var baseLapTime := circuit.baseLapTime;
      var lapTimeStd := LapTimeStd(circuit);
      var trackDegMultiplier := TrackDegMultiplier(circuit);
      lapTime := baseLapTime + team.paceOffset;
      if includeStartPenalty && lapIndex == 1 {
        lapTime := lapTime + startLapPenalty;
      }
      assert lapTime == baseLapTime + team.paceOffset + StartPenalty(lapIndex, includeStartPenalty, startLapPenalty);
      var spec := Resolve(tyreParams[tyre]);
      var warmupPen := WarmupOf(spec, tyreLife);
      lapTime := lapTime + warmupPen;
      var degPen := TyreModel.DegPenalty(spec, tyreLife);
      degPen := degPen * trackDegMultiplier;
      degPen := degPen * team.degradationFactor;
      assert degPen == ScaledDegradation(spec, tyreLife, circuit, team);
      lapTime := lapTime + degPen;
      if enableNoise && lapTimeStd > 0.0 {
        lapTime := lapTime + lapTimeStd * gaussDraw;
      }
      totalTime := totalTime + lapTime;
      tyreLife := tyreLife + 1;
    }

    /** The warm-up step of a lap, as the lap computes it from the tyre's current life. */
    static method WarmupOf(spec: TyreModel.TyreSpec, life: nat) returns (warmupPen: real)
      ensures warmupPen == WarmupPenalty(spec, life)
    {
      warmupPen := 0.0;
      if spec.warmupLaps > 0 && life < spec.warmupLaps {
        if spec.warmupLaps == 1 {
          warmupPen := spec.warmupStartPenalty;
        } else {
          var frac := life as real / (spec.warmupLaps - 1) as real;
          warmupPen := spec.warmupStartPenalty * (1.0 - frac);
          if warmupPen < 0.0 {
            warmupPen := 0.0;
          }
          DecayingWarmup(spec, life, frac);
        }
      }
    }
  }
}
