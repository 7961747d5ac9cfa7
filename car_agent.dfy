/**
 * The sector-level car agent (src/agents/CarAgent.py). A car advances one
 * sector at a time: a retired car does nothing, a reliability failure
 * retires it, otherwise the sector time (a third of the base pace, team
 * offset and tyre delta, plus noise) is added to its total, and the tyre
 * ages by one lap after every third sector. Pit requests and team
 * instructions are flags the race manager reads later.
 */
module CarAgent {
  import opened Wrappers
  import opened TyreModel

  /**
   * Per-car calibration. `lapTimeStd` stands for the optional attribute
   * the sector step probes for; the calibration record itself has no such
   * field, so every car built by the race manager carries None.
   */
  datatype CarCalibration = CarCalibration(
    muTeam: real,
    kTeam: real,
    reliabilityProb: real,
    lapTimeStd: Option<real>)

  /** The part of a car's state that a sector step reads and writes. */
  datatype SectorState = SectorState(
    totalTime: real,
    retired: bool,
    sectorCounter: int,
    compound: string,
    ageLaps: int)

  datatype SectorOutcome = SectorOutcome(state: SectorState, sectorTime: real)

  /**
   * The reliability check for a uniform draw in [0, 1): it never fails
   * when the failure probability is not positive, and otherwise fails
   * exactly when the draw falls below the probability.
   */
  function ReliabilityFailure(reliabilityProb: real, draw: real): (failed: bool)
    ensures failed <==> reliabilityProb > 0.0 && draw < reliabilityProb
    ensures reliabilityProb <= 0.0 ==> !failed
    ensures 0.0 <= draw < 1.0 <= reliabilityProb ==> failed
  {
    if reliabilityProb <= 0.0 then false else draw < reliabilityProb
  }

  /** Sector noise for a standard-normal draw: zero without a lap-time spread. */
  function SectorNoise(cal: CarCalibration, gaussDraw: real): (noise: real)
    ensures cal.lapTimeStd.None? ==> noise == 0.0
    ensures gaussDraw == 0.0 ==> noise == 0.0
  {
    match cal.lapTimeStd
    case None => 0.0
    case Some(std) => (std / 3.0) * gaussDraw
  }

  /** Traffic placeholder: the time passes through unchanged. */
  function AdjustForTraffic(lapTime: real): (adjusted: real)
    ensures adjusted == lapTime
  {
    lapTime
  }

  /** Overtaking placeholder: never attempted. */
  function AttemptOvertake(): (attempted: bool)
    ensures !attempted
  {
    false
  }

  /** The sector step reaches the tyre lookup only when the car is still running. */
  predicate ReachesTyreLookup(cal: CarCalibration, s: SectorState, reliabilityDraw: real)
  {
    !s.retired && !ReliabilityFailure(cal.reliabilityProb, reliabilityDraw)
  }

  /**
   * Time of one sector for a running car: without noise, three such
   * sectors carry the whole team offset and the whole tyre delta.
   */
  function SectorTime(m: Model, cal: CarCalibration, s: SectorState,
                      sectorBaseTime: real, trackDegMultiplier: real, gaussDraw: real): (t: real)
    requires s.compound in m.tyres
    ensures SectorNoise(cal, gaussDraw) == 0.0 ==>
      3.0 * t == 3.0 * sectorBaseTime + cal.muTeam + LapDelta(m, s.compound, s.ageLaps, trackDegMultiplier, cal.kTeam)
  {
    var tyreDelta := LapDelta(m, s.compound, s.ageLaps, trackDegMultiplier, cal.kTeam);
    AdjustForTraffic(sectorBaseTime + cal.muTeam / 3.0 + tyreDelta / 3.0 + SectorNoise(cal, gaussDraw))
  }

  /** One sector of one car, on values. */
  function StepSectorSpec(m: Model, cal: CarCalibration, s: SectorState,
                          sectorBaseTime: real, trackDegMultiplier: real,
                          reliabilityDraw: real, gaussDraw: real): (o: SectorOutcome)
    requires ReachesTyreLookup(cal, s, reliabilityDraw) ==> s.compound in m.tyres
    requires 0 <= s.sectorCounter <= 2
    ensures 0 <= o.state.sectorCounter <= 2
    ensures o.state.totalTime == s.totalTime + o.sectorTime
    ensures o.state.compound == s.compound
    ensures s.retired ==> o == SectorOutcome(s, 0.0)
    ensures !s.retired && ReliabilityFailure(cal.reliabilityProb, reliabilityDraw) ==>
      o == SectorOutcome(s.(retired := true), 0.0)
    ensures ReachesTyreLookup(cal, s, reliabilityDraw) ==>
      && !o.state.retired
      && o.state.sectorCounter == (s.sectorCounter + 1) % 3
      && o.sectorTime == SectorTime(m, cal, s, sectorBaseTime, trackDegMultiplier, gaussDraw)
    ensures o.state.ageLaps ==
      s.ageLaps + (if ReachesTyreLookup(cal, s, reliabilityDraw) && s.sectorCounter == 2 then 1 else 0)
  {
    if s.retired then SectorOutcome(s, 0.0)
    else if ReliabilityFailure(cal.reliabilityProb, reliabilityDraw) then
      SectorOutcome(s.(retired := true), 0.0)
    else
      var t := SectorTime(m, cal, s, sectorBaseTime, trackDegMultiplier, gaussDraw);
      var counter := s.sectorCounter + 1;
      var s' := s.(totalTime := s.totalTime + t);
      if counter == 3 then SectorOutcome(s'.(sectorCounter := 0, ageLaps := s.ageLaps + 1), t)
      else SectorOutcome(s'.(sectorCounter := counter), t)
  }

  /** `n` consecutive sectors, the k-th using the k-th draws; the compound never changes. */
  function RunSectors(m: Model, cal: CarCalibration, s: SectorState, n: nat,
                      sectorBaseTime: real, trackDegMultiplier: real,
                      reliabilityDraws: nat -> real, gaussDraws: nat -> real): (r: SectorState)
    requires s.compound in m.tyres && 0 <= s.sectorCounter <= 2
    ensures r.compound == s.compound && 0 <= r.sectorCounter <= 2
    ensures s.retired ==> r == s
  {
    if n == 0 then s
    else
      var prev := RunSectors(m, cal, s, n - 1, sectorBaseTime, trackDegMultiplier, reliabilityDraws, gaussDraws);
      StepSectorSpec(m, cal, prev, sectorBaseTime, trackDegMultiplier, reliabilityDraws(n - 1), gaussDraws(n - 1)).state
  }

  /**
   * While no reliability failure strikes, the tyre ages exactly once per
   * three completed sectors and the sector counter counts modulo 3.
   */
  lemma {:induction false} TyreAgesOncePerThreeSectors(
    m: Model, cal: CarCalibration, s: SectorState, n: nat,
    sectorBaseTime: real, trackDegMultiplier: real,
    reliabilityDraws: nat -> real, gaussDraws: nat -> real)
    requires s.compound in m.tyres && 0 <= s.sectorCounter <= 2 && !s.retired
    requires forall k :: 0 <= k < n ==> !ReliabilityFailure(cal.reliabilityProb, reliabilityDraws(k))
    ensures var r := RunSectors(m, cal, s, n, sectorBaseTime, trackDegMultiplier, reliabilityDraws, gaussDraws);
            && !r.retired
            && r.sectorCounter == (s.sectorCounter + n) % 3
            && r.ageLaps == s.ageLaps + (s.sectorCounter + n) / 3
  {
    if n > 0 {
      TyreAgesOncePerThreeSectors(m, cal, s, n - 1, sectorBaseTime, trackDegMultiplier, reliabilityDraws, gaussDraws);
      var prev := RunSectors(m, cal, s, n - 1, sectorBaseTime, trackDegMultiplier, reliabilityDraws, gaussDraws);
      assert !ReliabilityFailure(cal.reliabilityProb, reliabilityDraws(n - 1));
      RunningSectorCounts(m, cal, prev, sectorBaseTime, trackDegMultiplier, reliabilityDraws(n - 1), gaussDraws(n - 1));
      CounterStep(s.sectorCounter + n - 1);
    }
  }

  /** The counter and tyre-age effect of one sector of a running car. */
  lemma RunningSectorCounts(m: Model, cal: CarCalibration, s: SectorState,
                            sectorBaseTime: real, trackDegMultiplier: real,
                            reliabilityDraw: real, gaussDraw: real)
    requires s.compound in m.tyres && 0 <= s.sectorCounter <= 2
    requires ReachesTyreLookup(cal, s, reliabilityDraw)
    ensures var o := StepSectorSpec(m, cal, s, sectorBaseTime, trackDegMultiplier, reliabilityDraw, gaussDraw);
            && !o.state.retired
            && o.state.sectorCounter == (s.sectorCounter + 1) % 3
            && o.state.ageLaps == s.ageLaps + (if s.sectorCounter == 2 then 1 else 0)
  {
  }

  /** Counting one more sector modulo 3 and in whole laps. */
  lemma CounterStep(c: nat)
    ensures (c + 1) % 3 == (c % 3 + 1) % 3
    ensures (c + 1) / 3 == c / 3 + (if c % 3 == 2 then 1 else 0)
  {
  }

  /**
   * With zero noise, three sectors started on a fresh lap (counter 0) at
   * one tyre age add up to a whole lap: 3 * sector base + team offset +
   * the tyre delta at that age, since wear only follows the third sector.
   */
  lemma ThreeSectorsMakeALap(m: Model, cal: CarCalibration, s: SectorState,
                             sectorBaseTime: real, trackDegMultiplier: real,
                             d0: real, d1: real, d2: real)
    requires s.compound in m.tyres && s.sectorCounter == 0 && !s.retired
    requires !ReliabilityFailure(cal.reliabilityProb, d0)
    requires !ReliabilityFailure(cal.reliabilityProb, d1)
    requires !ReliabilityFailure(cal.reliabilityProb, d2)
    ensures var o0 := StepSectorSpec(m, cal, s, sectorBaseTime, trackDegMultiplier, d0, 0.0);
            var o1 := StepSectorSpec(m, cal, o0.state, sectorBaseTime, trackDegMultiplier, d1, 0.0);
            var o2 := StepSectorSpec(m, cal, o1.state, sectorBaseTime, trackDegMultiplier, d2, 0.0);
            && o2.state.totalTime == s.totalTime + 3.0 * sectorBaseTime + cal.muTeam
                                     + LapDelta(m, s.compound, s.ageLaps, trackDegMultiplier, cal.kTeam)
            && o2.state.ageLaps == s.ageLaps + 1
            && o2.state.sectorCounter == 0
  {
  }

  class CarAgent {
    const carId: string
    const teamId: string
    const calibration: CarCalibration
    const tyreState: TyreState
    const tyreModel: Model

    var gapAhead: Option<real>
    var gapBehind: Option<real>
    var trackState: string
    var instruction: Option<string>
    var totalTime: real
    var retired: bool
    var sectorCounter: int
    var pendingPit: bool
    var pitCompound: Option<string>

    ghost predicate Valid()
      reads this
    {
      0 <= sectorCounter <= 2
    }

    /** The abstract state the sector step works on. */
    function View(): SectorState
      reads this, tyreState
    {
      SectorState(totalTime, retired, sectorCounter, tyreState.compound, tyreState.ageLaps)
    }

    constructor (carId: string, teamId: string, calibration: CarCalibration,
                 tyreState: TyreState, tyreModel: Model)
      ensures Valid()
      ensures this.carId == carId && this.teamId == teamId && this.calibration == calibration
      ensures this.tyreState == tyreState && this.tyreModel == tyreModel
      ensures gapAhead == None && gapBehind == None && trackState == "GREEN" && instruction == None
      ensures totalTime == 0.0 && !retired && sectorCounter == 0
      ensures !pendingPit && pitCompound == None
    {
      this.carId := carId;
      this.teamId := teamId;
      this.calibration := calibration;
      this.tyreState := tyreState;
      this.tyreModel := tyreModel;
      gapAhead := None;
      gapBehind := None;
      trackState := "GREEN";
      instruction := None;
      totalTime := 0.0;
      retired := false;
      sectorCounter := 0;
      pendingPit := false;
      pitCompound := None;
    }

    /**
     * Runs one sector. `reliabilityDraw` is the uniform draw of the
     * reliability check and `gaussDraw` the standard-normal draw of the
     * sector noise. `lapTimeStd` is accepted and unused, as in the source.
     */
    method StepSector(sectorBaseTime: real, trackDegMultiplier: real, lapTimeStd: real,
                      reliabilityDraw: real, gaussDraw: real) returns (sectorTime: real)
      requires Valid()
      requires ReachesTyreLookup(calibration, View(), reliabilityDraw) ==> tyreState.compound in tyreModel.tyres
      modifies this`totalTime, this`retired, this`sectorCounter, tyreState
      ensures Valid()
      ensures var o := StepSectorSpec(tyreModel, calibration, old(View()), sectorBaseTime,
                                      trackDegMultiplier, reliabilityDraw, gaussDraw);
              View() == o.state && sectorTime == o.sectorTime
    {
      if retired {
        return 0.0;
      }
      if ReliabilityFailure(calibration.reliabilityProb, reliabilityDraw) {
        retired := true;
        return 0.0;
      }
      var tyreDelta := LapDelta(tyreModel, tyreState.compound, tyreState.ageLaps,
                                trackDegMultiplier, calibration.kTeam);
      sectorTime := sectorBaseTime + calibration.muTeam / 3.0 + tyreDelta / 3.0;
      sectorTime := sectorTime + SectorNoise(calibration, gaussDraw);
      sectorTime := AdjustForTraffic(sectorTime);
      totalTime := totalTime + sectorTime;
      sectorCounter := sectorCounter + 1;
      if sectorCounter == 3 {
        UpdateTyreWear();
        sectorCounter := 0;
      }
    }

    /** Ages the tyre by one lap. */
    method UpdateTyreWear()
      modifies tyreState
      ensures tyreState.ageLaps == old(tyreState.ageLaps) + 1
      ensures tyreState.compound == old(tyreState.compound)
    {
      Advance(tyreState, 1);
    }

    /** Requests a pit stop onto `newCompound`; the time loss is the race manager's. */
    method Pit(newCompound: string)
      modifies this`pendingPit, this`pitCompound
      ensures pendingPit && pitCompound == Some(newCompound)
    {
      pendingPit := true;
      pitCompound := Some(newCompound);
    }

    method ApplyTeamInstruction(instruction: string)
      modifies this`instruction
      ensures this.instruction == Some(instruction)
    {
      this.instruction := Some(instruction);
    }
  }
}
