/**
 * The team agent (src/agents/TeamAgent.py): it controls exactly two cars,
 * holds a fixed one-stop plan (a pit lap and a target compound), decides
 * per lap whether to pit, and applies a pit by putting both cars on the
 * new compound at age 0.
 */
module TeamAgent {
  import opened Wrappers
  import opened TyreModel
  import opened CarAgent

  /** What the team wants its cars to do this lap. */
  datatype StrategyDecision = StrategyDecision(pitNow: bool, nextCompound: Option<string>)

  /** The message of the ValueError raised for a team without exactly two cars. */
  const TwoCarsMessage := "A TeamAgent must control exactly 2 cars"

  /** The default decision: stay out. */
  const StayOut := StrategyDecision(false, None)

  class TeamAgent {
    const teamId: string
    const cars: seq<CarAgent>
    var plannedPitLap: Option<int>
    var targetCompound: Option<string>

    /** Two cars, and a planned lap always comes with its compound. */
    ghost predicate Valid()
      reads this
    {
      |cars| == 2 && (plannedPitLap.Some? ==> targetCompound.Some?)
    }

    /** The tyre states of the team's cars: what a pit changes. */
    ghost function TyreStates(): set<TyreState>
    {
      set i | 0 <= i < |cars| :: cars[i].tyreState
    }

    /** Used only by NewTeamAgent, which performs the two-car check. */
    constructor (teamId: string, cars: seq<CarAgent>)
      requires |cars| == 2
      ensures Valid()
      ensures this.teamId == teamId && this.cars == cars
      ensures plannedPitLap == None && targetCompound == None
    {
      this.teamId := teamId;
      this.cars := cars;
      plannedPitLap := None;
      targetCompound := None;
    }

    /** Stores a one-stop plan: pit on `pitLap` onto `compound`. */
    method SetBasicStrategy(pitLap: int, compound: string)
      modifies this`plannedPitLap, this`targetCompound
      ensures Valid() <==> |cars| == 2
      ensures plannedPitLap == Some(pitLap) && targetCompound == Some(compound)
    {
      plannedPitLap := Some(pitLap);
      targetCompound := Some(compound);
    }

    /**
     * The decision for `currentLap`: pit onto the target compound exactly
     * on the planned lap, stay out otherwise or when nothing is planned.
     */
    function Decide(currentLap: int): (d: StrategyDecision)
      reads this
      ensures plannedPitLap.None? ==> d == StayOut
      ensures d.pitNow <==> plannedPitLap == Some(currentLap)
      ensures d.pitNow ==> d.nextCompound == targetCompound
      ensures !d.pitNow ==> d == StayOut
    {
      match plannedPitLap
      case None => StayOut
      case Some(lap) =>
        if currentLap == lap then StrategyDecision(true, targetCompound) else StayOut
    }

    /**
     * Applies a decision to both cars: with a pit, each car's tyre becomes
     * the decided compound at age 0; nothing else is touched (the pit loss
     * is accepted and unused, so no car's total time changes).
     */
    method ApplyDecision(decision: StrategyDecision, pitLoss: real)
      requires decision.pitNow ==> decision.nextCompound.Some?
      modifies TyreStates()
      ensures !decision.pitNow ==> unchanged(TyreStates())
      ensures decision.pitNow ==> forall i :: 0 <= i < |cars| ==>
        cars[i].tyreState.ageLaps == 0 && cars[i].tyreState.compound == decision.nextCompound.value
    {
      if !decision.pitNow {
        return;
      }
      var compound := decision.nextCompound.value;
      var i := 0;
      while i < |cars|
        invariant 0 <= i <= |cars|
        invariant forall j :: 0 <= j < i ==>
          cars[j].tyreState.ageLaps == 0 && cars[j].tyreState.compound == compound
      {
        cars[i].tyreState.ageLaps := 0;
        cars[i].tyreState.compound := compound;
        i := i + 1;
      }
    }
  }

  /** Builds a team agent; anything but exactly two cars is a ValueError. */
  method NewTeamAgent(teamId: string, cars: seq<CarAgent>) returns (r: Result<TeamAgent>)
    ensures r.Ok? <==> |cars| == 2
    ensures r.Err? ==> r.error == ValueError(TwoCarsMessage)
    ensures r.Ok? ==> fresh(r.value) && r.value.Valid()
    ensures r.Ok? ==> r.value.teamId == teamId && r.value.cars == cars
    ensures r.Ok? ==> r.value.plannedPitLap == None && r.value.targetCompound == None
  {
    if |cars| != 2 {
      return Err(ValueError(TwoCarsMessage));
    }
    var team := new TeamAgent(teamId, cars);
    return Ok(team);
  }
}
