/**
 * The one-stop stint shared by the lap-level race loops: every car starts
 * on the start tyre, and on the pit lap, when the race reaches it, moves
 * to the end tyre at life 0; each lap then ages the tyre by one.
 */
module Stint {
  import opened Wrappers

  /** The pit lap falls within the race. */
  predicate PitsDuring(pitLap: int, laps: int)
  {
    1 <= pitLap <= laps
  }

  /** The tyre fitted after `laps` laps: the end tyre once the pit lap has come. */
  function TyreAfter(startTyre: string, endTyre: string, pitLap: int, laps: int): (tyre: string)
    ensures laps < pitLap || pitLap < 1 ==> tyre == startTyre
    ensures 1 <= pitLap <= laps ==> tyre == endTyre
  {
    if PitsDuring(pitLap, laps) then endTyre else startTyre
  }

  /** The tyre changes from one lap to the next only across the pit lap. */
  lemma TyreChangesOnlyOnPitLap(startTyre: string, endTyre: string, pitLap: int, laps: int)
    ensures TyreAfter(startTyre, endTyre, pitLap, laps + 1) != TyreAfter(startTyre, endTyre, pitLap, laps)
            ==> laps + 1 == pitLap && pitLap >= 1
  {
  }

  /** The tyre life after `laps` laps: laps since the pit stop, or since the start. */
  function LifeAfter(pitLap: int, laps: nat): (life: nat)
    ensures PitsDuring(pitLap, laps) ==> life == laps - pitLap + 1
    ensures !PitsDuring(pitLap, laps) ==> life == laps
    ensures life <= laps
  {
    if PitsDuring(pitLap, laps) then laps - pitLap + 1 else laps
  }

  /** The stint's life grows by one per lap, and drops to 1 on the pit lap. */
  lemma LifeAfterOneMoreLap(pitLap: int, laps: nat)
    ensures LifeAfter(pitLap, laps + 1) == (if laps + 1 == pitLap then 1 else LifeAfter(pitLap, laps) + 1)
  {
  }

  /** The tyre life lap `lap` is run on: 0 on the pit lap, else the life after the laps before it. */
  function LifeOnLap(pitLap: int, lap: nat): (life: nat)
    requires lap >= 1
    ensures LifeAfter(pitLap, lap) == life + 1
    ensures lap == pitLap ==> life == 0
  {
    if lap == pitLap then 0 else LifeAfter(pitLap, lap - 1)
  }

  /** The first lap on which a car's tyre is not in the tyre table, as the error it raises. */
  function TyreError<V>(tyreParams: map<string, V>, startTyre: string, endTyre: string,
                        pitLap: int, laps: int): (e: Option<Error>)
    ensures e.None? <==> forall lap :: 1 <= lap <= laps ==> TyreAfter(startTyre, endTyre, pitLap, lap) in tyreParams
  {
    if laps < 1 then None
    else if pitLap != 1 && startTyre !in tyreParams then
      assert TyreAfter(startTyre, endTyre, pitLap, 1) == startTyre;
      Some(KeyError(startTyre))
    else if PitsDuring(pitLap, laps) && endTyre !in tyreParams then
      assert TyreAfter(startTyre, endTyre, pitLap, pitLap) == endTyre;
      Some(KeyError(endTyre))
    else
      None
  }

  /** The race fails on the first lap whose tyre is missing, with that tyre's KeyError. */
  lemma TyreErrorAtFirstMissingLap<V>(tyreParams: map<string, V>, startTyre: string, endTyre: string,
                                      pitLap: int, laps: int, lap: int)
    requires 1 <= lap <= laps
    requires forall l :: 1 <= l < lap ==> TyreAfter(startTyre, endTyre, pitLap, l) in tyreParams
    requires TyreAfter(startTyre, endTyre, pitLap, lap) !in tyreParams
    ensures TyreError(tyreParams, startTyre, endTyre, pitLap, laps)
         == Some(KeyError(TyreAfter(startTyre, endTyre, pitLap, lap)))
  {
    if lap > 1 {
      assert TyreAfter(startTyre, endTyre, pitLap, 1) in tyreParams;
    }
  }
}
