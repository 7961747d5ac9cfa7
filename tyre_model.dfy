/**
 * The tyre performance model used by the sector-level car agent
 * (src/models/TyreModel.py): a calibrated spec per compound, a mutable
 * per-car tyre state, and a three-phase lap-time penalty (warm-up, peak
 * window, linear-plus-quadratic degradation) scaled as a whole by the
 * track multiplier and the team factor.
 */
module TyreModel {

  /** Calibrated coefficients of one compound. */
  datatype TyreSpec = TyreSpec(
    warmupLaps: int,
    warmupStartPenalty: real,
    peakLife: int,
    degLinear: real,
    degQuadratic: real)

  /** The shared, read-only model: the loaded compounds by name. */
  datatype Model = Model(tyres: map<string, TyreSpec>)

  /** A car's current tyre: compound and stint age, updated in place. */
  class TyreState {
    var compound: string
    var ageLaps: int

    constructor (compound: string, ageLaps: int)
      ensures this.compound == compound && this.ageLaps == ageLaps
    {
      this.compound := compound;
      this.ageLaps := ageLaps;
    }
  }

  /** Ages the tyre by `laps` laps in place; the compound is kept. */
  method Advance(state: TyreState, laps: int)
    modifies state
    ensures state.ageLaps == old(state.ageLaps) + laps
    ensures state.compound == old(state.compound)
  {
    state.ageLaps := state.ageLaps + laps;
  }

  function MaxInt(a: int, b: int): int { if a < b then b else a }
  function MinInt(a: int, b: int): int { if a < b then a else b }
  function MaxReal(a: real, b: real): real { if a < b then b else a }

  /** Share of the warm-up penalty still present after `life` laps. */
  function WarmupFraction(spec: TyreSpec, life: nat): (frac: real)
    requires 0 <= life < spec.warmupLaps
    ensures 0.0 < frac <= 1.0
    ensures life == 0 ==> frac == 1.0
  {
    1.0 - life as real / spec.warmupLaps as real
  }

  /** Warm-up penalty, unscaled: decays from the start penalty towards 0. */
  function WarmupPenalty(spec: TyreSpec, life: nat): (w: real)
    ensures spec.warmupLaps <= 0 || life >= spec.warmupLaps ==> w == 0.0
    ensures spec.warmupLaps > 0 && life == 0 ==> w == spec.warmupStartPenalty
    ensures spec.warmupStartPenalty >= 0.0 ==> 0.0 <= w <= spec.warmupStartPenalty
  {
    if spec.warmupLaps > 0 && life < spec.warmupLaps then
      var frac := WarmupFraction(spec, life);
      assert spec.warmupStartPenalty >= 0.0 ==>
        spec.warmupStartPenalty * frac <= spec.warmupStartPenalty * 1.0;
      spec.warmupStartPenalty * MaxReal(0.0, frac)
    else 0.0
  }

  /** Laps past the end of the peak window (0 inside it). */
  function DegAge(spec: TyreSpec, life: nat): (a: nat)
    ensures life <= spec.peakLife ==> a == 0
    ensures life > spec.peakLife ==> a == life - spec.peakLife
  {
    MaxInt(0, life - spec.peakLife)
  }

  /** Degradation penalty, unscaled. */
  function DegPenalty(spec: TyreSpec, life: nat): (d: real)
    ensures life <= spec.peakLife ==> d == 0.0
    ensures spec.degLinear >= 0.0 && spec.degQuadratic >= 0.0 ==> d >= 0.0
  {
    var a := DegAge(spec, life) as real;
    spec.degLinear * a + spec.degQuadratic * (a * a)
  }

  /** Negative ages are read as age 0. */
  function Life(ageLaps: int): (life: nat)
    ensures ageLaps <= 0 ==> life == 0
    ensures ageLaps >= 0 ==> life == ageLaps
  {
    MaxInt(0, ageLaps)
  }

  /**
   * Tyre-induced lap-time delta in seconds. An unknown compound is a
   * lookup failure in the source, hence the precondition.
   */
  function LapDelta(m: Model, compound: string, ageLaps: int,
                    trackDegMultiplier: real, teamDegFactor: real): (r: real)
    requires compound in m.tyres
    ensures trackDegMultiplier == 0.0 || teamDegFactor == 0.0 ==> r == 0.0
    ensures ageLaps <= 0 && m.tyres[compound].warmupLaps > 0 && m.tyres[compound].peakLife >= 0 ==>
      r == m.tyres[compound].warmupStartPenalty * trackDegMultiplier * teamDegFactor
  {
    var spec := m.tyres[compound];
    var life := Life(ageLaps);
    (WarmupPenalty(spec, life) + DegPenalty(spec, life)) * trackDegMultiplier * teamDegFactor
  }

  /** Every coefficient of the compound is non-negative. */
  predicate NonNegativeSpec(spec: TyreSpec)
  {
    spec.warmupStartPenalty >= 0.0 && spec.degLinear >= 0.0 && spec.degQuadratic >= 0.0
  }

  /** With non-negative coefficients and factors the delta is a penalty, never a gain. */
  lemma LapDeltaNonNegative(m: Model, compound: string, ageLaps: int,
                            trackDegMultiplier: real, teamDegFactor: real)
    requires compound in m.tyres && NonNegativeSpec(m.tyres[compound])
    requires trackDegMultiplier >= 0.0 && teamDegFactor >= 0.0
    ensures LapDelta(m, compound, ageLaps, trackDegMultiplier, teamDegFactor) >= 0.0
  {
    var spec := m.tyres[compound];
    var life := Life(ageLaps);
    var base := WarmupPenalty(spec, life) + DegPenalty(spec, life);
    assert base >= 0.0;
    assert base * trackDegMultiplier >= 0.0;
  }

  /** A negative stint age gives the same delta as age 0. */
  lemma NegativeAgeIsFresh(m: Model, compound: string, ageLaps: int,
                           trackDegMultiplier: real, teamDegFactor: real)
    requires compound in m.tyres && ageLaps < 0
    ensures LapDelta(m, compound, ageLaps, trackDegMultiplier, teamDegFactor)
         == LapDelta(m, compound, 0, trackDegMultiplier, teamDegFactor)
  {
  }

  /**
   * Inside the peak window and past warm-up the tyre costs nothing,
   * whatever the scaling factors.
   */
  lemma NoPenaltyInPeakWindow(m: Model, compound: string, ageLaps: int,
                              trackDegMultiplier: real, teamDegFactor: real)
    requires compound in m.tyres
    requires 0 <= ageLaps && m.tyres[compound].warmupLaps <= ageLaps <= m.tyres[compound].peakLife
    ensures LapDelta(m, compound, ageLaps, trackDegMultiplier, teamDegFactor) == 0.0
  {
  }
}
