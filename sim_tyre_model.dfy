/**
 * The compound-based tyre model used by the lap-level race manager
 * (src/sim/TyreModel.py). It shares the spec record and the degradation
 * curve with the sector-level model, but its warm-up penalty reaches 0 one
 * lap earlier (denominator warmupLaps - 1), the warm-up term is scaled
 * lightly by the track only, and the result is clamped to be non-negative.
 */
module SimTyreModel {
  import opened TyreModel

  /** Warm-up penalty, unscaled: full at life 0, exactly 0 at warmupLaps - 1. */
  function WarmupPenalty(spec: TyreSpec, life: nat): (w: real)
    ensures spec.warmupLaps <= 0 || life >= spec.warmupLaps ==> w == 0.0
    ensures spec.warmupLaps >= 1 && life == 0 ==> w == spec.warmupStartPenalty
    ensures spec.warmupLaps > 1 && life == spec.warmupLaps - 1 ==> w == 0.0
    ensures spec.warmupStartPenalty >= 0.0 ==> 0.0 <= w <= spec.warmupStartPenalty
  {
    if spec.warmupLaps > 0 && life < spec.warmupLaps then
      if spec.warmupLaps == 1 then spec.warmupStartPenalty
      else
        var frac := 1.0 - life as real / (spec.warmupLaps - 1) as real;
        assert 0.0 <= frac <= 1.0;
        assert spec.warmupStartPenalty >= 0.0 ==>
          spec.warmupStartPenalty * frac <= spec.warmupStartPenalty * 1.0;
        spec.warmupStartPenalty * MaxReal(0.0, frac)
    else 0.0
  }

  /** The light track-only scaling applied to the warm-up term. */
  function WarmupScale(trackDegMultiplier: real): (scale: real)
    ensures trackDegMultiplier == 1.0 ==> scale == 1.0
    ensures trackDegMultiplier >= 0.0 ==> scale >= 0.7
    ensures trackDegMultiplier <= 1.0 ==> scale <= 1.0
  {
    0.7 + 0.3 * trackDegMultiplier
  }

  /**
   * Delta seconds to add to the base lap time. An unknown compound is a
   * lookup failure in the source, hence the precondition.
   */
  function LapDelta(m: Model, compound: string, life: int,
                    trackDegMultiplier: real, teamDegFactor: real): (r: real)
    requires compound in m.tyres
    ensures r >= 0.0
  {
    var spec := m.tyres[compound];
    var l := Life(life);
    var scaled := WarmupPenalty(spec, l) * WarmupScale(trackDegMultiplier)
                + DegPenalty(spec, l) * trackDegMultiplier * teamDegFactor;
    MaxReal(0.0, scaled)
  }

  /** A negative life is clamped to 0 before use. */
  lemma NegativeLifeIsFresh(m: Model, compound: string, life: int,
                            trackDegMultiplier: real, teamDegFactor: real)
    requires compound in m.tyres && life < 0
    ensures LapDelta(m, compound, life, trackDegMultiplier, teamDegFactor)
         == LapDelta(m, compound, 0, trackDegMultiplier, teamDegFactor)
  {
  }

  /**
   * At life 0 with a warm-up window and no degradation yet, the delta is
   * the start penalty scaled by 0.7 + 0.3 * track, whatever the team factor.
   */
  lemma FreshTyreDelta(m: Model, compound: string,
                       trackDegMultiplier: real, teamDegFactor: real)
    requires compound in m.tyres
    requires m.tyres[compound].warmupLaps >= 1 && m.tyres[compound].peakLife >= 0
    ensures LapDelta(m, compound, 0, trackDegMultiplier, teamDegFactor)
         == MaxReal(0.0, m.tyres[compound].warmupStartPenalty * WarmupScale(trackDegMultiplier))
  {
  }

  /**
   * Inside the peak window the team factor plays no part: only the
   * warm-up term, scaled by the track alone, remains.
   */
  lemma TeamFactorOnlyScalesDegradation(m: Model, compound: string, life: int,
                                        trackDegMultiplier: real, team1: real, team2: real)
    requires compound in m.tyres && life <= m.tyres[compound].peakLife && 0 <= m.tyres[compound].peakLife
    ensures LapDelta(m, compound, life, trackDegMultiplier, team1)
         == LapDelta(m, compound, life, trackDegMultiplier, team2)
  {
    assert DegPenalty(m.tyres[compound], Life(life)) == 0.0;
  }

  /**
   * Past the warm-up window the delta is the clamped degradation curve
   * deg_linear * a + deg_quadratic * a^2 on a = life - peak_life (0 inside
   * the peak window), scaled by track and team.
   */
  lemma PostWarmupDelta(m: Model, compound: string, life: nat,
                        trackDegMultiplier: real, teamDegFactor: real)
    requires compound in m.tyres && life >= m.tyres[compound].warmupLaps
    ensures var spec := m.tyres[compound];
            var a := if life > spec.peakLife then (life - spec.peakLife) as real else 0.0;
            LapDelta(m, compound, life, trackDegMultiplier, teamDegFactor)
            == MaxReal(0.0, (spec.degLinear * a + spec.degQuadratic * a * a)
                            * trackDegMultiplier * teamDegFactor)
  {
    var spec := m.tyres[compound];
    var a := if life > spec.peakLife then (life - spec.peakLife) as real else 0.0;
    assert DegPenalty(spec, life) == spec.degLinear * a + spec.degQuadratic * a * a;
  }

  /**
   * Once the warm-up is over the two tyre models agree whenever the
   * scaled degradation is non-negative: the clamp is the only difference.
   */
  lemma AgreesWithSectorModelAfterWarmup(m: Model, compound: string, life: nat,
                                         trackDegMultiplier: real, teamDegFactor: real)
    requires compound in m.tyres && life >= m.tyres[compound].warmupLaps
    requires DegPenalty(m.tyres[compound], life) * trackDegMultiplier * teamDegFactor >= 0.0
    ensures LapDelta(m, compound, life, trackDegMultiplier, teamDegFactor)
         == TyreModel.LapDelta(m, compound, life, trackDegMultiplier, teamDegFactor)
  {
  }
}
