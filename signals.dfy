/**
 * The three physiological channels of the monitor (heart rate, heart-rate
 * variability, electrodermal activity), the stability score QHC computed from
 * them, one step of the sample generator and the derivation of HRV and EDA
 * from a heart rate pushed by the watch.
 */
module Signals {

  /** One reading: heart rate (bpm), heart-rate variability (ms), electrodermal activity (µS). */
  datatype Reading = Reading(hr: real, hrv: real, eda: real)

  // Reference ranges, used both for normalisation and for clamping.
  const HR_MIN := 60.0
  const HR_MAX := 140.0
  const HRV_MIN := 20.0
  const HRV_MAX := 80.0
  const EDA_MIN := 1.0
  const EDA_MAX := 10.0

  // Weights of the stability score.
  const HR_WEIGHT := 0.4
  const HRV_WEIGHT := 0.3
  const EDA_WEIGHT := 0.3

  /** Amplitude of the 0.2 Hz oscillation added to the score. */
  const WAVE_AMPLITUDE := 0.05

  /** Per-tick decay applied while an intervention is running. */
  const HR_DECAY := 0.5
  const HRV_RECOVERY := 0.3
  const EDA_DECAY := 0.05

  /** The session's baseline, restored by a reset. */
  const BASELINE := Reading(80.0, 55.0, 3.5)

  predicate InRange(r: Reading) {
    HR_MIN <= r.hr <= HR_MAX && HRV_MIN <= r.hrv <= HRV_MAX && EDA_MIN <= r.eda <= EDA_MAX
  }

  /** `Math.max(lo, Math.min(hi, v))`. */
  function Clamp(v: real, lo: real, hi: real): (r: real)
    requires lo <= hi
    ensures lo <= r <= hi
    ensures lo <= v <= hi ==> r == v
    ensures v < lo ==> r == lo
    ensures hi < v ==> r == hi
  {
    if v < lo then lo else if hi < v then hi else v
  }

  /** Each channel clamped to its own range, independently of the others. */
  function ClampReading(r: Reading): (c: Reading)
    ensures InRange(c)
    ensures InRange(r) ==> c == r
    ensures c.hr == Clamp(r.hr, HR_MIN, HR_MAX)
    ensures c.hrv == Clamp(r.hrv, HRV_MIN, HRV_MAX)
    ensures c.eda == Clamp(r.eda, EDA_MIN, EDA_MAX)
  {
    Reading(Clamp(r.hr, HR_MIN, HR_MAX), Clamp(r.hrv, HRV_MIN, HRV_MAX), Clamp(r.eda, EDA_MIN, EDA_MAX))
  }

  /** Facts about the fraction `a / d` of a positive span `d`. */
  lemma Fraction(a: real, d: real, z: real)
    requires 0.0 < d && z == a / d
    ensures a == 0.0 ==> z == 0.0
    ensures a == d ==> z == 1.0
    ensures 0.0 <= a ==> 0.0 <= z
    ensures a <= d ==> z <= 1.0
  {
    assert z * d == a;
  }

  /**
   * Linear normalisation of `v` against the range [lo, hi]: lo maps to 0, hi to 1
   * and the values between them into [0, 1].
   */
  function Normalize(v: real, lo: real, hi: real): (z: real)
    requires lo < hi
    ensures v == lo ==> z == 0.0
    ensures v == hi ==> z == 1.0
    ensures lo <= v <= hi ==> 0.0 <= z <= 1.0
  {
    var z := (v - lo) / (hi - lo);
    Fraction(v - lo, hi - lo, z);
    z
  }

  /** A larger value never normalises to a smaller fraction. */
  lemma NormalizeMonotone(a: real, b: real, lo: real, hi: real)
    requires lo < hi && a <= b
    ensures Normalize(a, lo, hi) <= Normalize(b, lo, hi)
  {
    var d := hi - lo;
    Fraction(b - a, d, (b - a) / d);
    assert (b - lo) / d - (a - lo) / d == (b - a) / d;
  }

  /**
   * The inverted HRV term: 0 at the top of the HRV range, 1 at the bottom, so that,
   * like the HR and EDA terms, it grows as the reading gets worse.
   */
  function HrvStrain(r: Reading): (s: real)
    ensures r.hrv == HRV_MIN ==> s == 1.0
    ensures r.hrv == HRV_MAX ==> s == 0.0
    ensures HRV_MIN <= r.hrv <= HRV_MAX ==> 0.0 <= s <= 1.0
  {
    1.0 - Normalize(r.hrv, HRV_MIN, HRV_MAX)
  }

  /**
   * The base score as the source computes it: the inverted HRV term is ADDED, so a
   * lower HRV raises the score (the HR and EDA terms are subtracted).
   */
  function BaseQhcAsWritten(r: Reading): (b: real)
    ensures InRange(r) ==> 0.3 <= b <= 1.3
  {
    1.0 - HR_WEIGHT * Normalize(r.hr, HR_MIN, HR_MAX)
        + HRV_WEIGHT * HrvStrain(r)
        - EDA_WEIGHT * Normalize(r.eda, EDA_MIN, EDA_MAX)
  }

  /** The value range of `Math.sin(...) * 0.05`. */
  predicate WaveInRange(wave: real) {
    -WAVE_AMPLITUDE <= wave <= WAVE_AMPLITUDE
  }

  /** The source's score: the as-written base plus the oscillation, clamped to [0, 1]. */
  function QhcAsWritten(r: Reading, wave: real): (q: real)
    requires WaveInRange(wave)
    ensures 0.0 <= q <= 1.0
    ensures 0.0 <= BaseQhcAsWritten(r) + wave <= 1.0 ==> q == BaseQhcAsWritten(r) + wave
    ensures BaseQhcAsWritten(r) + wave < 0.0 ==> q == 0.0
    ensures 1.0 < BaseQhcAsWritten(r) + wave ==> q == 1.0
  {
    Clamp(BaseQhcAsWritten(r) + wave, 0.0, 1.0)
  }

  /**
   * The as-written score rewards a low HRV: with HR and EDA equal, the reading with
   * the worst HRV (20 ms) scores higher than the one with the best HRV (80 ms).
   */
  lemma QhcAsWrittenRewardsLowHrv()
    ensures QhcAsWritten(Reading(80.0, HRV_MIN, 3.5), 0.0) == 1.0
    ensures QhcAsWritten(Reading(80.0, HRV_MAX, 3.5), 0.0) < 0.82
  {
    assert BaseQhcAsWritten(Reading(80.0, HRV_MIN, 3.5)) == 1.0 - 0.1 + 0.3 - 0.3 * (2.5 / 9.0);
    assert BaseQhcAsWritten(Reading(80.0, HRV_MAX, 3.5)) == 1.0 - 0.1 - 0.3 * (2.5 / 9.0);
  }

  /**
   * The formula printed in the program's own documentation panel:
   * `1 - α₁·z(HR) + α₂·z(HRV) - α₃·z(EDA)`, with HRV normalised but not inverted.
   */
  function BaseQhcDocumented(r: Reading): (b: real)
    ensures InRange(r) ==> 0.3 <= b <= 1.3
    ensures r == Reading(HR_MAX, HRV_MIN, EDA_MAX) ==> b == 0.3
  {
    1.0 - HR_WEIGHT * Normalize(r.hr, HR_MIN, HR_MAX)
        + HRV_WEIGHT * Normalize(r.hrv, HRV_MIN, HRV_MAX)
        - EDA_WEIGHT * Normalize(r.eda, EDA_MIN, EDA_MAX)
  }

  /**
   * The corrected base score: all three strain terms are subtracted, so the score
   * is 1 for the calmest valid reading and 0 for the most strained one, the two
   * ends of the documented 0–1 scale. It is the documented formula shifted down
   * by the HRV weight, which the documented formula needs to reach 0.
   */
  function BaseQhc(r: Reading): real {
    1.0 - HR_WEIGHT * Normalize(r.hr, HR_MIN, HR_MAX)
        - HRV_WEIGHT * HrvStrain(r)
        - EDA_WEIGHT * Normalize(r.eda, EDA_MIN, EDA_MAX)
  }

  /**
   * The as-written formula exceeds the corrected one by twice the weighted HRV
   * term (they agree at the top of the HRV range); the documented formula exceeds
   * it by exactly the HRV weight.
   */
  lemma BaseQhcCorrection(r: Reading)
    ensures BaseQhcAsWritten(r) - BaseQhc(r) == 2.0 * HRV_WEIGHT * HrvStrain(r)
    ensures r.hrv == HRV_MAX ==> BaseQhcAsWritten(r) == BaseQhc(r)
    ensures BaseQhcDocumented(r) - BaseQhc(r) == HRV_WEIGHT
  {
  }

  /**
   * The stability score: the base score plus the oscillation `wave`, clamped to [0, 1].
   * It equals base + wave whenever that already lies in [0, 1].
   */
  function Qhc(r: Reading, wave: real): (q: real)
    requires WaveInRange(wave)
    ensures 0.0 <= q <= 1.0
    ensures 0.0 <= BaseQhc(r) + wave <= 1.0 ==> q == BaseQhc(r) + wave
    ensures BaseQhc(r) + wave < 0.0 ==> q == 0.0
    ensures 1.0 < BaseQhc(r) + wave ==> q == 1.0
  {
    Clamp(BaseQhc(r) + wave, 0.0, 1.0)
  }

  /** The oscillation moves the score by at most its amplitude from the clamped base score. */
  lemma QhcNearBase(r: Reading, wave: real)
    requires WaveInRange(wave)
    ensures Clamp(BaseQhc(r), 0.0, 1.0) - WAVE_AMPLITUDE <= Qhc(r, wave)
    ensures Qhc(r, wave) <= Clamp(BaseQhc(r), 0.0, 1.0) + WAVE_AMPLITUDE
  {
  }

  /** The score falls as HR or EDA rise and rises as HRV rises. */
  lemma QhcMonotone(calm: Reading, tense: Reading, wave: real)
    requires WaveInRange(wave)
    requires calm.hr <= tense.hr && tense.hrv <= calm.hrv && calm.eda <= tense.eda
    ensures Qhc(tense, wave) <= Qhc(calm, wave)
  {
    NormalizeMonotone(calm.hr, tense.hr, HR_MIN, HR_MAX);
    NormalizeMonotone(tense.hrv, calm.hrv, HRV_MIN, HRV_MAX);
    NormalizeMonotone(calm.eda, tense.eda, EDA_MIN, EDA_MAX);
    assert BaseQhc(tense) <= BaseQhc(calm);
  }

  /**
   * For readings inside the valid ranges the base score already lies in [0, 1]
   * (the weights sum to 1), so only the oscillation can reach the clamp.
   */
  lemma QhcOfValidReading(r: Reading, wave: real)
    requires InRange(r) && WaveInRange(wave)
    ensures 0.0 <= BaseQhc(r) <= 1.0
    ensures BaseQhc(Reading(HR_MIN, HRV_MAX, EDA_MIN)) == 1.0
    ensures BaseQhc(Reading(HR_MAX, HRV_MIN, EDA_MAX)) == 0.0
    ensures BaseQhc(r) - WAVE_AMPLITUDE <= Qhc(r, wave) <= BaseQhc(r) + WAVE_AMPLITUDE
  {
    assert 0.0 <= Normalize(r.hr, HR_MIN, HR_MAX) <= 1.0;
    assert 0.0 <= HrvStrain(r) <= 1.0;
    assert 0.0 <= Normalize(r.eda, EDA_MIN, EDA_MAX) <= 1.0;
  }

  /** The random deltas of one generator tick. */
  datatype Delta = Delta(hr: real, hrv: real, eda: real)

  /**
   * `(Math.random() - 0.5) * 2` for HR and HRV and `(Math.random() - 0.5) * 0.1`
   * for EDA, with `Math.random()` in [0, 1).
   */
  predicate DeltaInRange(d: Delta) {
    -1.0 <= d.hr < 1.0 && -1.0 <= d.hrv < 1.0 && -0.05 <= d.eda < 0.05
  }

  /**
   * The deterministic pre-clamp step toward the calm state used while intervening:
   * HR and EDA fall, HRV rises.
   */
  function Decay(r: Reading): (c: Reading)
    ensures c.hr < r.hr && r.hrv < c.hrv && c.eda < r.eda
    ensures r.hr - c.hr == 0.5 && c.hrv - r.hrv == 0.3 && r.eda - c.eda == 0.05
  {
    Reading(r.hr - HR_DECAY, r.hrv + HRV_RECOVERY, r.eda - EDA_DECAY)
  }

  /**
   * One tick of the sample generator: a random walk by `d` when not intervening,
   * the fixed decay while intervening, then the clamp to the valid ranges.
   */
  function SampleStep(prev: Reading, d: Delta, intervening: bool): (r: Reading)
    requires DeltaInRange(d)
    ensures InRange(r)
    ensures InRange(prev) ==>
      && -1.0 <= r.hr - prev.hr <= 1.0
      && -1.0 <= r.hrv - prev.hrv <= 1.0
      && -0.05 <= r.eda - prev.eda <= 0.05
    ensures InRange(prev) && intervening ==>
      r.hr <= prev.hr && prev.hrv <= r.hrv && r.eda <= prev.eda
    ensures intervening && InRange(Decay(prev)) ==> r == Decay(prev)
    ensures !intervening && InRange(Reading(prev.hr + d.hr, prev.hrv + d.hrv, prev.eda + d.eda)) ==>
      r == Reading(prev.hr + d.hr, prev.hrv + d.hrv, prev.eda + d.eda)
    ensures !intervening ==> r == ClampReading(Reading(prev.hr + d.hr, prev.hrv + d.hrv, prev.eda + d.eda))
    ensures intervening ==> r == ClampReading(Decay(prev))
  {
    var hr := prev.hr + (if intervening then -HR_DECAY else d.hr);
    var hrv := prev.hrv + (if intervening then HRV_RECOVERY else d.hrv);
    var eda := prev.eda + (if intervening then -EDA_DECAY else d.eda);
    ClampReading(Reading(hr, hrv, eda))
  }

  /** `n` generator ticks while intervening (the random deltas are then unused). */
  function DecaySteps(r: Reading, n: nat): Reading
    decreases n
  {
    if n == 0 then r else SampleStep(DecaySteps(r, n - 1), Delta(0.0, 0.0, 0.0), true)
  }

  function Max(a: real, b: real): real { if a < b then b else a }
  function Min(a: real, b: real): real { if a < b then a else b }

  /**
   * Closed form of the intervention decay: after `n` ticks from a valid reading,
   * HR has fallen by 0.5·n and EDA by 0.05·n, HRV has risen by 0.3·n, each stopping
   * at the edge of its range.
   */
  lemma {:induction false} DecayStepsClosedForm(r: Reading, n: nat)
    requires InRange(r)
    ensures DecaySteps(r, n) == Reading(
      Max(HR_MIN, r.hr - HR_DECAY * n as real),
      Min(HRV_MAX, r.hrv + HRV_RECOVERY * n as real),
      Max(EDA_MIN, r.eda - EDA_DECAY * n as real))
  {
    if n > 0 {
      DecayStepsClosedForm(r, n - 1);
    }
  }

  /** 160 intervention ticks (32 s) bring any valid reading to HR 60, HRV ≥ 68 and EDA ≤ 2. */
  lemma DecayReachesCalm(r: Reading)
    requires InRange(r)
    ensures DecaySteps(r, 160).hr == HR_MIN
    ensures DecaySteps(r, 160).hrv >= 68.0
    ensures DecaySteps(r, 160).eda <= 2.0
  {
    DecayStepsClosedForm(r, 160);
  }

  /**
   * HRV and EDA derived from a heart rate pushed by the watch: the baseline values
   * up to 100 bpm, above it HRV falls by 0.5 and EDA rises by 0.1 per bpm over 80,
   * floored at 30 ms and capped at 8 µS.
   */
  function DeriveFromHr(hr: real): (r: Reading)
    ensures r.hr == hr
    ensures hr <= 100.0 ==> r.hrv == 55.0 && r.eda == 3.5
    ensures 100.0 < hr ==> 30.0 <= r.hrv < 45.0 && 5.5 < r.eda <= 8.0
    ensures 100.0 < hr ==> (r.hrv == 30.0 <==> 130.0 <= hr) && (r.eda == 8.0 <==> 125.0 <= hr)
  {
    var hrv := if hr > 100.0 then Max(30.0, 55.0 - (hr - 80.0) * 0.5) else 55.0;
    var eda := if hr > 100.0 then Min(8.0, 3.5 + (hr - 80.0) * 0.1) else 3.5;
    Reading(hr, hrv, eda)
  }

  /** A higher pushed heart rate never gives a higher HRV or a lower EDA. */
  lemma DeriveMonotone(hr1: real, hr2: real)
    requires hr1 <= hr2
    ensures DeriveFromHr(hr2).hrv <= DeriveFromHr(hr1).hrv
    ensures DeriveFromHr(hr1).eda <= DeriveFromHr(hr2).eda
  {
  }

  /** The worked example: 120 bpm gives HRV 35 ms and EDA 7.5 µS. */
  lemma DeriveAt120()
    ensures DeriveFromHr(120.0) == Reading(120.0, 35.0, 7.5)
  {
  }
}
