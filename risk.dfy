/**
 * The risk classifier: three threshold tests on the new reading, HR and HRV
 * trends over the last five stored points, a Low/Medium/High tier in fixed
 * precedence, and the guard that decides whether a High tier starts the
 * five-second warning countdown.
 */
module Risk {
  import opened Util
  import opened Signals
  import opened Window

  datatype Tier = Low | Medium | High

  /** Order of the tiers, for comparing classifications. */
  function Rank(t: Tier): nat {
    match t
    case Low => 0
    case Medium => 1
    case High => 2
  }

  /** User-set limits: HR above `hr`, HRV below `hrv` or EDA above `eda` is a breach. */
  datatype Thresholds = Thresholds(hr: real, hrv: real, eda: real)

  const DEFAULT_THRESHOLDS := Thresholds(100.0, 35.0, 6.0)

  /** The ranges of the three threshold sliders. */
  predicate SliderRange(t: Thresholds) {
    80.0 <= t.hr <= 120.0 && 20.0 <= t.hrv <= 50.0 && 4.0 <= t.eda <= 8.0
  }

  /** Number of stored points the trends look at. */
  const TREND_WINDOW := 5
  /** Nominal sampling interval in seconds, used as the time base of the trends. */
  const TICK_SECONDS := 0.2
  const HR_TREND_LIMIT := 0.9
  const HRV_TREND_LIMIT := -0.35

  datatype Trends = Trends(hr: real, hrv: real)

  /**
   * HR and HRV change per second over the last five stored points. The elapsed
   * time is taken as five nominal ticks (one second), not measured.
   */
  function TrendsOf(h: seq<Point>): (t: Trends)
    ensures |h| < TREND_WINDOW ==> t == Trends(0.0, 0.0)
    ensures TREND_WINDOW <= |h| ==>
      && t.hr == h[|h| - 1].reading.hr - h[|h| - 5].reading.hr
      && t.hrv == h[|h| - 1].reading.hrv - h[|h| - 5].reading.hrv
  {
    if |h| >= TREND_WINDOW then
      var recent := h[|h| - TREND_WINDOW..];
      var span := |recent| as real * TICK_SECONDS;
      Trends((recent[|recent| - 1].reading.hr - recent[0].reading.hr) / span,
             (recent[|recent| - 1].reading.hrv - recent[0].reading.hrv) / span)
    else
      Trends(0.0, 0.0)
  }

  predicate HrOver(v: Reading, t: Thresholds) { v.hr > t.hr }
  predicate HrvUnder(v: Reading, t: Thresholds) { v.hrv < t.hrv }
  predicate EdaOver(v: Reading, t: Thresholds) { v.eda > t.eda }
  predicate HrRising(tr: Trends) { tr.hr > HR_TREND_LIMIT }
  predicate HrvFalling(tr: Trends) { tr.hrv < HRV_TREND_LIMIT }

  /** The classifier's result: the tier and the two trends it was computed from. */
  datatype Assessment = Assessment(tier: Tier, trends: Trends)

  /**
   * Classify the new reading `v` against the thresholds and the history `h` as it
   * stood before `v` was stored. High wins over Medium, Medium over Low.
   */
  function Classify(v: Reading, h: seq<Point>, t: Thresholds): (a: Assessment)
    ensures a.trends == TrendsOf(h)
    ensures a.tier == High <==>
      HrOver(v, t) || EdaOver(v, t) || (HrRising(a.trends) && HrvFalling(a.trends))
    ensures a.tier == Medium <==>
      && !(HrOver(v, t) || EdaOver(v, t) || (HrRising(a.trends) && HrvFalling(a.trends)))
      && (HrvUnder(v, t) || HrRising(a.trends) || HrvFalling(a.trends))
  {
    var tr := TrendsOf(h);
    var tier :=
      if HrOver(v, t) || EdaOver(v, t) || (HrRising(tr) && HrvFalling(tr)) then High
      else if HrvUnder(v, t) || HrRising(tr) || HrvFalling(tr) then Medium
      else Low;
    Assessment(tier, tr)
  }

  /** With fewer than five stored points only the thresholds decide the tier. */
  lemma ShortHistoryUsesThresholdsOnly(v: Reading, h: seq<Point>, t: Thresholds)
    requires |h| < TREND_WINDOW
    ensures Classify(v, h, t).tier == High <==> HrOver(v, t) || EdaOver(v, t)
    ensures Classify(v, h, t).tier == Medium <==> !HrOver(v, t) && !EdaOver(v, t) && HrvUnder(v, t)
    ensures Classify(v, h, t).tier == Low <==> !HrOver(v, t) && !EdaOver(v, t) && !HrvUnder(v, t)
  {
  }

  /** Only the last five stored points matter: older history never changes the result. */
  lemma ClassifyIgnoresOlderHistory(v: Reading, older: seq<Point>, h: seq<Point>, t: Thresholds)
    requires TREND_WINDOW <= |h|
    ensures Classify(v, older + h, t) == Classify(v, h, t)
  {
    var s := older + h;
    assert s[|s| - 1] == h[|h| - 1];
    assert s[|s| - 5] == h[|h| - 5];
  }

  /**
   * Stricter thresholds (a lower HR or EDA limit, a higher HRV limit) never give a
   * lower tier for the same reading and history.
   */
  lemma StricterThresholdsNeverLowerTier(v: Reading, h: seq<Point>, loose: Thresholds, strict: Thresholds)
    requires strict.hr <= loose.hr && loose.hrv <= strict.hrv && strict.eda <= loose.eda
    ensures Rank(Classify(v, h, loose).tier) <= Rank(Classify(v, h, strict).tier)
  {
  }

  /** A worse reading (higher HR and EDA, lower HRV) never gets a lower tier. */
  lemma WorseReadingNeverLowerTier(calm: Reading, tense: Reading, h: seq<Point>, t: Thresholds)
    requires calm.hr <= tense.hr && tense.hrv <= calm.hrv && calm.eda <= tense.eda
    ensures Rank(Classify(calm, h, t).tier) <= Rank(Classify(tense, h, t).tier)
  {
  }

  /**
   * Whether a countdown is pending, as the source's `!warningCountdown` reads it:
   * `null` and `0` both count as "no countdown".
   */
  predicate Pending(countdown: Option<nat>) {
    countdown.Some? && countdown.value != 0
  }

  const COUNTDOWN_SECONDS: nat := 5

  /**
   * The countdown after a classification: a High tier starts a fresh five-second
   * countdown when none is pending and no intervention is running; in every other
   * case the countdown is left as it was.
   */
  function AfterClassification(tier: Tier, countdown: Option<nat>, intervening: bool): (r: Option<nat>)
    ensures r != countdown ==> r == Some(COUNTDOWN_SECONDS)
    ensures r == Some(COUNTDOWN_SECONDS) <==>
      countdown == Some(COUNTDOWN_SECONDS) || (tier == High && !Pending(countdown) && !intervening)
    ensures tier != High || intervening || Pending(countdown) ==> r == countdown
  {
    if tier == High && !Pending(countdown) && !intervening then Some(COUNTDOWN_SECONDS) else countdown
  }
}
