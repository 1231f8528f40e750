/**
 * The timed parts of an episode as step functions: the one-second warning
 * countdown, the three-second recovery confirmation and the four-second
 * breathing pacer. Each function gives the state after one timer event.
 */
module Episode {
  import opened Util
  import opened Signals
  import opened Risk

  // ----- Warning countdown -----

  /** The countdown effect fires the intervention when the countdown stands at 0. */
  predicate Expired(countdown: Option<nat>) {
    countdown == Some(0)
  }

  /**
   * The countdown after one countdown event: a positive count goes down by exactly
   * one; a count of 0 is cleared (the intervention starts); no countdown stays none.
   */
  function CountdownAfter(countdown: Option<nat>): (r: Option<nat>)
    ensures countdown.Some? && countdown.value > 0 ==> r == Some(countdown.value - 1)
    ensures countdown.None? || Expired(countdown) ==> r.None?
  {
    match countdown
    case Some(n) => if n > 0 then Some(n - 1) else None
    case None => None
  }

  /** The countdown after `k` countdown events. */
  function CountdownAfterN(countdown: Option<nat>, k: nat): Option<nat>
    decreases k
  {
    if k == 0 then countdown else CountdownAfterN(CountdownAfter(countdown), k - 1)
  }

  /**
   * From `n`, the countdown runs through n, n-1, ..., 0 without skipping a value
   * and is at 0 (and only then expired) after exactly `n` events.
   */
  lemma {:induction false} CountdownRunsDown(n: nat, k: nat)
    requires k <= n
    ensures CountdownAfterN(Some(n), k) == Some(n - k)
    ensures Expired(CountdownAfterN(Some(n), k)) <==> k == n
    decreases k
  {
    if k > 0 {
      CountdownRunsDown(n - 1, k - 1);
    }
  }

  /**
   * The five-second warning: five countdown events bring 5 to 0, none before
   * expires, and the sixth event clears it.
   */
  lemma WarningCountdown()
    ensures CountdownAfterN(Some(COUNTDOWN_SECONDS), COUNTDOWN_SECONDS) == Some(0)
    ensures forall k :: 0 <= k < COUNTDOWN_SECONDS ==> !Expired(CountdownAfterN(Some(COUNTDOWN_SECONDS), k))
    ensures CountdownAfterN(Some(COUNTDOWN_SECONDS), COUNTDOWN_SECONDS + 1) == None
  {
    CountdownRunsDown(COUNTDOWN_SECONDS, COUNTDOWN_SECONDS);
    forall k | 0 <= k < COUNTDOWN_SECONDS
      ensures !Expired(CountdownAfterN(Some(COUNTDOWN_SECONDS), k))
    {
      CountdownRunsDown(COUNTDOWN_SECONDS, k);
    }
    CountdownNoneStays(1);
  }

  lemma {:induction false} CountdownNoneStays(k: nat)
    ensures CountdownAfterN(Some(0), k) == if k == 0 then Some(0) else None
    ensures CountdownAfterN(None, k) == None
    decreases k
  {
    if k > 0 {
      CountdownNoneStays(k - 1);
    }
  }

  // ----- Recovery confirmation -----

  /** The reading is calm enough to end the intervention. */
  predicate Recovered(v: Reading, t: Thresholds) {
    v.hr < t.hr && v.hrv > 40.0 && v.eda < 5.0
  }

  /** Seconds the recovered state must last before the intervention ends. */
  const RECOVERY_SECONDS: nat := 3

  /**
   * The recovery timer after the recovery effect re-runs (on any change of the
   * intervention flag, the current reading or the thresholds): the pending timer
   * is cancelled, and a new one starts at 0 s only while intervening on a
   * recovered reading.
   */
  function Rearm(intervening: bool, v: Reading, t: Thresholds): (w: Option<nat>)
    ensures w.Some? <==> intervening && Recovered(v, t)
    ensures w.Some? ==> w.value == 0
  {
    if intervening && Recovered(v, t) then Some(0) else None
  }

  /** One more second on a pending timer ends the intervention. */
  predicate RecoveryFires(wait: Option<nat>) {
    wait.Some? && wait.value + 1 >= RECOVERY_SECONDS
  }

  /** The timer after one second passes with nothing else happening. */
  function RecoveryAfter(wait: Option<nat>): (r: Option<nat>)
    ensures RecoveryFires(wait) || wait.None? ==> r.None?
    ensures wait.Some? && !RecoveryFires(wait) ==> r == Some(wait.value + 1)
  {
    match wait
    case Some(k) => if k + 1 >= RECOVERY_SECONDS then None else Some(k + 1)
    case None => None
  }

  function RecoveryAfterN(wait: Option<nat>, k: nat): Option<nat>
    decreases k
  {
    if k == 0 then wait else RecoveryAfterN(RecoveryAfter(wait), k - 1)
  }

  /**
   * The debounce: a freshly armed timer fires on the third undisturbed second and
   * not before.
   */
  lemma {:induction false} RecoveryConfirmation(k: nat)
    requires k < RECOVERY_SECONDS
    ensures RecoveryAfterN(Some(0), k) == Some(k)
    ensures RecoveryFires(RecoveryAfterN(Some(0), k)) <==> k == RECOVERY_SECONDS - 1
    decreases k
  {
    if k > 0 {
      RecoveryConfirmation(k - 1);
      RecoveryAfterNLast(Some(0), k - 1);
    }
  }

  lemma {:induction false} RecoveryAfterNLast(wait: Option<nat>, k: nat)
    ensures RecoveryAfterN(wait, k + 1) == RecoveryAfter(RecoveryAfterN(wait, k))
    decreases k
  {
    if k > 0 {
      RecoveryAfterNLast(RecoveryAfter(wait), k - 1);
    }
  }

  /**
   * Whether the recovery timer fires while the generator keeps delivering the
   * readings `vs`, one per second: each second passes on the pending timer, then
   * the next reading object re-runs the recovery effect, which re-arms it.
   */
  predicate FiresWhileSampled(wait: Option<nat>, vs: seq<Reading>, t: Thresholds)
    decreases |vs|
  {
    |vs| > 0 && (RecoveryFires(wait) || FiresWhileSampled(Rearm(true, vs[0], t), vs[1..], t))
  }

  /**
   * As written, sampling never lets the recovery confirmation fire: every reading
   * restarts the three-second timer, however many recovered readings arrive.
   */
  lemma {:induction false} SamplingNeverConfirms(vs: seq<Reading>, t: Thresholds)
    requires forall i :: 0 <= i < |vs| ==> Recovered(vs[i], t)
    ensures !FiresWhileSampled(Some(0), vs, t)
    decreases |vs|
  {
    if |vs| > 0 {
      assert forall i :: 0 <= i < |vs[1..]| ==> vs[1..][i] == vs[i + 1];
      SamplingNeverConfirms(vs[1..], t);
    }
  }

  /**
   * The intended re-arm: a reading that is still recovered keeps the timer that
   * is already running; any other reading cancels it, and the first recovered
   * reading while intervening starts it at 0 s.
   */
  function RearmIntended(wait: Option<nat>, intervening: bool, v: Reading, t: Thresholds): (w: Option<nat>)
    ensures w.Some? <==> intervening && Recovered(v, t)
    ensures w.Some? && wait.Some? ==> w == wait
    ensures w.Some? && wait.None? ==> w == Some(0)
  {
    if !(intervening && Recovered(v, t)) then None
    else if wait.Some? then wait
    else Some(0)
  }

  /** Like `FiresWhileSampled`, with the intended re-arm. */
  predicate FiresWhileSampledIntended(wait: Option<nat>, vs: seq<Reading>, t: Thresholds)
    decreases |vs|
  {
    |vs| > 0 && (RecoveryFires(wait) || FiresWhileSampledIntended(RearmIntended(RecoveryAfter(wait), true, vs[0], t), vs[1..], t))
  }

  /**
   * With the intended re-arm, three seconds of recovered readings end the
   * intervention, whatever the readings are, and two do not.
   */
  lemma IntendedConfirmsOnThirdSecond(vs: seq<Reading>, t: Thresholds)
    requires |vs| >= RECOVERY_SECONDS
    requires forall i :: 0 <= i < |vs| ==> Recovered(vs[i], t)
    ensures FiresWhileSampledIntended(Some(0), vs, t)
    ensures !FiresWhileSampledIntended(Some(0), vs[..RECOVERY_SECONDS - 1], t)
  {
    assert Recovered(vs[0], t) && Recovered(vs[1], t);
    assert RearmIntended(RecoveryAfter(Some(0)), true, vs[0], t) == Some(1);
    assert RearmIntended(RecoveryAfter(Some(1)), true, vs[1], t) == Some(2);
    var two := vs[..RECOVERY_SECONDS - 1];
    assert two[0] == vs[0] && two[1..][0] == vs[1];
    assert !FiresWhileSampledIntended(Some(2), two[1..][1..], t);
    assert !FiresWhileSampledIntended(Some(1), two[1..], t);
    assert vs[1..][0] == vs[1] && |vs[1..][1..]| > 0;
    assert FiresWhileSampledIntended(Some(2), vs[1..][1..], t);
  }

  // ----- Breathing pacer -----

  /**
   * The pacer: whether its interval is installed, the phase (`true` = inhale,
   * the source's `isBreathingCycle`) and the scale of the breathing circle.
   */
  datatype Pacer = Pacer(active: bool, inhale: bool, scale: real)

  const INHALE_SCALE := 0.8
  const EXHALE_SCALE := 1.2
  const RESTING_SCALE := 1.0

  /** A stopped pacer: exhale flag and neutral scale. */
  const STOPPED := Pacer(false, false, RESTING_SCALE)

  /** Starting the pacer begins with an inhale at scale 0.8. */
  const STARTED := Pacer(true, true, INHALE_SCALE)

  /** The scale always matches the phase while running; a stopped pacer is at rest. */
  predicate Coherent(p: Pacer) {
    if p.active then p.scale == (if p.inhale then INHALE_SCALE else EXHALE_SCALE) else p == STOPPED
  }

  /**
   * One four-second pacer event: a running pacer flips its phase and sets the
   * scale of the new phase; a stopped pacer has no interval and does not change.
   */
  function Toggle(p: Pacer): (r: Pacer)
    ensures !p.active ==> r == p
    ensures p.active ==> r.active && r.inhale == !p.inhale
    ensures p.active ==> r.scale == (if r.inhale then INHALE_SCALE else EXHALE_SCALE)
    ensures Coherent(p) ==> Coherent(r)
  {
    if !p.active then p
    else if p.inhale then Pacer(true, false, EXHALE_SCALE)
    else Pacer(true, true, INHALE_SCALE)
  }

  function ToggleN(p: Pacer, n: nat): Pacer
    decreases n
  {
    if n == 0 then p else Toggle(ToggleN(p, n - 1))
  }

  /** After `n` events a started pacer is inhaling exactly when `n` is even. */
  lemma {:induction false} PacerAlternates(n: nat)
    ensures ToggleN(STARTED, n) == if n % 2 == 0 then STARTED else Pacer(true, false, EXHALE_SCALE)
    decreases n
  {
    if n > 0 {
      PacerAlternates(n - 1);
    }
  }

  /** Once stopped, no number of pacer events changes anything. */
  lemma {:induction false} StoppedPacerStaysStopped(n: nat)
    ensures ToggleN(STOPPED, n) == STOPPED
    decreases n
  {
    if n > 0 {
      StoppedPacerStaysStopped(n - 1);
    }
  }
}
