/**
 * The monitoring session: the state the component keeps between timer events
 * (current reading, history window, risk tier, warning countdown, intervention
 * flag, breathing pacer, thresholds) and one method per event that changes it.
 * Timers become explicit step methods; random deltas, the oscillation and the
 * clock are parameters.
 */
module HeartMelody {
  import opened Util
  import opened Signals
  import opened Window
  import opened Risk
  import opened Episode

  /** The score shown before the first reading and after a reset. */
  const BASELINE_QHC := 0.85

  class Session {
    /** Whether the sample generator's interval is installed. */
    var running: bool
    var current: Reading
    var qhc: real
    var history: seq<Point>
    var risk: Tier
    /** The warning countdown in seconds; `None` is the source's `null`. */
    var countdown: Option<nat>
    var intervening: bool
    var pacer: Pacer
    var thresholds: Thresholds
    var watchConnected: bool
    /** Seconds elapsed on the pending recovery timer; `None` when none is pending. */
    var recoveryWait: Option<nat>

    ghost predicate Valid()
      reads this
    {
      && |history| <= CAPACITY
      && (history != [] ==> history[|history| - 1].reading == current && history[|history| - 1].qhc == qhc)
      && 0.0 <= qhc <= 1.0
      && (countdown.Some? ==> countdown.value <= COUNTDOWN_SECONDS)
      && Coherent(pacer) && pacer.active == intervening
      && (recoveryWait.Some? ==>
            recoveryWait.value < RECOVERY_SECONDS && intervening && Recovered(current, thresholds))
      && SliderRange(thresholds)
    }

    /** The initial state of the component. */
    constructor ()
      ensures Valid()
      ensures !running && current == BASELINE && qhc == BASELINE_QHC && history == []
      ensures risk == Low && countdown == None && !intervening && pacer == STOPPED
      ensures thresholds == DEFAULT_THRESHOLDS && !watchConnected && recoveryWait == None
    {
      running := false;
      current := BASELINE;
      qhc := BASELINE_QHC;
      history := [];
      risk := Low;
      countdown := None;
      intervening := false;
      pacer := STOPPED;
      thresholds := DEFAULT_THRESHOLDS;
      watchConnected := false;
      recoveryWait := None;
    }

    /** The start/stop button: installs or removes the sample generator. */
    method ToggleRunning()
      requires Valid()
      modifies this
      ensures Valid()
      ensures running == !old(running)
      ensures current == old(current) && qhc == old(qhc) && history == old(history) && risk == old(risk)
      ensures countdown == old(countdown) && intervening == old(intervening) && pacer == old(pacer)
      ensures thresholds == old(thresholds) && watchConnected == old(watchConnected)
      ensures recoveryWait == old(recoveryWait)
    {
      running := !running;
    }

    /**
     * Store a new reading: it becomes the current reading, is appended to the
     * window, and is classified against the history as it stood before; a High
     * tier may start the countdown. The recovery effect then re-runs because the
     * current reading changed.
     */
    method Record(v: Reading, wave: real, now: int)
      requires Valid() && WaveInRange(wave)
      modifies this
      ensures Valid()
      ensures current == v && qhc == QhcAsWritten(v, wave)
      ensures history == Append(old(history), Point(now, v, qhc))
      ensures risk == Classify(v, old(history), thresholds).tier
      ensures countdown == AfterClassification(risk, old(countdown), intervening)
      ensures recoveryWait == Rearm(intervening, v, thresholds)
      ensures running == old(running) && intervening == old(intervening) && pacer == old(pacer)
      ensures thresholds == old(thresholds) && watchConnected == old(watchConnected)
    {
      var q := QhcAsWritten(v, wave);
      var point := Point(now, v, q);
      var assessment := Classify(v, history, thresholds);
      history := Append(history, point);
      risk := assessment.tier;
      countdown := AfterClassification(assessment.tier, countdown, intervening);
      current := v;
      qhc := q;
      recoveryWait := Rearm(intervening, v, thresholds);
    }

    /**
     * One 0.2-second tick of the sample generator, which runs only while started:
     * a random walk by `d`, or the fixed decay while intervening, clamped to the
     * valid ranges, then recorded.
     */
    method SampleTick(d: Delta, wave: real, now: int)
      requires Valid() && DeltaInRange(d) && WaveInRange(wave)
      modifies this
      ensures Valid()
      ensures !old(running) ==> unchanged(this)
      ensures old(running) ==>
        && current == SampleStep(old(current), d, old(intervening))
        && InRange(current)
        && qhc == QhcAsWritten(current, wave)
        && history == Append(old(history), Point(now, current, qhc))
        && risk == Classify(current, old(history), thresholds).tier
        && countdown == AfterClassification(risk, old(countdown), intervening)
        && recoveryWait == Rearm(intervening, current, thresholds)
      ensures running == old(running) && intervening == old(intervening) && pacer == old(pacer)
      ensures thresholds == old(thresholds) && watchConnected == old(watchConnected)
    {
      if running {
        var v := SampleStep(current, d, intervening);
        Record(v, wave, now);
      }
    }

    /**
     * A heart rate pushed by the watch: marks the watch connected, derives HRV and
     * EDA from it and records the reading (whether or not the generator runs).
     */
    method Push(hr: real, wave: real, now: int)
      requires Valid() && WaveInRange(wave)
      modifies this
      ensures Valid()
      ensures watchConnected
      ensures current == DeriveFromHr(hr) && qhc == QhcAsWritten(current, wave)
      ensures history == Append(old(history), Point(now, current, qhc))
      ensures risk == Classify(current, old(history), thresholds).tier
      ensures countdown == AfterClassification(risk, old(countdown), intervening)
      ensures recoveryWait == Rearm(intervening, current, thresholds)
      ensures running == old(running) && intervening == old(intervening) && pacer == old(pacer)
      ensures thresholds == old(thresholds)
    {
      watchConnected := true;
      Record(DeriveFromHr(hr), wave, now);
    }

    /**
     * An emotion preset: sets the reading directly and records it; the countdown is
     * then forced to 5 when HR is above 100 and cleared otherwise, overriding what
     * the classification did.
     */
    method SetEmotionState(hr: real, hrv: real, eda: real, wave: real, now: int)
      requires Valid() && WaveInRange(wave)
      modifies this
      ensures Valid()
      ensures current == Reading(hr, hrv, eda) && qhc == QhcAsWritten(current, wave)
      ensures history == Append(old(history), Point(now, current, qhc))
      ensures risk == Classify(current, old(history), thresholds).tier
      ensures countdown == if hr > 100.0 then Some(COUNTDOWN_SECONDS) else None
      ensures recoveryWait == Rearm(intervening, current, thresholds)
      ensures running == old(running) && intervening == old(intervening) && pacer == old(pacer)
      ensures thresholds == old(thresholds) && watchConnected == old(watchConnected)
    {
      Record(Reading(hr, hrv, eda), wave, now);
      countdown := if hr > 100.0 then Some(COUNTDOWN_SECONDS) else None;
    }

    /** The "agitated" preset: HR 110, HRV 30, EDA 8, which always starts the countdown. */
    method TriggerWarning(wave: real, now: int)
      requires Valid() && WaveInRange(wave)
      modifies this
      ensures Valid()
      ensures current == Reading(110.0, 30.0, 8.0) && qhc == QhcAsWritten(current, wave)
      ensures history == Append(old(history), Point(now, current, qhc))
      ensures risk == Classify(current, old(history), thresholds).tier
      ensures countdown == Some(COUNTDOWN_SECONDS)
      ensures recoveryWait == Rearm(intervening, current, thresholds)
      ensures running == old(running) && intervening == old(intervening) && pacer == old(pacer)
      ensures thresholds == old(thresholds) && watchConnected == old(watchConnected)
    {
      SetEmotionState(110.0, 30.0, 8.0, wave, now);
    }

    /**
     * One event of the countdown effect: a positive count drops by one after a
     * second; at 0 the intervention starts at once, the countdown is cleared and
     * the pacer starts with an inhale. The recovery effect re-runs only when the
     * intervention flag actually changes.
     */
    method CountdownTick()
      requires Valid()
      modifies this
      ensures Valid()
      ensures countdown == CountdownAfter(old(countdown))
      ensures Expired(old(countdown)) ==>
        && intervening && pacer == STARTED
        && recoveryWait == if old(intervening) then old(recoveryWait) else Rearm(true, current, thresholds)
      ensures !Expired(old(countdown)) ==>
        intervening == old(intervening) && pacer == old(pacer) && recoveryWait == old(recoveryWait)
      ensures running == old(running) && current == old(current) && qhc == old(qhc)
      ensures history == old(history) && risk == old(risk)
      ensures thresholds == old(thresholds) && watchConnected == old(watchConnected)
    {
      if Expired(countdown) {
        var wasIntervening := intervening;
        intervening := true;
        countdown := None;
        pacer := STARTED;
        if !wasIntervening {
          recoveryWait := Rearm(true, current, thresholds);
        }
      } else {
        countdown := CountdownAfter(countdown);
      }
    }

    /**
     * One second passes on the recovery timer: on its third second it ends the
     * intervention and stops the pacer; otherwise it only advances.
     */
    method RecoveryTick()
      requires Valid()
      modifies this
      ensures Valid()
      ensures RecoveryFires(old(recoveryWait)) ==> !intervening && pacer == STOPPED && recoveryWait == None
      ensures !RecoveryFires(old(recoveryWait)) ==>
        intervening == old(intervening) && pacer == old(pacer) && recoveryWait == RecoveryAfter(old(recoveryWait))
      ensures running == old(running) && current == old(current) && qhc == old(qhc)
      ensures history == old(history) && risk == old(risk) && countdown == old(countdown)
      ensures thresholds == old(thresholds) && watchConnected == old(watchConnected)
    {
      if RecoveryFires(recoveryWait) {
        intervening := false;
        pacer := STOPPED;
        recoveryWait := None;
      } else {
        recoveryWait := RecoveryAfter(recoveryWait);
      }
    }

    /** One four-second event of the breathing pacer's interval. */
    method BreathToggle()
      requires Valid()
      modifies this
      ensures Valid()
      ensures pacer == Toggle(old(pacer))
      ensures running == old(running) && current == old(current) && qhc == old(qhc)
      ensures history == old(history) && risk == old(risk) && countdown == old(countdown)
      ensures intervening == old(intervening) && recoveryWait == old(recoveryWait)
      ensures thresholds == old(thresholds) && watchConnected == old(watchConnected)
    {
      pacer := Toggle(pacer);
    }

    /**
     * Return to normal: baseline reading and score, empty history, no countdown,
     * no intervention, pacer stopped. The risk tier, the thresholds, the running
     * flag and the watch flag are kept.
     */
    method Reset()
      requires Valid()
      modifies this
      ensures Valid()
      ensures current == BASELINE && qhc == BASELINE_QHC && history == []
      ensures countdown == None && !intervening && pacer == STOPPED && recoveryWait == None
      ensures running == old(running) && risk == old(risk)
      ensures thresholds == old(thresholds) && watchConnected == old(watchConnected)
    {
      current := BASELINE;
      qhc := BASELINE_QHC;
      history := [];
      countdown := None;
      intervening := false;
      pacer := STOPPED;
      recoveryWait := None;
    }

    /**
     * A threshold slider moved. The classifier is not re-run; the recovery effect
     * is, because the thresholds changed.
     */
    method SetThresholds(t: Thresholds)
      requires Valid() && SliderRange(t)
      modifies this
      ensures Valid()
      ensures thresholds == t
      ensures recoveryWait == Rearm(intervening, current, t)
      ensures running == old(running) && current == old(current) && qhc == old(qhc)
      ensures history == old(history) && risk == old(risk) && countdown == old(countdown)
      ensures intervening == old(intervening) && pacer == old(pacer) && watchConnected == old(watchConnected)
    {
      thresholds := t;
      recoveryWait := Rearm(intervening, current, t);
    }
  }
}
