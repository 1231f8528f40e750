/**
 * Episodes driven through the session's methods, using only their contracts:
 * what a driver of the timers can rely on.
 */
module Scenarios {
  import opened Util
  import opened Signals
  import opened Risk
  import opened Episode
  import opened HeartMelody

  /**
   * The agitated preset starts the five-second warning; five countdown events
   * bring it to 0 without an intervention, and the next one starts the
   * intervention with the pacer inhaling.
   */
  method Escalation(wave: real, now: int) returns (warned: Option<nat>, interveningAtZero: bool, intervening: bool, pacer: Pacer)
    requires WaveInRange(wave)
    ensures warned == Some(5)
    ensures !interveningAtZero
    ensures intervening && pacer == STARTED
  {
    var s := new Session();
    s.TriggerWarning(wave, now);
    warned := s.countdown;
    s.CountdownTick();
    s.CountdownTick();
    s.CountdownTick();
    s.CountdownTick();
    s.CountdownTick();
    assert s.countdown == Some(0);
    interveningAtZero := s.intervening;
    s.CountdownTick();
    intervening, pacer := s.intervening, s.pacer;
  }

  /** The agitated preset followed by six countdown events leaves the session intervening. */
  method WarnAndWait(s: Session, wave: real, now: int)
    requires s.Valid() && WaveInRange(wave)
    modifies s
    ensures s.Valid() && s.intervening && s.pacer == STARTED && s.countdown == None
    ensures s.thresholds == old(s.thresholds) && s.running == old(s.running)
  {
    s.TriggerWarning(wave, now);
    s.CountdownTick(); s.CountdownTick(); s.CountdownTick();
    s.CountdownTick(); s.CountdownTick();
    assert s.countdown == Some(0);
    s.CountdownTick();
  }

  /**
   * With the default thresholds, a recovery reading (HR 85, HRV 55, EDA 3) held for
   * one second and then lost does not end the intervention during the three seconds
   * of the bad reading; held for three undisturbed seconds it does.
   */
  method RecoveryDebounce(wave: real, now: int) returns (afterRelapse: bool, afterRecovery: bool, pacer: Pacer)
    requires WaveInRange(wave)
    ensures afterRelapse
    ensures !afterRecovery && pacer == STOPPED
  {
    var s := new Session();
    WarnAndWait(s, wave, now);
    s.SetEmotionState(85.0, 55.0, 3.0, wave, now);
    assert s.recoveryWait == Some(0);
    s.RecoveryTick();
    s.SetEmotionState(110.0, 30.0, 8.0, wave, now);
    assert s.recoveryWait == None;
    s.RecoveryTick(); s.RecoveryTick(); s.RecoveryTick();
    afterRelapse := s.intervening;
    s.SetEmotionState(85.0, 55.0, 3.0, wave, now);
    s.RecoveryTick(); s.RecoveryTick();
    assert s.intervening;
    s.RecoveryTick();
    afterRecovery, pacer := s.intervening, s.pacer;
  }

  /**
   * While the generator runs the recovery timer never completes: every sample
   * tick replaces the current reading, which restarts the timer, so two seconds
   * of waiting followed by a tick leave it where it started.
   */
  method SamplingRestartsRecovery(d: Delta, wave: real, now: int) returns (wait: Option<nat>, intervening: bool)
    requires DeltaInRange(d) && WaveInRange(wave)
    ensures intervening
    ensures wait == Some(0)
  {
    var s := new Session();
    s.ToggleRunning();
    WarnAndWait(s, wave, now);
    s.SetEmotionState(85.0, 55.0, 3.0, wave, now);
    s.RecoveryTick(); s.RecoveryTick();
    assert s.recoveryWait == Some(2);
    s.SampleTick(d, wave, now);
    assert s.current == Reading(84.5, 55.3, 2.95);
    wait, intervening := s.recoveryWait, s.intervening;
  }

  /**
   * A pushed heart rate of 120 bpm from a fresh session gives HRV 35 and EDA 7.5,
   * is classified High (it exceeds the default HR threshold) and starts the
   * countdown.
   */
  method PushHighHeartRate(wave: real, now: int) returns (current: Reading, risk: Tier, countdown: Option<nat>, connected: bool)
    requires WaveInRange(wave)
    ensures current == Reading(120.0, 35.0, 7.5)
    ensures risk == High && countdown == Some(5) && connected
  {
    var s := new Session();
    s.Push(120.0, wave, now);
    DeriveAt120();
    current, risk, countdown, connected := s.current, s.risk, s.countdown, s.watchConnected;
  }
}
