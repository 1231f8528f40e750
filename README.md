# HeartMelody detection engine, modelled in Dafny

This project models the signal-to-risk engine of the HeartMelody monitor
(`src/components/HeartMelodySystem.tsx`). The monitor tracks heart rate (HR),
heart-rate variability (HRV) and electrodermal activity (EDA). It computes a
stability score (QHC) and classifies each reading as Low, Medium or High risk.
A High reading starts a five-second warning countdown. When the countdown
expires, an intervention starts: a breathing pacer plus a decay of the
simulated signals. The intervention ends once a recovered reading has held
for three seconds.

Modules, smallest first:

- `Util`: the `Option` type, standing for the source's `number | null`.
- `Signals`: the `Reading` datatype and the clamps. Also the score, in its
  as-written form and its corrected form (see Findings), one step of the
  sample generator with its closed form while intervening, and the HRV/EDA
  derivation for a heart rate pushed by the watch.
- `Window`: the `Point` datatype and the 200-point history window
  (`[...prev.slice(-199), point]`).
- `Risk`: the thresholds, the trends over the last five points, the
  precedence-ordered classifier and the countdown guard of `detectRisk`.
- `Episode`: the timer-driven parts as step functions: the warning
  countdown, the recovery-confirmation timer and the breathing pacer.
- `HeartMelody`: class `Session`. It holds the component's state fields as
  class fields: `currentValues`, `data`, `riskLevel`, `warningCountdown`,
  `isIntervening`, `isBreathingCycle`/`breathingScale`, `thresholds`,
  `watchConnected` and `isRunning`. Each event is a method: a generator tick,
  a watch push, an emotion preset, a countdown second, a recovery second, a
  pacer toggle, a reset, a slider move and start/stop. Every method keeps
  `Valid()` and states the whole new state in terms of the functions above.
- `Scenarios`: client methods that drive a `Session` through whole episodes
  using only the method contracts.

Inputs the engine takes from its environment are method parameters. These
are the random deltas (`Delta`, bounded as `Math.random()` makes them), the
oscillation term `wave` (bounded by ±0.05, the range of
`Math.sin(...) * 0.05`) and the time stamp `now`.

Behaviour of the code worth knowing:

- The trends divide by `recent.length * 0.2` (one second).
- The countdown passes through 0. A countdown event at 5, 4, 3, 2 and 1
  decrements it one second later. The event at 0 runs at once: it starts the
  intervention and clears the countdown, five seconds after the warning.
- `!warningCountdown` is JavaScript truthiness, so a countdown standing at 0
  counts as not pending (`Risk.Pending`). A High reading at that moment
  starts a fresh countdown of 5.
- The recovery effect depends on the current-values object. Every new
  reading therefore cancels the pending three-second timer and, if the
  reading is still a recovered one, starts a new timer. While the generator
  runs (a new reading every 0.2 s) the timer never completes. The
  intervention ends only after readings stop for three seconds
  (`Scenarios.SamplingRestartsRecovery`, `Episode.SamplingNeverConfirms`; see
  Findings).
- An emotion preset forces the countdown to 5 when HR exceeds 100 and
  clears it otherwise. It does this whatever the classifier decided, and
  even during an intervention.
- A reset does not touch the displayed risk tier or the thresholds.

## Model

| member | source | states |
|---|---|---|
| `Signals.InRange` | src/components/HeartMelodySystem.tsx:224-226 | a reading is valid when HR is in [60, 140], HRV in [20, 80] and EDA in [1, 10], the ranges of the clamps |
| `Signals.Clamp` | src/components/HeartMelodySystem.tsx:224-226 | the result lies in [lo, hi]; it is the input when the input is inside, otherwise the bound it crossed |
| `Signals.ClampReading` | src/components/HeartMelodySystem.tsx:223-226 | each channel is clamped to its own range (hr 60–140, hrv 20–80, eda 1–10) independently of the others, so the result is valid, and a valid reading is left as it is |
| `Signals.Normalize` | src/components/HeartMelodySystem.tsx:82 | lo normalises to 0, hi to 1, and values between them into [0, 1] |
| `Signals.NormalizeMonotone` | src/components/HeartMelodySystem.tsx:82 | a larger value never normalises to a smaller fraction |
| `Signals.HrvStrain` | src/components/HeartMelodySystem.tsx:91 | the inverted HRV term is 1 at HRV 20, 0 at HRV 80, and in [0, 1] between them |
| `Signals.BaseQhcAsWritten` | src/components/HeartMelodySystem.tsx:95 | the unclamped score as written lies in [0.3, 1.3] for a valid reading |
| `Signals.WaveInRange` | src/components/HeartMelodySystem.tsx:96 | the oscillation term lies in [−0.05, 0.05], the range of `Math.sin(...) * 0.05` |
| `Signals.QhcAsWritten` | src/components/HeartMelodySystem.tsx:80-99 | the score as the source computes it lies in [0, 1] for any reading and oscillation; it equals base + wave when that is inside [0, 1], else the bound it crossed |
| `Signals.QhcAsWrittenRewardsLowHrv` | src/components/HeartMelodySystem.tsx:89-95 | as written, HRV 20 scores 1 and HRV 80 scores under 0.82 at equal HR and EDA: the opposite of the stated intent that higher HRV is better |
| `Signals.BaseQhcDocumented` | src/components/HeartMelodyDoc.tsx:397 | the formula printed in the documentation panel (HRV normalised, not inverted, and added) lies in [0.3, 1.3] for a valid reading and is 0.3 at the most strained corner, so it never reaches the documented 0 |
| `Signals.BaseQhcCorrection` | src/components/HeartMelodySystem.tsx:91-95 | the corrected base score differs from the as-written one by exactly twice the weighted inverted-HRV term, and the two agree at the top of the HRV range; the documented formula is the corrected one plus 0.3 |
| `Signals.Qhc` | src/components/HeartMelodySystem.tsx:80-99 | the corrected score lies in [0, 1] and equals the base plus the oscillation when that is inside [0, 1], else clamps to the crossed bound |
| `Signals.QhcNearBase` | src/components/HeartMelodySystem.tsx:96-98 | the oscillation moves the corrected score by at most 0.05 from its clamped base score |
| `Signals.QhcMonotone` | src/components/HeartMelodySystem.tsx:89-95 | higher HR or EDA never raises the corrected score, and higher HRV never lowers it |
| `Signals.QhcOfValidReading` | src/components/HeartMelodySystem.tsx:84-98 | for valid readings the corrected base score is in [0, 1], is 1 at the calmest and 0 at the most strained corner, and the corrected score is within 0.05 of it |
| `Signals.DeltaInRange` | src/components/HeartMelodySystem.tsx:214-216 | the random changes lie in [−1, 1) for HR and HRV and in [−0.05, 0.05) for EDA, the ranges of `(Math.random() - 0.5) * 2` and `* 0.1` |
| `Signals.Decay` | src/components/HeartMelodySystem.tsx:219-221 | the intervention step lowers HR by 0.5 and EDA by 0.05 and raises HRV by 0.3 |
| `Signals.SampleStep` | src/components/HeartMelodySystem.tsx:212-226 | a tick always yields a valid reading, moving a valid one by at most 1 / 1 / 0.05. While intervening it is the channel-wise clamp of the decay step, so from a valid reading it never raises HR or EDA nor lowers HRV; otherwise it is the channel-wise clamp of prev + delta |
| `Signals.DecayStepsClosedForm` | src/components/HeartMelodySystem.tsx:218-226 | after n intervention ticks from a valid reading: hr = max(60, hr−0.5n), hrv = min(80, hrv+0.3n), eda = max(1, eda−0.05n) |
| `Signals.DecayReachesCalm` | src/components/HeartMelodySystem.tsx:218-226 | 160 intervention ticks bring any valid reading to HR 60, HRV ≥ 68, EDA ≤ 2 (inside the recovery region for every slider setting) |
| `Signals.DeriveFromHr` | src/components/HeartMelodySystem.tsx:59-60 | the pushed HR is kept. Up to 100 bpm, HRV is 55 and EDA 3.5. Above 100 bpm, HRV lies in [30, 45) and EDA in (5.5, 8]. HRV sits at its floor of 30 exactly from 130 bpm, EDA at its cap of 8 exactly from 125 bpm |
| `Signals.DeriveMonotone` | src/components/HeartMelodySystem.tsx:59-60 | a higher pushed HR never gives a higher HRV or a lower EDA |
| `Signals.DeriveAt120` | src/components/HeartMelodySystem.tsx:59-60 | 120 bpm derives HRV 35 and EDA 7.5 |
| `Window.LastN` | src/components/HeartMelodySystem.tsx:71 | `slice(-n)` for n ≥ 1 (the model uses 5, 199 and 200): the last min(n, length) elements, in order |
| `Window.Append` | src/components/HeartMelodySystem.tsx:238 | the window grows by one up to 200 entries; the new point is last, and the entries before it are the previous last ≤199 in their original order. Nothing is evicted below capacity |
| `Window.AppendIsLast200` | src/components/HeartMelodySystem.tsx:238 | appending equals taking the last 200 of the extended sequence |
| `Window.AppendAllIsLast200` | src/components/HeartMelodySystem.tsx:238 | after any number of appends the window is exactly the last 200 of all points, in arrival order, and never exceeds 200 |
| `Risk.HrOver` | src/components/HeartMelodySystem.tsx:106 | HR strictly above its threshold |
| `Risk.HrvUnder` | src/components/HeartMelodySystem.tsx:107 | HRV strictly below its threshold |
| `Risk.EdaOver` | src/components/HeartMelodySystem.tsx:108 | EDA strictly above its threshold |
| `Risk.HrRising` | src/components/HeartMelodySystem.tsx:119 | the HR trend strictly above 0.9 per second |
| `Risk.HrvFalling` | src/components/HeartMelodySystem.tsx:120 | the HRV trend strictly below −0.35 per second |
| `Risk.SliderRange` | src/components/HeartMelodySystem.tsx:544-568 | the slider ranges: HR threshold in [80, 120], HRV in [20, 50], EDA in [4, 8] |
| `Risk.TrendsOf` | src/components/HeartMelodySystem.tsx:110-117 | with fewer than 5 points both trends are 0; otherwise each trend is newest minus oldest of the last 5 points (per one second) |
| `Risk.Classify` | src/components/HeartMelodySystem.tsx:102-128 | High iff HR over, EDA over, or HR rising with HRV falling. Medium iff not High and (HRV under or either trend flag). The trends are those of the history before the new point |
| `Risk.ShortHistoryUsesThresholdsOnly` | src/components/HeartMelodySystem.tsx:110-128 | with fewer than 5 points: High iff HR or EDA over, Medium iff only HRV under, Low iff no threshold breached |
| `Risk.ClassifyIgnoresOlderHistory` | src/components/HeartMelodySystem.tsx:113-117 | points older than the last five never change the classification |
| `Risk.StricterThresholdsNeverLowerTier` | src/components/HeartMelodySystem.tsx:105-128 | tightening any threshold never lowers the tier of a reading |
| `Risk.WorseReadingNeverLowerTier` | src/components/HeartMelodySystem.tsx:105-128 | a reading with higher HR and EDA and lower HRV never gets a lower tier |
| `Risk.Pending` | src/components/HeartMelodySystem.tsx:133 | a countdown is pending when it is set and not 0 (the truthiness of `warningCountdown`) |
| `Risk.AfterClassification` | src/components/HeartMelodySystem.tsx:132-135 | the countdown changes only to a fresh 5, and a High tier does that exactly when no countdown is pending (null or 0) and no intervention runs; otherwise it is untouched |
| `Episode.Expired` | src/components/HeartMelodySystem.tsx:145 | the countdown stands at 0 (`warningCountdown === 0`) |
| `Episode.CountdownAfter` | src/components/HeartMelodySystem.tsx:139-148 | a positive countdown drops by exactly 1; at 0 (intervention starts) or none, it becomes none |
| `Episode.CountdownRunsDown` | src/components/HeartMelodySystem.tsx:139-144 | from n, k ≤ n events give n−k, never skipping a value, and the countdown is expired exactly after n events |
| `Episode.WarningCountdown` | src/components/HeartMelodySystem.tsx:133-148 | 5 events bring the warning from 5 to 0 with no expiry before; the sixth clears it |
| `Episode.CountdownNoneStays` | src/components/HeartMelodySystem.tsx:139-148 | an expired countdown is cleared by the next event, and no countdown stays none |
| `Episode.Recovered` | src/components/HeartMelodySystem.tsx:194 | HR strictly below its threshold, HRV above 40 and EDA below 5 |
| `Episode.Rearm` | src/components/HeartMelodySystem.tsx:191-206 | re-running the recovery effect leaves a timer, at 0 s, exactly when intervening on a recovered reading |
| `Episode.RecoveryFires` | src/components/HeartMelodySystem.tsx:196-202 | the next second completes the 3000 ms timeout of a pending timer |
| `Episode.RecoveryAfter` | src/components/HeartMelodySystem.tsx:196-203 | a second on a pending timer advances it by one, and on its third second it ends; no timer stays none |
| `Episode.RecoveryConfirmation` | src/components/HeartMelodySystem.tsx:194-203 | a freshly armed timer reads k after k undisturbed seconds and fires on the third second, not before |
| `Episode.SamplingNeverConfirms` | src/components/HeartMelodySystem.tsx:191-206 | as written, while readings keep arriving the timer never fires, for any sequence of readings (such as the changing decay readings) that are all recovered |
| `Episode.RearmIntended` | src/components/HeartMelodySystem.tsx:191-206 | the intended re-arm keeps a running timer while the reading stays recovered, starts one at 0 s on the first recovered reading while intervening, and cancels it otherwise |
| `Episode.IntendedConfirmsOnThirdSecond` | src/components/HeartMelodySystem.tsx:191-206 | with the intended re-arm, any sequence of three or more recovered readings, one per second, ends the intervention while the generator runs, and its first two do not |
| `Episode.Toggle` | src/components/HeartMelodySystem.tsx:163-175 | a running pacer flips its phase and sets 0.8 on inhale and 1.2 on exhale; a stopped one does not change; coherence is kept |
| `Episode.PacerAlternates` | src/components/HeartMelodySystem.tsx:159-175 | a started pacer is inhaling at 0.8 after an even number of toggles and exhaling at 1.2 after an odd number |
| `Episode.StoppedPacerStaysStopped` | src/components/HeartMelodySystem.tsx:181-188 | after a stop, no number of toggle events changes the pacer |
| `HeartMelody.Session.constructor` | src/components/HeartMelodySystem.tsx:13-34 | initial state: stopped, baseline 80/55/3.5 with score 0.85, empty history, Low, no countdown, not intervening, pacer at rest, thresholds 100/35/6.0 |
| `HeartMelody.Session.ToggleRunning` | src/components/HeartMelodySystem.tsx:457 | flips the running flag and nothing else |
| `HeartMelody.Session.Record` | src/components/HeartMelodySystem.tsx:228-241 | the reading becomes current with its score as the source computes it (`QhcAsWritten`) and is appended to the window. It is classified against the previous history, the countdown guard is applied, and the recovery timer is re-armed |
| `HeartMelody.Session.SampleTick` | src/components/HeartMelodySystem.tsx:208-248 | only while running: the new reading is `SampleStep` of the old one, so it is valid, and it is recorded as above; stopped, nothing changes |
| `HeartMelody.Session.Push` | src/components/HeartMelodySystem.tsx:55-77 | marks the watch connected and records the reading derived from the pushed HR, running or not |
| `HeartMelody.Session.SetEmotionState` | src/components/HeartMelodySystem.tsx:334-359 | records the given reading, then sets the countdown to 5 if HR > 100 and clears it otherwise |
| `HeartMelody.Session.TriggerWarning` | src/components/HeartMelodySystem.tsx:362-364 | records 110/30/8 and the countdown is 5 |
| `HeartMelody.Session.CountdownTick` | src/components/HeartMelodySystem.tsx:139-160 | the countdown follows `CountdownAfter`. At 0 the session is intervening with the pacer started in inhale at 0.8. The recovery timer is re-armed only if the intervention flag changed |
| `HeartMelody.Session.RecoveryTick` | src/components/HeartMelodySystem.tsx:191-206 | on the timer's third second, the intervention ends and the pacer stops (scale 1); otherwise the timer advances |
| `HeartMelody.Session.BreathToggle` | src/components/HeartMelodySystem.tsx:163-175 | the pacer follows `Toggle`, nothing else changes |
| `HeartMelody.Session.Reset` | src/components/HeartMelodySystem.tsx:367-376 | from any state: baseline 80/55/3.5 with score 0.85, empty history, no countdown, not intervening, pacer stopped at scale 1, no recovery timer |
| `HeartMelody.Session.SetThresholds` | src/components/HeartMelodySystem.tsx:542-571 | stores the slider values and re-runs the recovery effect, not the classifier |
| `Scenarios.Escalation` | src/components/HeartMelodySystem.tsx:133-156 | the agitated preset gives countdown 5; five one-second events pass through 4, 3, 2, 1 to 0 without starting an intervention, and the event at 0, which takes no time, starts it with the pacer inhaling |
| `Scenarios.WarnAndWait` | src/components/HeartMelodySystem.tsx:139-160 | the agitated preset plus six countdown events leaves the session intervening with the pacer started |
| `Scenarios.RecoveryDebounce` | src/components/HeartMelodySystem.tsx:191-206 | a recovery reading held one second and then lost does not end the intervention; held three undisturbed seconds it does, and the pacer stops |
| `Scenarios.SamplingRestartsRecovery` | src/components/HeartMelodySystem.tsx:191-248 | a generator tick during an intervention restarts a two-second-old recovery timer at 0 |
| `Scenarios.PushHighHeartRate` | src/components/HeartMelodySystem.tsx:55-77 | pushing 120 bpm to a fresh session gives 120/35/7.5, tier High and countdown 5, and marks the watch connected |

## Left out

- Canvas chart drawing and all JSX rendering (`HeartMelodySystem.tsx:250-331`, `378-743`): presentation only.
- Audio `play()`/`pause()`: calls into the browser. In the source the `<audio>` element is rendered only while intervening, so the `play()` issued as an intervention starts finds no element, unless an intervention is already running when the countdown expires again (`HeartMelodySystem.tsx:635`, `661`).
- The global `window.updateFromNative` bridge and its lifecycle, including its `hr !== undefined` filter: platform glue. `Session.Push` stands for a call that passes a number.
- `Math.random`, `Math.sin(Date.now() ...)` and `Date.now()`: they are the parameters `Delta`, `wave` and `now`, bounded as the source produces them.
- Timer scheduling: each timer event is a separate method call. A countdown event at 5 down to 1 stands for a full second and the event at 0 for none, so the restart of the one-second timeout when the countdown is set to a new value mid-second is not modelled.
- Session.Push: uses the current thresholds, history, countdown and intervention flag. In the source `handleWatchData` is memoised once (`useCallback(..., [])`), so its `detectRisk` is the first render's: default thresholds, empty history, no countdown, not intervening. In the source every push above 100 bpm therefore sets the countdown to a fresh 5 even during a countdown or an intervention, so High pushes less than five seconds apart never let an intervention start, and pushed readings are classified against the default thresholds rather than the sliders. This stale closure is not modelled.
- The second breathing interval: if an intervention starts again while one runs (a preset sets the countdown during an intervention), `startBreathingGuide` installs a second interval and the first one is no longer cleared by a stop. The model keeps a single pacer.
- Floating point: all values are reals. Binary64 rounding of the decay steps and of the derived HRV/EDA is not modelled.
- Session.SetThresholds: requires the slider ranges. The sliders also produce whole numbers for HR and HRV and steps of 0.1 for EDA; that granularity is not stated.
- The two documentation components (`HeartBridgeGuide.tsx`, `HeartMelodyDoc.tsx`) and page navigation (`App.tsx`) are not modelled as behaviour; `HeartMelodyDoc.tsx` is cited only for the intended score and timeline. The Swift shown in the guide is a display string.

## Findings

| source | as written | input that shows it | evidently intended | confidence | as-written member | corrected member |
|---|---|---|---|---|---|---|
| src/components/HeartMelodySystem.tsx:95 | `baseQHC = 1 - alpha1*zHR + alpha2*zHRV - alpha3*zEDA` adds the inverted HRV term `zHRV = 1 - z(hrv)`, which is high when HRV is low | HR 80, EDA 3.5: HRV 20 scores 1.0, HRV 80 scores about 0.82 | subtract the inverted HRV term like the other two strain terms (the comments and `HeartMelodyDoc.tsx:18` say falling HRV means rising anxiety). The weights then sum to 1 and a valid reading scores in [0, 1], 1 when calmest and 0 when most strained, the scale of `HeartMelodyDoc.tsx:376-390`. The documentation's own formula (`HeartMelodyDoc.tsx:397`, plain z(HRV) added) is the same score plus 0.3 and never goes below 0.3 | medium, not executed | `Signals.QhcAsWritten`, `Signals.QhcAsWrittenRewardsLowHrv` | `Signals.Qhc`, `Signals.QhcMonotone`, `Signals.BaseQhcDocumented` |
| src/components/HeartMelodySystem.tsx:206 | the recovery effect depends on `currentValues`, so each new reading cancels and restarts the three-second timer | the generator running during an intervention with every reading recovered: a reading every 0.2 s, the timer never fires | a timer that keeps running while readings stay recovered, so that the intervention ends three seconds after recovery (the timeline of `HeartMelodyDoc.tsx:264-274` ends the intervention once values recover) | medium, not executed | `Scenarios.SamplingRestartsRecovery`, `Episode.SamplingNeverConfirms` | `Episode.RearmIntended`, `Episode.IntendedConfirmsOnThirdSecond` |

The session follows the code as written in both rows: it stores the score
`QhcAsWritten` computes and re-arms the recovery timer with `Rearm`. The
corrected definitions sit beside them with their properties proved. The score
is only stored and shown; the classifier never reads it, so the first row
changes no risk or episode decision.
