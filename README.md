# SafeWay driver-monitoring core in Dafny

SafeWay watches a driver through a camera. Three pieces of sequential logic decide what it reports on each frame; this project models them and proves their rules:

- **`StateAnalyzer.analyze`** (`state_analyzer.dfy`, module `StateAnalysis`). This is the per-frame driver-state machine.
  - It keeps three timers: absence, eyes closed and gaze to one side.
  - It keeps bounded histories: blink times (30), yawn times (100), head positions (10) and eye-state changes (20).
  - It has seven rules. From one frame's face results, the phone signal and the time it produces an ordered alert list and the seven-flag `current_state`.
  - The class `StateAnalyzer` updates its fields block by block, as `analyze` does. Each block is a method: `TrackAbsence`, `TrackBlinks` and so on.
  - `Analyze` is proved to agree with the pure function `Next`. `Next` is in turn proved equal to a rule-by-rule `Reference` (`NextMatchesReference`).
  - The rules themselves are lemmas about `Next`, in `state_rules.dfy` (module `StateRules`).
- **`AlertManager.trigger_alert`** (`alert_manager.dfy`, module `AlertDispatch`). This is the dispatch layer.
  - It picks the canonical message of each known type from `ALERT_MESSAGES`.
  - It applies a 3 s per-type cooldown and a 5 s repeated-speech filter.
  - It maps severity to a tone and to a colour palette.
  - The class `AlertManager` holds the manager's fields, and `TriggerAlert` is proved against the function `Trigger`.
  - Sound, drawing and speech are not performed. An accepted alert returns what the manager would play, draw and say (`Effects`), and a frame is the list of banners drawn on it.
- **The main loop of `cli_demo.main`** (`frame_loop.dfy`, module `FrameLoop`). Only its bookkeeping is modelled:
  - consecutive read failures, with the cutoff at 10;
  - `frame_count`;
  - YOLO on every third frame, with the cached answer in between;
  - the in-order hand-off of alerts to `trigger_alert`, with the frame threaded through;
  - the status banner;
  - the detection-error fallback;
  - the 'q' key.

  Each turn's camera read, detector outputs, key code and clock readings are inputs (`Tick`). `MainLoop` runs the two components over a sequence of ticks and is proved equal to the fold `Run`. The loop's lemmas are stated for any analysis function (`Analyser`). Those that need the analyzer's rules require `Agrees`, which says the function is the analyzer's `Next`. `MainLoop` uses `AnalyzerSpec`, which satisfies `Agrees`.

Supporting modules:
- `settings.dfy`: the thresholds of `config/settings.py`.
- `alerts.dfy`: the alert dictionary, with each key optional.
- `bounded_deque.dfy`: `deque(maxlen=n)` as a value.
- `decimal.dfy`: the digits of the yawn count in the alert message.
- `bits.dfy`: Python's `&` with a non-negative mask, for the 'q' key test.
- `wrappers.dfy`: `Option`.

Time is a `real` number of seconds passed in as `now`. The comparisons keep the source's form (`(now - start) * 1000 > 2500`, `len / window < 0.15`, `now - ts <= 60`), but on exact reals rather than doubles (see "## Left out").

Behaviours of the code worth knowing, each proved:
- **Two `fatigue` alerts in one call.** The blink rule's guard reads `fatigue_detected` (safeway/ai/state_analyzer.py:118). That flag was reset at the start of the call and is set only later, by the eyes-closed rule, so the guard never holds anything back. A call with a low blink rate and eyes closed too long carries both alerts, the blink-rate one first (`TwoFatigueAlertsInOneCall`). At dispatch, the cooldown lets at most one of them through when both calls fall inside 3 s (`FrameDispatchesEachTypeOnce`).
- **Speech filter.** The 5 s repeated-speech filter applies to every accepted alert. The canonical yawn message replaces the counted one, so the spoken text never changes with the count (`YawnCountNeverShown`).
- **Forty pushes into the 30-entry blink deque.** The oldest entry left is the 11th push (`FortyPushesIntoThirty`).

## Model

| member | source | states |
|---|---|---|
| `StateAnalysis.StateAnalyzer.constructor` | safeway/ai/state_analyzer.py:27-57 | The fields start as `__init__` sets them: no timers, empty deques, last eye state open, all seven flags false. |
| `StateAnalysis.StateAnalyzer.Analyze` | safeway/ai/state_analyzer.py:59-212 | The new fields and the returned analysis are those of `Next` on the old fields, and the deques stay within their capacities. |
| `StateAnalysis.StateAnalyzer.TrackAbsence` | safeway/ai/state_analyzer.py:85-99 | The absence block: the timer starts on the first faceless frame, the alert and flag come once it is more than 2500 ms old, and a face clears it. |
| `StateAnalysis.StateAnalyzer.TrackBlinks` | safeway/ai/state_analyzer.py:102-123 | The blink block: a closed-to-open transition appends a blink, and the eye state and log are updated. A rate below 0.15 sets the flag and appends the alert unless `fatigue_detected` is set. |
| `StateAnalysis.StateAnalyzer.TrackClosedEyes` | safeway/ai/state_analyzer.py:125-138 | The eyes-closed block: closed eyes start or keep the timer, and the alert and flag come past 1200 ms. Open eyes clear the timer. |
| `StateAnalysis.StateAnalyzer.TrackYawns` | safeway/ai/state_analyzer.py:140-159 | The yawn block: an open mouth appends a time and sets `yawn_detected`. At least two recent yawns append one counted alert unless one is already in the list. |
| `StateAnalysis.StateAnalyzer.TrackHeadMovement` | safeway/ai/state_analyzer.py:161-176 | The head block: the entry is appended, and four changes among the newest five set the flag and append the alert. |
| `StateAnalysis.StateAnalyzer.TrackGaze` | safeway/ai/state_analyzer.py:178-197 | The gaze block: a side run starts, restarts on a new side, or alerts past 1500 ms on the same side. Centre or down clears it. |
| `StateAnalysis.Next` | safeway/ai/state_analyzer.py:31-46 | One call keeps every deque within its capacity, and a gaze start is present exactly when a gaze side is. |
| `StateAnalysis.Recent` | safeway/ai/state_analyzer.py:147-150 | The recent yawns are the stored times at most 60 s before `now`, each as often as it is stored, so their count is what `len(recent_yawns)` reads. |
| `StateAnalysis.LastFive` | safeway/ai/state_analyzer.py:167 | Five positions: the positions of the five newest head entries, oldest first. |
| `StateAnalysis.Changes` | safeway/ai/state_analyzer.py:168-169 | The number of differing adjacent pairs is at most one less than the length. |
| `StateAnalysis.BlinkStageForm` | safeway/ai/state_analyzer.py:106-123 | With `fatigue_detected` clear, the blink block appends the blink-rate alert exactly when the rate is low. |
| `StateAnalysis.ClosedEyesStageForm` | safeway/ai/state_analyzer.py:125-138 | The eyes-closed block in closed form: timer held or cleared, alert and flag exactly when held over 1200 ms. |
| `StateAnalysis.YawnStageForm` | safeway/ai/state_analyzer.py:141-159 | The yawn block in closed form: yawn recorded on an open mouth, alert by the guarded count. |
| `StateAnalysis.HeadStageForm` | safeway/ai/state_analyzer.py:162-176 | The head block in closed form: entry appended, alert and flag exactly on excessive movement. |
| `StateAnalysis.GazeStageForm` | safeway/ai/state_analyzer.py:178-197 | The gaze block in closed form: the run after the frame and an alert exactly when the same side is held over 1500 ms. |
| `StateAnalysis.EarlyFaceStages` | safeway/ai/state_analyzer.py:85-138 | With a face, the absence, blink and closed-eyes blocks leave the fields and alerts the rules call for. |
| `StateAnalysis.LateFaceStages` | safeway/ai/state_analyzer.py:140-197 | The yawn, head and gaze blocks together, on any fields and alert list. |
| `StateAnalysis.FaceStagesMatchReference` | safeway/ai/state_analyzer.py:102-197 | With a face in view, the face blocks produce the rule-by-rule fields and alerts. |
| `StateAnalysis.FacelessStageMatchesReference` | safeway/ai/state_analyzer.py:85-99 | Without a face, only the absence block acts, as the reference says. |
| `StateAnalysis.PhoneStageMatchesReference` | safeway/ai/state_analyzer.py:199-206 | The phone block runs last, on top of the other rules, and sets `phone_detected` from the signal. |
| `StateAnalysis.NextMatchesReference` | safeway/ai/state_analyzer.py:118 | The step-by-step `analyze` equals the rule-by-rule reference, in which the blink-rate rule has no `fatigue_detected` guard. So that guard never suppresses an alert. |
| `StateRules.NoYawnBeforeYawnRule` | safeway/ai/state_analyzer.py:154 | No rule before the yawn rule raises a yawn alert, so the duplicate-yawn guard always passes (used by `AlertsFollowFlags`). |
| `StateRules.AlertsFollowFlags` | safeway/ai/state_analyzer.py:85-206 | The alert list is exactly the alerts of the raised flags, in rule order, with the yawn alert in fourth place. |
| `StateRules.Opt` | safeway/ai/state_analyzer.py:93-97 | A rule contributes its alert iff it fired, and at most one. |
| `StateRules.AlertsInRuleOrder` | safeway/ai/state_analyzer.py:85-206 | Alerts appear in the order absence, blink rate, eyes closed, yawn, head movement, gaze, phone, at most one per rule and so at most seven. |
| `StateRules.SelectInRuleOrder` | safeway/ai/state_analyzer.py:93-206 | The list the flags call for is in rule order. |
| `StateRules.RuleOrderBound` | safeway/ai/state_analyzer.py:72 | A list in rule order holds at most seven alerts. |
| `StateRules.SelectMembership` | safeway/ai/state_analyzer.py:92-206 | Each flag is set iff its rule's alert is in the list the flags call for. |
| `StateRules.FlagsMatchAlerts` | safeway/ai/state_analyzer.py:75-83 | Each flag is true iff its rule's alert was raised in this call. `phone_detected` follows the signal, and `yawn_detected` means a face with an open mouth. |
| `StateRules.FlagsResetEachCall` | safeway/ai/state_analyzer.py:75-83 | The flags held before a call have no effect on it. |
| `StateRules.AbsenceTimerStarts` | safeway/ai/state_analyzer.py:87-88 | The first faceless frame only starts the timer at `now`, with no absence flag or alert. |
| `StateRules.AbsenceRepeats` | safeway/ai/state_analyzer.py:89-97 | Later faceless frames keep the start and raise the alert and flag, on every call, iff more than 2500 ms have passed. |
| `StateRules.FaceClearsAbsence` | safeway/ai/state_analyzer.py:98-99 | A frame with a face clears the timer and raises no absence alert. |
| `StateRules.FacelessFrameKeepsFaceFields` | safeway/ai/state_analyzer.py:102 | A faceless frame changes only the absence timer and the flags, and raises at most the absence and phone alerts. |
| `StateRules.BlinkRecording` | safeway/ai/state_analyzer.py:106-109 | A blink is recorded only on a closed-to-open transition, keeping the 30 newest. The eye state becomes this frame's, and the log keeps the 20 newest. |
| `StateRules.LowBlinkRateRule` | safeway/ai/state_analyzer.py:112-123 | The blink-rate alert comes iff at least two blinks are stored, time has passed since the oldest and the rate is below 0.15. The flag agrees. |
| `StateRules.TwoFatigueAlertsInOneCall` | safeway/ai/state_analyzer.py:116-136 | Every call with a face, a low blink rate and eyes closed past 1200 ms begins its alert list with both `fatigue` alerts, the blink-rate one first. |
| `StateRules.SelectFatigueFirst` | safeway/ai/state_analyzer.py:93-136 | Without the absence flag, the two fatigue flags put their alerts at the head of the list. |
| `StateRules.EyesClosedRule` | safeway/ai/state_analyzer.py:125-138 | Closed eyes start or keep the timer, and the high alert comes on each call past 1200 ms (strict). Open eyes clear the timer. The flag agrees. |
| `StateRules.YawnRecording` | safeway/ai/state_analyzer.py:141-150 | An open mouth appends `now`, keeping the 100 newest, and sets `yawn_detected`. Recent yawns are those at most 60 s old (inclusive). |
| `StateRules.YawnAlertRule` | safeway/ai/state_analyzer.py:152-159 | Exactly one yawn alert when at least two recent yawns are stored, none otherwise, and its message carries the count. |
| `StateRules.SelectYawnCount` | safeway/ai/state_analyzer.py:154-159 | The list the flags call for holds as many yawn alerts as the yawn rule gave. |
| `StateRules.SelectHoldsYawns` | safeway/ai/state_analyzer.py:155 | The yawn alert is in the list the flags call for. |
| `StateRules.OptIsNotYawn` | safeway/ai/state_analyzer.py:93-97 | A non-yawn rule contributes no yawn alert. |
| `StateRules.YawnCountReadBack` | safeway/ai/state_analyzer.py:157 | The yawn message is the prefix, the decimal count and the suffix, and the count reads back from it. |
| `StateRules.CalmYawningFrame` | safeway/ai/state_analyzer.py:141-159 | From a blink-free analyzer with no eyes-closed or gaze timer and at most three earlier frames, each stored in both the head and the yawn history, one more centred, open-eyed, open-mouth frame raises only the yawn alert, when it fires. It keeps that calm state for the next frame. |
| `StateRules.YawnWindowAt0` | safeway/ai/state_analyzer.py:141-152 | From a fresh analyzer, a yawn at 0 s is recorded with no alert. |
| `StateRules.YawnWindowAt10` | safeway/ai/state_analyzer.py:147-159 | A second yawn at 10 s makes two in the window and one alert counting 2. |
| `StateRules.YawnWindowAt70` | safeway/ai/state_analyzer.py:147-150 | At 70 s the yawn at 0 s has left the window, and the yawns at 10 s and 70 s alert again. |
| `StateRules.ChangesAllDiffer` | safeway/ai/state_analyzer.py:168-170 | The changes count is the maximum iff all adjacent positions differ. |
| `StateRules.HeadRecording` | safeway/ai/state_analyzer.py:162-163 | With a face, `(now, head_position)` joins the 10 newest head entries. |
| `StateRules.HeadMovementRule` | safeway/ai/state_analyzer.py:166-176 | The head-movement alert comes iff at least 5 entries are stored and all four adjacent pairs of the newest five differ. The flag agrees. |
| `StateRules.HeadMovementLeavesDistractionFlag` | safeway/ai/state_analyzer.py:171-176 | With the head centred or lowered, a head-movement alert puts a `distraction` alert in the list while `distraction_detected` stays clear. |
| `StateRules.GazeRule` | safeway/ai/state_analyzer.py:178-197 | Centre or down clears the run, and a side starts or restarts it. The same side alerts past 1500 ms. A gaze start is present iff a gaze side is. |
| `StateRules.FacelessRunKeepsStart` | safeway/ai/state_analyzer.py:86-97 | Over faceless frames the absence start never moves, and each call alerts iff more than 2500 ms have passed since it. |
| `Alerts.CountKind` | safeway/ai/state_analyzer.py:154 | No alert of a type is counted iff none is present (`any(...)`). |
| `Alerts.CountKindAppend` | safeway/ai/state_analyzer.py:154 | Counts of a type add up over concatenated lists. |
| `BoundedDeque.Append` | safeway/ai/state_analyzer.py:31 | `deque(maxlen=n).append`: the new entry is last, there is never more than `n`, and the oldest is dropped when full. |
| `BoundedDeque.AppendKeepsNewest` | safeway/ai/state_analyzer.py:107 | One append keeps exactly the newest `n` of the old entries plus the new one. |
| `BoundedDeque.AppendAllKeepsNewest` | safeway/ai/state_analyzer.py:34 | Any run of appends leaves the newest `n` of everything received, oldest first. |
| `BoundedDeque.FortyPushesIntoThirty` | safeway/ai/state_analyzer.py:31 | Forty pushes into the blink deque leave thirty entries, the oldest being the 11th push. |
| `Decimal.FromNat` | safeway/ai/state_analyzer.py:157 | The count is written as decimal digits with no leading zero. |
| `Decimal.ToNatFromNat` | safeway/ai/state_analyzer.py:157 | Reading the written digits back gives the count. |
| `AlertDispatch.AlertManager.constructor` | safeway/ai/alert_manager.py:34-59 | The fields after `__init__`: sound iff enabled and the mixer started, speech iff a TTS engine started, empty cooldown map, nothing spoken at time 0. |
| `AlertDispatch.AlertManager.TriggerAlert` | safeway/ai/alert_manager.py:61-104 | The new fields, the returned frame and what would be played, drawn and said are those of `Trigger` on the old fields. |
| `AlertDispatch.MessageSelection` | safeway/ai/alert_manager.py:72-76 | A known type always gets its canonical message whatever the alert says. A missing type is 'unknown', which falls back to the alert's message or the default. A missing severity is 'medium'. |
| `AlertDispatch.YawnCountNeverShown` | safeway/ai/alert_manager.py:24 | Two yawn alerts always get the same canonical message, whatever count they carry. |
| `AlertDispatch.CooldownGate` | safeway/ai/alert_manager.py:78-84 | An alert is accepted iff its type has no time or one at least 3.0 s old. Acceptance records `now` for that type only, and other types' entries are kept. |
| `AlertDispatch.SuppressionChangesNothing` | safeway/ai/alert_manager.py:80-82 | A suppressed alert returns the given frame and changes no field. |
| `AlertDispatch.AcceptedEffects` | safeway/ai/alert_manager.py:84-104 | An accepted alert is spoken iff voice and TTS are on and the message differs or the last speech is over 5 s old; speaking records both. Sound iff enabled; a banner iff visual is on and there is a frame. |
| `AlertDispatch.FlagsStay` | safeway/ai/alert_manager.py:61-104 | `trigger_alert` never changes the enable flags. |
| `AlertDispatch.FirstAlertSpoken` | safeway/ai/alert_manager.py:56-59 | With speech available, the first alert after `__init__` is accepted and spoken. |
| `AlertDispatch.PhoneCooldownExample` | safeway/ai/alert_manager.py:80-84 | Two phone alerts 1.0 s apart: the second is dropped. 3.1 s apart: both are accepted. |
| `AlertDispatch.SpeechDedupExample` | safeway/ai/alert_manager.py:99-102 | "A" at 0 s is spoken; "A" again at 2 s is accepted but not spoken; "B" at 2 s is spoken. |
| `AlertDispatch.ToneTable` | safeway/ai/alert_manager.py:113-122 | 'high' gives 800 Hz for 500 ms, 'medium' 600 Hz for 300 ms, anything else 400 Hz for 200 ms. A higher level gives a higher, longer tone. |
| `AlertDispatch.PaletteTable` | safeway/ai/alert_manager.py:223-232 | 'high' gives red, 'medium' orange, anything else yellow. Two severities share colours iff they share a level. |
| `FrameLoop.BannerPriority` | safeway/ui/cli_demo.py:150-167 | The banner reports a raised flag and no flag of higher priority (fatigue, distraction, phone, absent) is raised. NORMAL iff none of the four is. |
| `FrameLoop.DispatchFold` | safeway/ui/cli_demo.py:145-147 | Each alert of the frame gets exactly one verdict. |
| `FrameLoop.OneTrigger` | safeway/ai/alert_manager.py:78-94 | One call draws its banner after the ones already on the frame and records `now` only on acceptance, when the previous time was at least 3 s old. |
| `FrameLoop.DispatchFoldDraws` | safeway/ui/cli_demo.py:145-147 | The frame after the hand-off is the frame handed in with the accepted alerts' banners drawn on it in order. |
| `FrameLoop.DrawnAfter` | safeway/ui/cli_demo.py:147 | Drawing one banner and then the rest is drawing them all, in order. |
| `FrameLoop.SpeechOffFreezesSpeech` | safeway/ai/alert_manager.py:96-102 | With voice or TTS off, a frame's hand-off says nothing, and it leaves the speech fields and switches unchanged. Every type already in the cooldown map stays in it. |
| `FrameLoop.DispatchFoldNoDrawing` | safeway/ai/alert_manager.py:93-94 | With the visual channel off, the hand-off draws nothing. |
| `FrameLoop.DispatchFoldKinds` | safeway/ui/cli_demo.py:145-147 | Each alert is handed over once, in list order, and an accepted verdict is for that alert's type. |
| `FrameLoop.AcceptedKindsDistinct` | safeway/ai/alert_manager.py:80-84 | Within one hand-off whose clock readings span less than the cooldown, no type is accepted twice, nor one accepted since the window began. |
| `FrameLoop.FoldAdvances` | safeway/ui/cli_demo.py:146-147 | One `trigger_alert` call moves the hand-off forward by one alert. |
| `FrameLoop.AnalyzerSpecAgrees` | safeway/ui/cli_demo.py:101 | The analysis the loop runs is the analyzer's. |
| `FrameLoop.FailedRead` | safeway/ui/cli_demo.py:73-80 | A failed read only counts a failure and shows nothing. The loop ends iff it is the tenth in a row. |
| `FrameLoop.DetectionErrorEndsLoop` | safeway/ui/cli_demo.py:102-108 | A detection error ends the loop with the frame counted and nothing shown. The fallback's empty `state` fails the banner lookup, and the outer handler exits. |
| `FrameLoop.QuitKeyEndsLoop` | safeway/ui/cli_demo.py:177-180 | An analysed frame is shown, the failure count is back to 0, and the loop ends after it iff the key's low byte is 'q'. |
| `FrameLoop.QuitKeyLowByte` | safeway/ui/cli_demo.py:177-178 | The model's quit test `key % 256 == 113` holds iff `key & 0xFF == ord('q')` does, for every key code. A negative code (-1 for no key) tests as its 32-bit unsigned form would. |
| `Bits.LowBits` | safeway/ui/cli_demo.py:177 | Masking any integer with `2^k - 1`, bit by bit as Python's `&` does, keeps it modulo `2^k`. |
| `Bits.LowByte` | safeway/ui/cli_demo.py:177 | `a & 0xFF` is `a % 256` for every integer `a`, negative ones included. |
| `FrameLoop.YoloSchedule` | safeway/ui/cli_demo.py:93-98 | The frame gets the next number. YOLO runs iff that number is a multiple of 3, and otherwise the cached answer is used. The answer used is cached for the next frame. |
| `FrameLoop.StepAnalyses` | safeway/ui/cli_demo.py:82-101 | A read frame without a detection error resets the failures, counts the frame and is analysed. |
| `FrameLoop.AnalysedReport` | safeway/ui/cli_demo.py:101 | The report carries what `analyze` returned, on the frame's phone signal. |
| `FrameLoop.PhoneSignalReachesAnalysis` | safeway/ai/state_analyzer.py:199-206 | The analyzer raises the phone flag and alert exactly on the signal the loop hands it. |
| `FrameLoop.AlertsHandedOver` | safeway/ui/cli_demo.py:145-147 | Every alert of the analysis goes to its own `trigger_alert` call in order, and the frame shown carries the accepted banners in that order. |
| `FrameLoop.AnalysedHandsOver` | safeway/ui/cli_demo.py:145-147 | The same, for the body of the loop after detection. |
| `FrameLoop.FrameDispatchesEachTypeOnce` | safeway/ui/cli_demo.py:145-147 | When a frame's hand-off spans less than 3 s, no type is accepted twice: of two `fatigue` alerts, at most one reaches the driver. |
| `FrameLoop.AnalyzerAlertsAreKnown` | safeway/ai/alert_manager.py:19-27 | Every alert the analyzer raises has a type listed in `ALERT_MESSAGES`, so its canonical message is shown and spoken. |
| `FrameLoop.FramesNumbered` | safeway/ui/cli_demo.py:83-85 | Shown frames are numbered 1, 2, 3, ... in order, and failed reads get no number. |
| `FrameLoop.PhoneSignalCached` | safeway/ui/cli_demo.py:93-98 | Over a run, YOLO runs on multiples of 3, and every other frame reuses the signal of the frame before it (or the cached one for the first). |
| `FrameLoop.NoPhoneBeforeFirstYolo` | safeway/ui/cli_demo.py:43 | From start-up, frames 1 and 2 are analysed with no phone, because the cache starts at `phone_detected = False`. |
| `FrameLoop.RunHandsAlertsOver` | safeway/ui/cli_demo.py:144-147 | Every shown frame of a run handed its alerts over in order and drew the accepted ones. |
| `FrameLoop.TenFailedReadsStop` | safeway/ui/cli_demo.py:73-77 | Reads failing up to the tenth in a row end the loop with nothing more shown and the count at 10. |
| `FrameLoop.RunAdvances` | safeway/ui/cli_demo.py:69-180 | One turn moves the run forward: a stop ends it, and otherwise the rest of the ticks follow. |
| `FrameLoop.DispatchAll` | safeway/ui/cli_demo.py:145-147 | The manager's new fields, the frame and the verdicts are those of handing the alerts over one by one in order. |
| `FrameLoop.ShowFrame` | safeway/ui/cli_demo.py:87-180 | After detection: YOLO or cache, `analyze`, the hand-off, the banner and the key, as `Analysed` says, on the old component states. |
| `FrameLoop.Turn` | safeway/ui/cli_demo.py:69-180 | One turn of the loop on the two components and the counters, as `Step` says. |
| `FrameLoop.MainLoopWith` | safeway/ui/cli_demo.py:61-180 | The loop over the ticks produces the frames, the reason it stopped and the final state that `Run` gives. |
| `FrameLoop.MainLoop` | safeway/ui/cli_demo.py:61-185 | From the components' construction, the loop does what `Run` with the analyzer's `analyze` gives. |

## Left out

- Camera, MediaPipe and YOLO: their outputs are the `Tick` inputs (`readOk`, `face`, `yoloPhone`, `detectionRaises`), and the hand detector is left out because `analyze` never reads it. EAR/MAR geometry and every floating-point computation of the detectors are left out too.
- Clocks: `time.time()` and `get_current_timestamp` become inputs, `now` for `analyze` and `Tick.clock` for the loop. Reading 0 is `analyze`'s timestamp, and reading i is the i-th `trigger_alert` of the frame. How far apart the readings are is left open, and lemmas that need it say so (`Within`). The `time.sleep(0.1)` after a failed read (safeway/ui/cli_demo.py:79) only moves the clock, which is unconstrained anyway, so it is left out.
- Sound, drawing and speech: pygame waveform synthesis, cv2 rectangles and text, the blinking dot, the TTS engines, `subprocess`, the speech thread and `release`. `Trigger` returns what would be played, drawn and said, and a frame is the list of banners drawn on it. The speech fields are updated right after the speech thread is started, as in the source. What the thread does is not modelled.
- Frame aliasing: cv2 draws in place on the frame object. The model threads a value through the hand-off, which gives the same result because the loop always uses the returned frame.
- cli_demo drawing, the window and logging: the landmarks, text lines, YOLO boxes, the frame number and `imshow` are left out. The banner is reported as `Banner` (its text is `BannerText`).
- Start-up failures in `main` (the YOLO model fails to load, the camera fails to open), `KeyboardInterrupt`, and the `finally` clean-up are left out. They happen before or after the loop.
- `FrameLoop.DetectionErrorEndsLoop`: the detection error is taken to happen in the detectors, before `analyze`. An exception inside `analyze` would leave its fields partly updated, which the model does not capture. Either way the loop ends.
- Mixer and TTS start-up: they are the `mixerReady` and `ttsReady` inputs of `AlertManager.constructor`.
- `ALERT_MESSAGES` entries `abnormal_blink` and `excessive_movement` are in the model's map, but no rule raises those types.
- Settings: only the thresholds `analyze` uses and the three alert switches are modelled. `HEAD_MOVEMENT_THRESHOLD` and `GAZE_DEVIATION_THRESHOLD` are imported but unused. The directory-creating side effects are left out.
- `eye_state_changes` is modelled as a bounded history that is written and never read, as in the source.
- The loop lemmas are stated for any analysis function. Where a lemma needs the analyzer's rules it requires `Agrees`, and `MainLoop` instantiates the loop with the analyzer.
- Floating point: the source compares IEEE doubles, and the model compares exact reals. Rounding near the thresholds is not captured: for example `(now - start) * 1000 > 2500` just past 2.5 s, or `len / window < 0.15` near 0.15.
