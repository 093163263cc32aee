/**
 * The bookkeeping of the main loop of safeway/ui/cli_demo.py: the cutoff on
 * consecutive failed reads, the frame counter, the YOLO schedule with its
 * cached phone signal, the in-order hand-off of alerts to the alert manager
 * and the status banner. The camera, the detectors and the window are
 * inputs: each `Tick` says what they deliver for one turn of the loop.
 */
module FrameLoop {
  import opened Wrappers
  import opened Alerts
  import opened StateAnalysis
  import opened AlertDispatch
  import StateRules
  import Bits

  /** `max_failures`: consecutive failed reads that end the loop. */
  const MaxFailures: nat := 10

  /** YOLO runs on every third successfully read frame. */
  const YoloEvery: nat := 3

  /** `ord('q')`. */
  const QuitKey: int := 113

  // The status banner.

  datatype Banner = FatigueBanner | DistractionBanner | PhoneBanner | AbsentBanner | NormalBanner

  function BannerText(b: Banner): string {
    match b
    case FatigueBanner => "ETAT: FATIGUE DETECTEE"
    case DistractionBanner => "ETAT: DISTRACTION DETECTEE"
    case PhoneBanner => "ETAT: TELEPHONE DETECTE"
    case AbsentBanner => "ETAT: CONDUCTEUR ABSENT"
    case NormalBanner => "ETAT: NORMAL"
  }

  /** The first raised flag in the order fatigue, distraction, phone, absence; otherwise NORMAL. */
  function BannerFor(f: StateFlags): Banner {
    if f.fatigueDetected then FatigueBanner
    else if f.distractionDetected then DistractionBanner
    else if f.phoneDetected then PhoneBanner
    else if f.driverAbsent then AbsentBanner
    else NormalBanner
  }

  /** The rank of a banner's flag in the priority order; NORMAL comes last. */
  function BannerRank(b: Banner): nat {
    match b
    case FatigueBanner => 0
    case DistractionBanner => 1
    case PhoneBanner => 2
    case AbsentBanner => 3
    case NormalBanner => 4
  }

  /** Whether the flag a banner reports is raised; NORMAL reports no flag. */
  predicate Raises(f: StateFlags, b: Banner) {
    match b
    case FatigueBanner => f.fatigueDetected
    case DistractionBanner => f.distractionDetected
    case PhoneBanner => f.phoneDetected
    case AbsentBanner => f.driverAbsent
    case NormalBanner => false
  }

  /**
   * The banner reports a raised flag, and no flag of higher priority is
   * raised; NORMAL is shown iff none of the four flags is raised.
   */
  lemma BannerPriority(f: StateFlags, other: Banner)
    ensures BannerFor(f) != NormalBanner ==> Raises(f, BannerFor(f))
    ensures BannerRank(other) < BannerRank(BannerFor(f)) ==> !Raises(f, other)
    ensures BannerFor(f) == NormalBanner <==> !f.fatigueDetected && !f.distractionDetected && !f.phoneDetected && !f.driverAbsent
  {
  }

  // The hand-off of one frame's alerts to the alert manager.

  datatype Dispatched = Dispatched(state: DispatchState, frame: Option<Canvas>, verdicts: seq<Verdict>)

  /**
   * `trigger_alert` on each alert in order, threading the returned frame
   * into the next call; the i-th call reads the clock as `clock(first + i)`.
   */
  function DispatchFold(d: DispatchState, alerts: seq<Alert>, frame: Option<Canvas>, clock: nat -> real, first: nat)
    : (r: Dispatched)
    ensures |r.verdicts| == |alerts|
    decreases |alerts|
  {
    if alerts == [] then Dispatched(d, frame, [])
    else
      var t := Trigger(d, alerts[0], frame, clock(first));
      var rest := DispatchFold(t.state, alerts[1..], t.frame, clock, first + 1);
      Dispatched(rest.state, rest.frame, [t.verdict] + rest.verdicts)
  }

  /** The overlay one verdict drew on the frame. */
  function Drew(v: Verdict): Canvas {
    if v.Accepted? && v.effects.overlay.Some? then [v.effects.overlay.value] else []
  }

  /** The overlays the accepted verdicts drew, in order. */
  function Drawn(verdicts: seq<Verdict>): Canvas {
    if verdicts == [] then [] else Drew(verdicts[0]) + Drawn(verdicts[1..])
  }

  /** No verdict of the list says anything. */
  predicate Silent(verdicts: seq<Verdict>) {
    forall i :: 0 <= i < |verdicts| && verdicts[i].Accepted? ==> verdicts[i].effects.speech.None?
  }

  /**
   * With voice or TTS off, a frame's hand-off says nothing and leaves the
   * speech fields and the switches as they were, while the cooldown map
   * keeps every type it held.
   */
  lemma {:induction false} SpeechOffFreezesSpeech(d: DispatchState, alerts: seq<Alert>, frame: Option<Canvas>,
                                                  clock: nat -> real, first: nat)
    requires !d.voiceEnabled || !d.ttsEnabled
    ensures var r := DispatchFold(d, alerts, frame, clock, first);
            && r.state.voiceEnabled == d.voiceEnabled && r.state.ttsEnabled == d.ttsEnabled
            && r.state.lastSpokenMessage == d.lastSpokenMessage
            && r.state.lastSpeechTime == d.lastSpeechTime
            && (forall k :: k in d.lastAlertTime ==> k in r.state.lastAlertTime)
            && Silent(r.verdicts)
    decreases |alerts|
  {
    if alerts != [] {
      var t := Trigger(d, alerts[0], frame, clock(first));
      FlagsStay(d, alerts[0], frame, clock(first));
      SpeechOffFreezesSpeech(t.state, alerts[1..], t.frame, clock, first + 1);
      var rest := DispatchFold(t.state, alerts[1..], t.frame, clock, first + 1);
      assert DispatchFold(d, alerts, frame, clock, first).verdicts == [t.verdict] + rest.verdicts;
    }
  }

  /** What one `trigger_alert` call does to the frame and to the cooldown map. */
  lemma OneTrigger(d: DispatchState, alert: Alert, frame: Option<Canvas>, now: real)
    ensures var t := Trigger(d, alert, frame, now);
            var kind := KindOf(alert);
            && (frame.Some? ==> t.frame == Some(frame.value + Drew(t.verdict)))
            && (!d.visualEnabled ==> Drew(t.verdict) == [])
            && t.state.visualEnabled == d.visualEnabled
            && (t.verdict.Accepted? ==> t.verdict.kind == kind)
            && (t.verdict.Accepted? ==> t.state.lastAlertTime == d.lastAlertTime[kind := now])
            && (t.verdict.Accepted? && kind in d.lastAlertTime ==> d.lastAlertTime[kind] <= now - AlertCooldown)
            && (!t.verdict.Accepted? ==> t.state.lastAlertTime == d.lastAlertTime)
  {
    var t := Trigger(d, alert, frame, now);
    if frame.Some? && Drew(t.verdict) == [] {
      assert frame.value + Drew(t.verdict) == frame.value;
    }
  }

  /** Each accepted verdict is for the type of the alert at its position. */
  predicate KindsFollow(alerts: seq<Alert>, v: seq<Verdict>) {
    |v| == |alerts| && forall i :: 0 <= i < |v| && v[i].Accepted? ==> v[i].kind == KindOf(alerts[i])
  }

  /**
   * The frame that comes back is the frame handed in with the banners of
   * the accepted alerts drawn on it in order.
   */
  lemma {:induction false} DispatchFoldDraws(d: DispatchState, alerts: seq<Alert>, canvas: Canvas, clock: nat -> real, first: nat)
    ensures DispatchFold(d, alerts, Some(canvas), clock, first).frame
            == Some(canvas + Drawn(DispatchFold(d, alerts, Some(canvas), clock, first).verdicts))
    decreases |alerts|
  {
    if alerts == [] {
      assert canvas + [] == canvas;
    } else {
      var t := Trigger(d, alerts[0], Some(canvas), clock(first));
      OneTrigger(d, alerts[0], Some(canvas), clock(first));
      var c' := canvas + Drew(t.verdict);
      DispatchFoldDraws(t.state, alerts[1..], c', clock, first + 1);
      var rest := DispatchFold(t.state, alerts[1..], Some(c'), clock, first + 1);
      DrawnAfter(canvas, t.verdict, rest.verdicts);
    }
  }

  /** Drawing one verdict's banner and then the rest's is drawing all of them. */
  lemma DrawnAfter(canvas: Canvas, v: Verdict, rest: seq<Verdict>)
    ensures canvas + Drew(v) + Drawn(rest) == canvas + Drawn([v] + rest)
  {
    assert ([v] + rest)[1..] == rest;
  }

  /** With the visual channel off, no banner is drawn. */
  lemma {:induction false} DispatchFoldNoDrawing(d: DispatchState, alerts: seq<Alert>, frame: Option<Canvas>, clock: nat -> real, first: nat)
    requires !d.visualEnabled
    ensures Drawn(DispatchFold(d, alerts, frame, clock, first).verdicts) == []
    decreases |alerts|
  {
    if alerts != [] {
      var t := Trigger(d, alerts[0], frame, clock(first));
      OneTrigger(d, alerts[0], frame, clock(first));
      DispatchFoldNoDrawing(t.state, alerts[1..], t.frame, clock, first + 1);
      var r := DispatchFold(d, alerts, frame, clock, first);
      var rest := DispatchFold(t.state, alerts[1..], t.frame, clock, first + 1);
      assert r.verdicts == [t.verdict] + rest.verdicts;
      assert r.verdicts[1..] == rest.verdicts;
    }
  }

  /** Each alert gets one verdict, and an accepted verdict is for its own alert's type. */
  lemma {:induction false} DispatchFoldKinds(d: DispatchState, alerts: seq<Alert>, frame: Option<Canvas>, clock: nat -> real, first: nat)
    ensures KindsFollow(alerts, DispatchFold(d, alerts, frame, clock, first).verdicts)
    decreases |alerts|
  {
    if alerts != [] {
      var t := Trigger(d, alerts[0], frame, clock(first));
      OneTrigger(d, alerts[0], frame, clock(first));
      DispatchFoldKinds(t.state, alerts[1..], t.frame, clock, first + 1);
      var r := DispatchFold(d, alerts, frame, clock, first);
      var rest := DispatchFold(t.state, alerts[1..], t.frame, clock, first + 1);
      assert r.verdicts == [t.verdict] + rest.verdicts;
      forall i | 1 <= i < |alerts| && r.verdicts[i].Accepted?
        ensures r.verdicts[i].kind == KindOf(alerts[i])
      {
        assert r.verdicts[i] == rest.verdicts[i - 1] && alerts[i] == alerts[1..][i - 1];
      }
    }
  }

  /** Every clock reading with an index in [lo, hi) lies in the window [start, start + 3 s). */
  ghost predicate Within(clock: nat -> real, lo: nat, hi: nat, start: real) {
    forall k: nat :: lo <= k < hi ==> start <= clock(k) < start + AlertCooldown
  }

  /** No accepted verdict is for a type last accepted at or after `start`. */
  predicate NotSince(last: map<string, real>, v: seq<Verdict>, start: real) {
    forall i :: 0 <= i < |v| && v[i].Accepted? && v[i].kind in last ==> last[v[i].kind] < start
  }

  /** No two accepted verdicts are for the same type. */
  predicate AcceptedOnce(v: seq<Verdict>) {
    forall i, j :: 0 <= i < j < |v| && v[i].Accepted? && v[j].Accepted? ==> v[i].kind != v[j].kind
  }

  /**
   * Within one hand-off whose clock readings all lie in a window shorter
   * than the cooldown, no type is accepted twice, and no type that was
   * accepted at or after the window's start is accepted again: of the two
   * `fatigue` alerts one frame can carry, at most one is dispatched.
   */
  lemma {:induction false} AcceptedKindsDistinct(d: DispatchState, alerts: seq<Alert>, frame: Option<Canvas>,
                                                 clock: nat -> real, first: nat, start: real)
    requires Within(clock, first, first + |alerts|, start)
    ensures NotSince(d.lastAlertTime, DispatchFold(d, alerts, frame, clock, first).verdicts, start)
    ensures AcceptedOnce(DispatchFold(d, alerts, frame, clock, first).verdicts)
    decreases |alerts|
  {
    if alerts != [] {
      var now := clock(first);
      var t := Trigger(d, alerts[0], frame, now);
      OneTrigger(d, alerts[0], frame, now);
      assert start <= now < start + AlertCooldown;
      AcceptedKindsDistinct(t.state, alerts[1..], t.frame, clock, first + 1, start);
      var v := DispatchFold(d, alerts, frame, clock, first).verdicts;
      var rest := DispatchFold(t.state, alerts[1..], t.frame, clock, first + 1).verdicts;
      assert NotSince(t.state.lastAlertTime, rest, start);
      assert v == [t.verdict] + rest;
      forall i | 0 <= i < |v| && v[i].Accepted? && v[i].kind in d.lastAlertTime
        ensures d.lastAlertTime[v[i].kind] < start
      {
        if i > 0 {
          var k := v[i].kind;
          assert v[i] == rest[i - 1];
          assert t.state.lastAlertTime[k] < start;
          if t.verdict.Accepted? && k == t.verdict.kind {
            assert false;
          }
        }
      }
      forall i, j | 0 <= i < j < |v| && v[i].Accepted? && v[j].Accepted?
        ensures v[i].kind != v[j].kind
      {
        assert v[j] == rest[j - 1];
        if i > 0 {
          assert v[i] == rest[i - 1];
        } else {
          assert t.state.lastAlertTime[t.verdict.kind] == now;
        }
      }
    }
  }

  // One turn of the loop.

  /** What the camera, the detectors and the keyboard deliver on one turn of the loop. */
  datatype Tick = Tick(
    readOk: bool,              // `ret` of `read_frame`
    face: FaceResults,         // what the face detector reports
    yoloPhone: bool,           // what YOLO would report if it ran on this frame
    detectionRaises: bool,     // one of the detectors raises an exception
    key: int,                  // `cv2.waitKey(1)`
    clock: nat -> real)        // `time.time()`: reading 0 in `analyze`, reading i in the i-th `trigger_alert`

  datatype Counters = Counters(frameCount: nat, consecutiveFailures: nat, lastYoloPhone: bool)

  /** Everything that outlives one turn of the loop. */
  datatype World = World(counters: Counters, history: History, dispatch: DispatchState)

  function InitialWorld(mixerReady: bool, ttsReady: bool): World {
    World(Counters(0, 0, false), InitialHistory, Initial(mixerReady, ttsReady))
  }

  /** What one analysed frame shows. */
  datatype Report = Report(
    frameNumber: nat,
    yoloRan: bool,
    phoneSignal: bool,
    analysis: Analysis,
    verdicts: seq<Verdict>,
    frame: Option<Canvas>,
    banner: Banner)

  datatype StopReason =
    | ReadFailures     // ten reads in a row failed
    | QuitPressed      // 'q' was pressed
    | DetectionError   // detection raised; the empty fallback state then fails the banner lookup
    | InputExhausted   // no more ticks

  datatype StepResult =
    | Continue(world: World, report: Option<Report>)
    | Stop(reason: StopReason, world: World, report: Option<Report>)

  /**
   * What the loop asks of the analyzer: the outcome of `analyze` on the
   * analyzer's state, the face results, the phone signal and the time.
   * The loop's bookkeeping is stated for any such function; `AnalyzerSpec`
   * is the one `StateAnalyzer` implements.
   */
  type Analyser = (History, FaceResults, bool, real) -> Outcome

  /** `StateAnalyzer.analyze`, whose state is always well formed. */
  function AnalyzerSpec(h: History, face: FaceResults, phone: bool, now: real): Outcome {
    if WellFormed(h) then Next(h, face, phone, now) else Outcome(h, Analysis(NoFlags, [], now))
  }

  /** `analyse` agrees with the analyzer on every well-formed state. */
  ghost predicate Agrees(analyse: Analyser) {
    forall h, face, phone, now {:trigger Next(h, face, phone, now)} ::
      WellFormed(h) ==> analyse(h, face, phone, now) == Next(h, face, phone, now)
  }

  lemma AnalyzerSpecAgrees()
    ensures Agrees(AnalyzerSpec)
  {
  }

  /**
   * A frame that was read and whose detection went through: YOLO on every
   * third frame (its answer cached for the two frames after it), the
   * analysis, the hand-off of the alerts, the banner, and the 'q' key.
   */
  /** The phone signal of the frame numbered in `c`: YOLO's answer on every third frame, the cached one otherwise. */
  function PhoneSignal(c: Counters, t: Tick): bool {
    if c.frameCount % YoloEvery == 0 then t.yoloPhone else c.lastYoloPhone
  }

  function Analysed(analyse: Analyser, w: World, t: Tick): StepResult {
    var c := w.counters;
    var yoloRan := c.frameCount % YoloEvery == 0;
    var phone := PhoneSignal(c, t);
    var o := analyse(w.history, t.face, phone, t.clock(0));
    var sent := DispatchFold(w.dispatch, o.analysis.alerts, Some([]), t.clock, 1);
    var report := Report(c.frameCount, yoloRan, phone, o.analysis, sent.verdicts, sent.frame, BannerFor(o.analysis.state));
    var w' := World(c.(lastYoloPhone := phone), o.history, sent.state);
    if t.key % 256 == QuitKey then Stop(QuitPressed, w', Some(report)) else Continue(w', Some(report))
  }

  /**
   * A failed read counts towards the cutoff and ends the loop at the tenth
   * in a row; a successful read resets the count and numbers the frame,
   * and a detection error on it ends the loop before anything is shown.
   */
  function Step(analyse: Analyser, w: World, t: Tick): StepResult {
    var c := w.counters;
    if !t.readOk then
      var failures := c.consecutiveFailures + 1;
      var w' := w.(counters := c.(consecutiveFailures := failures));
      if failures >= MaxFailures then Stop(ReadFailures, w', None) else Continue(w', None)
    else
      var w' := w.(counters := Counters(c.frameCount + 1, 0, c.lastYoloPhone));
      if t.detectionRaises then Stop(DetectionError, w', None)
      else Analysed(analyse, w', t)
  }

  function Reports(r: Option<Report>): seq<Report> {
    if r.Some? then [r.value] else []
  }

  datatype RunResult = RunResult(reports: seq<Report>, stop: StopReason, final: World)

  /** The loop over a sequence of ticks, until it stops or the ticks run out. */
  function Run(analyse: Analyser, w: World, ticks: seq<Tick>): RunResult
    decreases |ticks|
  {
    if ticks == [] then RunResult([], InputExhausted, w)
    else
      match Step(analyse, w, ticks[0])
      case Stop(reason, w', report) => RunResult(Reports(report), reason, w')
      case Continue(w', report) =>
        var rest := Run(analyse, w', ticks[1..]);
        RunResult(Reports(report) + rest.reports, rest.stop, rest.final)
  }

  /** `reports` followed by the outcome of the rest of the run. */
  function After(reports: seq<Report>, rest: RunResult): RunResult {
    RunResult(reports + rest.reports, rest.stop, rest.final)
  }

  // What one turn does.

  /**
   * A failed read touches nothing but the failure count, shows nothing,
   * and ends the loop exactly when it is the tenth in a row.
   */
  lemma FailedRead(analyse: Analyser, w: World, t: Tick)
    requires w.counters.consecutiveFailures < MaxFailures && !t.readOk
    ensures var s := Step(analyse, w, t);
            && s.world == w.(counters := w.counters.(consecutiveFailures := w.counters.consecutiveFailures + 1))
            && s.report.None?
            && (s.Stop? <==> w.counters.consecutiveFailures + 1 == MaxFailures)
            && (s.Stop? ==> s.reason == ReadFailures)
  {
  }

  /**
   * A detection error on a frame that was read ends the loop: the frame is
   * counted, but the analyzer, the alert manager and the cached phone
   * signal are left as they were and nothing is shown.
   */
  lemma DetectionErrorEndsLoop(analyse: Analyser, w: World, t: Tick)
    requires t.readOk && t.detectionRaises
    ensures Step(analyse, w, t) == Stop(DetectionError, w.(counters := Counters(w.counters.frameCount + 1, 0, w.counters.lastYoloPhone)), None)
  {
  }

  /**
   * An analysed frame is shown, and the loop ends after it exactly when
   * the key read is 'q' (compared on the low eight bits).
   */
  lemma QuitKeyEndsLoop(analyse: Analyser, w: World, t: Tick)
    requires t.readOk && !t.detectionRaises
    ensures Step(analyse, w, t).report.Some?
    ensures Step(analyse, w, t).Stop? <==> t.key % 256 == QuitKey
    ensures Step(analyse, w, t).Stop? ==> Step(analyse, w, t).reason == QuitPressed
    ensures Step(analyse, w, t).world.counters.consecutiveFailures == 0
  {
  }

  /**
   * The loop's quit test `key % 256 == QuitKey` is `cv2.waitKey(1) & 0xFF ==
   * ord('q')` for every key code. A negative code (-1 when no key was
   * pressed) tests as its 32-bit unsigned form would.
   */
  lemma QuitKeyLowByte(key: int)
    ensures Bits.BitAnd(key, 0xFF) == QuitKey <==> key % 256 == QuitKey
    ensures key < 0 ==> (Bits.BitAnd(key, 0xFF) == QuitKey <==> (key + 0x1_0000_0000) % 256 == QuitKey)
  {
    Bits.LowByte(key);
  }

  /**
   * YOLO runs on the frames whose number is a multiple of three; on the
   * others the analysis sees the answer cached from the last run, which
   * the turn keeps for the next frame.
   */
  lemma YoloSchedule(analyse: Analyser, w: World, t: Tick)
    requires t.readOk && !t.detectionRaises
    ensures var s := Step(analyse, w, t);
            var r := s.report.value;
            && s.report.Some?
            && r.frameNumber == w.counters.frameCount + 1
            && (r.yoloRan <==> r.frameNumber % YoloEvery == 0)
            && r.phoneSignal == (if r.yoloRan then t.yoloPhone else w.counters.lastYoloPhone)
            && s.world.counters.lastYoloPhone == r.phoneSignal
  {
  }

  /** A frame that was read and went through detection is analysed with the counters advanced. */
  lemma StepAnalyses(analyse: Analyser, w: World, t: Tick)
    requires t.readOk && !t.detectionRaises
    ensures Step(analyse, w, t) == Analysed(analyse, w.(counters := Counters(w.counters.frameCount + 1, 0, w.counters.lastYoloPhone)), t)
  {
  }

  /** The phone signal the next frame read from `w` is analysed with. */
  function PhoneFor(w: World, t: Tick): bool {
    PhoneSignal(Counters(w.counters.frameCount + 1, 0, w.counters.lastYoloPhone), t)
  }

  /** An analysed frame's report carries what the analysis returned, on the frame's phone signal. */
  lemma AnalysedReport(analyse: Analyser, w: World, t: Tick)
    requires t.readOk && !t.detectionRaises
    ensures Step(analyse, w, t).report.Some?
    ensures Step(analyse, w, t).report.value.phoneSignal == PhoneFor(w, t)
    ensures Step(analyse, w, t).report.value.analysis == analyse(w.history, t.face, PhoneFor(w, t), t.clock(0)).analysis
  {
    StepAnalyses(analyse, w, t);
  }

  /** The analyzer raises its phone flag and alert exactly on the phone signal the loop hands it. */
  lemma PhoneSignalReachesAnalysis(analyse: Analyser, w: World, t: Tick)
    requires Agrees(analyse) && WellFormed(w.history) && t.readOk && !t.detectionRaises
    ensures var r := Step(analyse, w, t).report.value;
            && Step(analyse, w, t).report.Some?
            && (r.analysis.state.phoneDetected <==> r.phoneSignal)
            && (PhoneAlert in r.analysis.alerts <==> r.phoneSignal)
  {
    AnalysedReport(analyse, w, t);
    StateRules.FlagsMatchAlerts(w.history, t.face, PhoneFor(w, t), t.clock(0));
  }

  /**
   * The alerts of the analysis are handed over in order, each to its own
   * call, and the frame shown carries the banners of the accepted ones in
   * that order.
   */
  lemma AlertsHandedOver(analyse: Analyser, w: World, t: Tick)
    requires t.readOk && !t.detectionRaises
    ensures var r := Step(analyse, w, t).report.value;
            && Step(analyse, w, t).report.Some?
            && KindsFollow(r.analysis.alerts, r.verdicts)
            && r.frame == Some(Drawn(r.verdicts))
  {
    StepAnalyses(analyse, w, t);
    AnalysedHandsOver(analyse, w.(counters := Counters(w.counters.frameCount + 1, 0, w.counters.lastYoloPhone)), t);
  }

  lemma AnalysedHandsOver(analyse: Analyser, w: World, t: Tick)
    ensures var r := Analysed(analyse, w, t).report.value;
            && Analysed(analyse, w, t).report.Some?
            && KindsFollow(r.analysis.alerts, r.verdicts)
            && r.frame == Some(Drawn(r.verdicts))
  {
    var phone := PhoneSignal(w.counters, t);
    var alerts := analyse(w.history, t.face, phone, t.clock(0)).analysis.alerts;
    var sent := DispatchFold(w.dispatch, alerts, Some([]), t.clock, 1);
    DispatchFoldDraws(w.dispatch, alerts, [], t.clock, 1);
    DispatchFoldKinds(w.dispatch, alerts, Some([]), t.clock, 1);
    var drawn := Drawn(sent.verdicts);
    assert [] + drawn == drawn;
  }

  /**
   * When a frame's clock readings for the hand-off lie within one cooldown,
   * no alert type is dispatched twice on that frame: of the two `fatigue`
   * alerts the analyzer can raise together, at most one reaches the driver.
   */
  lemma FrameDispatchesEachTypeOnce(analyse: Analyser, w: World, t: Tick, start: real)
    requires Agrees(analyse) && WellFormed(w.history) && t.readOk && !t.detectionRaises
    requires Within(t.clock, 1, 8, start)
    ensures AcceptedOnce(Step(analyse, w, t).report.value.verdicts)
  {
    var w' := w.(counters := Counters(w.counters.frameCount + 1, 0, w.counters.lastYoloPhone));
    StepAnalyses(analyse, w, t);
    var alerts := analyse(w.history, t.face, PhoneFor(w, t), t.clock(0)).analysis.alerts;
    StateRules.AlertsInRuleOrder(w.history, t.face, PhoneFor(w, t), t.clock(0));
    assert Within(t.clock, 1, 1 + |alerts|, start);
    AcceptedKindsDistinct(w.dispatch, alerts, Some([]), t.clock, 1, start);
    assert Analysed(analyse, w', t).report.value.verdicts == DispatchFold(w.dispatch, alerts, Some([]), t.clock, 1).verdicts;
  }

  /**
   * Every alert the analyzer raises has a type the alert manager knows, so
   * the driver always sees and hears that type's canonical message.
   */
  lemma AnalyzerAlertsAreKnown(h: History, face: FaceResults, phone: bool, now: real)
    requires WellFormed(h)
    ensures forall a :: a in Next(h, face, phone, now).analysis.alerts ==>
              a.kind.Some? && KindOf(a) in AlertMessages && MessageFor(a) == AlertMessages[KindOf(a)]
  {
    var alerts := Next(h, face, phone, now).analysis.alerts;
    StateRules.AlertsInRuleOrder(h, face, phone, now);
    forall a | a in alerts
      ensures a.kind.Some? && KindOf(a) in AlertMessages
    {
      var i :| 0 <= i < |alerts| && alerts[i] == a;
      assert StateRules.RuleRank(alerts[i]) < 7;
    }
  }

  // What a run does.

  /** Frames are numbered 1, 2, 3, ... in the order they are shown; failed reads get no number. */
  lemma {:induction false} FramesNumbered(analyse: Analyser, w: World, ticks: seq<Tick>)
    requires w.counters.consecutiveFailures < MaxFailures
    ensures var r := Run(analyse, w, ticks);
            && (forall i :: 0 <= i < |r.reports| ==> r.reports[i].frameNumber == w.counters.frameCount + i + 1)
            && r.final.counters.frameCount == w.counters.frameCount + |r.reports| + (if r.stop == DetectionError then 1 else 0)
    decreases |ticks|
  {
    if ticks != [] {
      var t := ticks[0];
      var s := Step(analyse, w, t);
      if !t.readOk {
        FailedRead(analyse, w, t);
        if s.Continue? {
          FramesNumbered(analyse, s.world, ticks[1..]);
        }
      } else if t.detectionRaises {
        DetectionErrorEndsLoop(analyse, w, t);
      } else {
        YoloSchedule(analyse, w, t);
        QuitKeyEndsLoop(analyse, w, t);
        if s.Continue? {
          FramesNumbered(analyse, s.world, ticks[1..]);
          var rest := Run(analyse, s.world, ticks[1..]);
          assert Run(analyse, w, ticks).reports == [s.report.value] + rest.reports;
        }
      }
    }
  }

  /** The phone signal each shown frame was analysed with: fresh on YOLO frames, cached otherwise. */
  predicate SignalsCached(cached: bool, reports: seq<Report>) {
    && (forall i :: 0 <= i < |reports| ==> (reports[i].yoloRan <==> reports[i].frameNumber % YoloEvery == 0))
    && (|reports| > 0 && !reports[0].yoloRan ==> reports[0].phoneSignal == cached)
    && (forall i :: 0 < i < |reports| && !reports[i].yoloRan ==> reports[i].phoneSignal == reports[i - 1].phoneSignal)
  }

  /**
   * Over a run, YOLO runs on the frames numbered by a multiple of three,
   * and every other frame is analysed with the signal of the frame shown
   * before it, or with the cached signal for the first one.
   */
  lemma {:induction false} PhoneSignalCached(analyse: Analyser, w: World, ticks: seq<Tick>)
    requires w.counters.consecutiveFailures < MaxFailures
    ensures SignalsCached(w.counters.lastYoloPhone, Run(analyse, w, ticks).reports)
    decreases |ticks|
  {
    if ticks != [] {
      var t := ticks[0];
      var s := Step(analyse, w, t);
      if !t.readOk {
        FailedRead(analyse, w, t);
        if s.Continue? {
          PhoneSignalCached(analyse, s.world, ticks[1..]);
          var rest := Run(analyse, s.world, ticks[1..]).reports;
          assert Run(analyse, w, ticks).reports == [] + rest == rest;
        }
      } else if t.detectionRaises {
        DetectionErrorEndsLoop(analyse, w, t);
      } else {
        YoloSchedule(analyse, w, t);
        QuitKeyEndsLoop(analyse, w, t);
        var head := s.report.value;
        if s.Continue? {
          PhoneSignalCached(analyse, s.world, ticks[1..]);
          var rest := Run(analyse, s.world, ticks[1..]).reports;
          var all := Run(analyse, w, ticks).reports;
          assert all == [head] + rest;
          forall i | 1 <= i < |all|
            ensures (all[i].yoloRan <==> all[i].frameNumber % YoloEvery == 0)
            ensures !all[i].yoloRan ==> all[i].phoneSignal == all[i - 1].phoneSignal
          {
            assert all[i] == rest[i - 1];
            if i > 1 {
              assert all[i - 1] == rest[i - 2];
            } else {
              assert all[0] == head && s.world.counters.lastYoloPhone == head.phoneSignal;
              assert !rest[0].yoloRan ==> rest[0].phoneSignal == s.world.counters.lastYoloPhone;
            }
          }
        } else {
          assert Run(analyse, w, ticks).reports == [head];
        }
      }
    }
  }

  /** From start-up, the first two frames are analysed with no phone: the cache starts empty. */
  lemma NoPhoneBeforeFirstYolo(analyse: Analyser, mixerReady: bool, ttsReady: bool, ticks: seq<Tick>)
    ensures var r := Run(analyse, InitialWorld(mixerReady, ttsReady), ticks).reports;
            forall i :: 0 <= i < |r| && r[i].frameNumber < YoloEvery ==> !r[i].phoneSignal
  {
    var w := InitialWorld(mixerReady, ttsReady);
    var r := Run(analyse, w, ticks).reports;
    FramesNumbered(analyse, w, ticks);
    PhoneSignalCached(analyse, w, ticks);
    forall i | 0 <= i < |r| && r[i].frameNumber < YoloEvery
      ensures !r[i].phoneSignal
    {
      assert w.counters == Counters(0, 0, false);
      assert r[0].frameNumber == 1;
      assert !r[0].yoloRan;
      if i == 1 {
        assert r[1].frameNumber == 2 && !r[1].yoloRan;
      }
    }
  }

  /** Every shown frame handed its analysis' alerts over in order and drew the accepted ones. */
  lemma {:induction false} RunHandsAlertsOver(analyse: Analyser, w: World, ticks: seq<Tick>)
    requires w.counters.consecutiveFailures < MaxFailures
    ensures forall r :: r in Run(analyse, w, ticks).reports ==> KindsFollow(r.analysis.alerts, r.verdicts) && r.frame == Some(Drawn(r.verdicts))
    decreases |ticks|
  {
    if ticks != [] {
      var t := ticks[0];
      var s := Step(analyse, w, t);
      if !t.readOk {
        FailedRead(analyse, w, t);
        if s.Continue? {
          RunHandsAlertsOver(analyse, s.world, ticks[1..]);
        }
      } else if t.detectionRaises {
        DetectionErrorEndsLoop(analyse, w, t);
      } else {
        AlertsHandedOver(analyse, w, t);
        QuitKeyEndsLoop(analyse, w, t);
        if s.Continue? {
          RunHandsAlertsOver(analyse, s.world, ticks[1..]);
        }
      }
    }
  }

  /** Reads that all fail. */
  predicate FailedReads(ticks: seq<Tick>) {
    forall i :: 0 <= i < |ticks| ==> !ticks[i].readOk
  }

  /** Once the remaining reads up to the tenth in a row fail, the loop ends with nothing more shown. */
  lemma {:induction false} TenFailedReadsStop(analyse: Analyser, w: World, ticks: seq<Tick>)
    requires w.counters.consecutiveFailures < MaxFailures
    requires |ticks| == MaxFailures - w.counters.consecutiveFailures && FailedReads(ticks)
    ensures Run(analyse, w, ticks).stop == ReadFailures && Run(analyse, w, ticks).reports == []
    ensures Run(analyse, w, ticks).final.counters.consecutiveFailures == MaxFailures
    decreases |ticks|
  {
    FailedRead(analyse, w, ticks[0]);
    var s := Step(analyse, w, ticks[0]);
    if s.Continue? {
      TenFailedReadsStop(analyse, s.world, ticks[1..]);
    }
  }

  // The loop as the program runs it.

  /** How one `trigger_alert` call advances a hand-off that has produced `done` so far. */
  lemma FoldAdvances(total: Dispatched, done: seq<Verdict>, d: DispatchState, alerts: seq<Alert>, frame: Option<Canvas>,
                     clock: nat -> real, first: nat, t: Triggered)
    requires alerts != [] && t == Trigger(d, alerts[0], frame, clock(first))
    requires var rest := DispatchFold(d, alerts, frame, clock, first);
             total == Dispatched(rest.state, rest.frame, done + rest.verdicts)
    ensures var rest := DispatchFold(t.state, alerts[1..], t.frame, clock, first + 1);
            total == Dispatched(rest.state, rest.frame, done + [t.verdict] + rest.verdicts)
  {
    var rest := DispatchFold(t.state, alerts[1..], t.frame, clock, first + 1);
    assert done + ([t.verdict] + rest.verdicts) == done + [t.verdict] + rest.verdicts;
  }

  /** Hands each alert to `trigger_alert` in order, threading the frame through. */
  method DispatchAll(manager: AlertManager, alerts: seq<Alert>, frame: Option<Canvas>, clock: nat -> real)
    returns (out: Option<Canvas>, verdicts: seq<Verdict>)
    modifies manager
    ensures Dispatched(manager.Snapshot(), out, verdicts) == DispatchFold(old(manager.Snapshot()), alerts, frame, clock, 1)
  {
    ghost var total := DispatchFold(manager.Snapshot(), alerts, frame, clock, 1);
    assert total == Dispatched(total.state, total.frame, [] + total.verdicts);
    out := frame;
    verdicts := [];
    var i := 0;
    while i < |alerts|
      invariant 0 <= i <= |alerts|
      invariant var rest := DispatchFold(manager.Snapshot(), alerts[i..], out, clock, 1 + i);
                total == Dispatched(rest.state, rest.frame, verdicts + rest.verdicts)
      decreases |alerts| - i
    {
      ghost var d := manager.Snapshot();
      var out', verdict := manager.TriggerAlert(alerts[i], out, clock(1 + i));
      FoldAdvances(total, verdicts, d, alerts[i..], out, clock, 1 + i, Triggered(manager.Snapshot(), out', verdict));
      assert alerts[i..][1..] == alerts[i + 1..];
      out := out';
      verdicts := verdicts + [verdict];
      i := i + 1;
    }
    assert alerts[i..] == [];
  }

  /** The body of the loop after a successful read and detection. */
  method ShowFrame(ghost analyse: Analyser, analyzer: StateAnalyzer, manager: AlertManager, c: Counters, t: Tick)
    returns (s: StepResult)
    requires Agrees(analyse) && analyzer.Valid()
    modifies analyzer, manager
    ensures analyzer.Valid()
    ensures s == Analysed(analyse, World(c, old(analyzer.Snapshot()), old(manager.Snapshot())), t)
    ensures s.world.history == analyzer.Snapshot() && s.world.dispatch == manager.Snapshot()
  {
    var yoloRan := c.frameCount % YoloEvery == 0;
    var c' := if yoloRan then c.(lastYoloPhone := t.yoloPhone) else c;
    var analysis := analyzer.Analyze(t.face, c'.lastYoloPhone, t.clock(0));
    var frame, verdicts := DispatchAll(manager, analysis.alerts, Some([]), t.clock);
    var report := Report(c.frameCount, yoloRan, c'.lastYoloPhone, analysis, verdicts, frame, BannerFor(analysis.state));
    var w' := World(c', analyzer.Snapshot(), manager.Snapshot());
    s := if t.key % 256 == QuitKey then Stop(QuitPressed, w', Some(report)) else Continue(w', Some(report));
  }

  /** One turn of the loop body, on the two components and the loop's counters. */
  method Turn(ghost analyse: Analyser, analyzer: StateAnalyzer, manager: AlertManager, c: Counters, t: Tick)
    returns (s: StepResult)
    requires Agrees(analyse) && analyzer.Valid()
    modifies analyzer, manager
    ensures analyzer.Valid()
    ensures s == Step(analyse, World(c, old(analyzer.Snapshot()), old(manager.Snapshot())), t)
    ensures s.world.history == analyzer.Snapshot() && s.world.dispatch == manager.Snapshot()
  {
    var w := World(c, analyzer.Snapshot(), manager.Snapshot());
    if !t.readOk {
      var w' := w.(counters := c.(consecutiveFailures := c.consecutiveFailures + 1));
      s := if w'.counters.consecutiveFailures >= MaxFailures then Stop(ReadFailures, w', None) else Continue(w', None);
    } else if t.detectionRaises {
      s := Stop(DetectionError, w.(counters := Counters(c.frameCount + 1, 0, c.lastYoloPhone)), None);
    } else {
      s := ShowFrame(analyse, analyzer, manager, Counters(c.frameCount + 1, 0, c.lastYoloPhone), t);
    }
  }

  /** How one step advances a run that has shown `reports` so far. */
  lemma RunAdvances(analyse: Analyser, total: RunResult, reports: seq<Report>, w: World, ticks: seq<Tick>, s: StepResult)
    requires ticks != [] && total == After(reports, Run(analyse, w, ticks)) && s == Step(analyse, w, ticks[0])
    ensures s.Stop? ==> total == RunResult(reports + Reports(s.report), s.reason, s.world)
    ensures s.Continue? ==> total == After(reports + Reports(s.report), Run(analyse, s.world, ticks[1..]))
  {
  }

  /**
   * The main loop, from the components' construction on, over the given
   * ticks, for an analysis that agrees with the analyzer.
   */
  method MainLoopWith(ghost analyse: Analyser, mixerReady: bool, ttsReady: bool, ticks: seq<Tick>)
    returns (reports: seq<Report>, stop: StopReason, final: World)
    requires Agrees(analyse)
    ensures Run(analyse, InitialWorld(mixerReady, ttsReady), ticks) == RunResult(reports, stop, final)
  {
    var analyzer := new StateAnalyzer();
    var manager := new AlertManager(mixerReady, ttsReady);
    var counters := Counters(0, 0, false);
    ghost var total := Run(analyse, InitialWorld(mixerReady, ttsReady), ticks);
    reports := [];
    var i := 0;
    while i < |ticks|
      invariant 0 <= i <= |ticks|
      invariant analyzer.Valid()
      invariant total == After(reports, Run(analyse, World(counters, analyzer.Snapshot(), manager.Snapshot()), ticks[i..]))
      decreases |ticks| - i
    {
      ghost var w := World(counters, analyzer.Snapshot(), manager.Snapshot());
      var s := Turn(analyse, analyzer, manager, counters, ticks[i]);
      RunAdvances(analyse, total, reports, w, ticks[i..], s);
      assert ticks[i..][1..] == ticks[i + 1..];
      if s.Stop? {
        return reports + Reports(s.report), s.reason, s.world;
      }
      counters := s.world.counters;
      reports := reports + Reports(s.report);
      i := i + 1;
    }
    assert ticks[i..] == [];
    return reports, InputExhausted, World(counters, analyzer.Snapshot(), manager.Snapshot());
  }

  /**
   * The main loop, from the components' construction on, over the given
   * ticks: the frames shown, why the loop ended, and what it left behind.
   */
  method MainLoop(mixerReady: bool, ttsReady: bool, ticks: seq<Tick>) returns (reports: seq<Report>, stop: StopReason, final: World)
    ensures Run(AnalyzerSpec, InitialWorld(mixerReady, ttsReady), ticks) == RunResult(reports, stop, final)
  {
    AnalyzerSpecAgrees();
    reports, stop, final := MainLoopWith(AnalyzerSpec, mixerReady, ttsReady, ticks);
  }
}
