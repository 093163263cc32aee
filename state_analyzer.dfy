/**
 * The per-frame driver-state machine of safeway/ai/state_analyzer.py.
 *
 * `Next` states, as a function of the analyzer's history and one frame's
 * signals, what `StateAnalyzer.analyze` does; the class `StateAnalyzer`
 * updates its fields step by step as the source does and is proved to
 * agree with `Next`. The lemmas further down state the seven rules.
 */
module StateAnalysis {
  import opened Wrappers
  import opened Alerts
  import opened Settings
  import BoundedDeque
  import Decimal

  datatype HeadPosition = Center | Left | Right | Down

  /** What the face detector reports for one frame. */
  datatype FaceResults = FaceResults(
    faceDetected: bool,
    eyesOpen: bool,
    mouthOpen: bool,
    headPosition: HeadPosition)

  /** The `current_state` dictionary. */
  datatype StateFlags = StateFlags(
    fatigueDetected: bool,
    distractionDetected: bool,
    phoneDetected: bool,
    driverAbsent: bool,
    yawnDetected: bool,
    abnormalBlinkRate: bool,
    excessiveHeadMovement: bool)

  const NoFlags: StateFlags := StateFlags(false, false, false, false, false, false, false)

  /** The `maxlen` of the four deques. */
  const BlinkCapacity: nat := 30
  const YawnCapacity: nat := 100
  const HeadCapacity: nat := 10
  const EyeChangeCapacity: nat := 20

  /** All the analyzer's fields, as one value. */
  datatype History = History(
    eyesClosedStart: Option<real>,
    blinkTimes: seq<real>,
    yawnTimes: seq<real>,
    distractionStart: Option<real>,
    lastHeadPosition: Option<HeadPosition>,
    headHistory: seq<(real, HeadPosition)>,
    faceAbsentStart: Option<real>,
    lastEyeState: bool,
    eyeStateChanges: seq<(real, bool)>,
    currentState: StateFlags)

  /** Deques within their capacity; a gaze run has both a start and a side, or neither. */
  predicate WellFormed(h: History) {
    && |h.blinkTimes| <= BlinkCapacity
    && |h.yawnTimes| <= YawnCapacity
    && |h.headHistory| <= HeadCapacity
    && |h.eyeStateChanges| <= EyeChangeCapacity
    && (h.distractionStart.None? <==> h.lastHeadPosition.None?)
  }

  /** The fields as `__init__` sets them. */
  const InitialHistory: History := History(None, [], [], None, None, [], None, true, [], NoFlags)

  /** The dictionary `analyze` returns. */
  datatype Analysis = Analysis(state: StateFlags, alerts: seq<Alert>, timestamp: real)

  datatype Outcome = Outcome(history: History, analysis: Analysis)

  // The alerts each rule emits.
  const AbsentAlert: Alert := MakeAlert("driver_absent", "Conducteur absent", "high")
  const LowBlinkAlert: Alert := MakeAlert("fatigue", "Taux de clignement anormalement bas", "medium")
  const DrowsyAlert: Alert := MakeAlert("fatigue", "Somnolence détectée", "high")
  const HeadMovementAlert: Alert := MakeAlert("distraction", "Mouvements de tête excessifs détectés", "medium")
  const GazeAlert: Alert := MakeAlert("distraction", "Distraction détectée (regard détourné)", "medium")
  const PhoneAlert: Alert := MakeAlert("phone", "Téléphone détecté - Danger!", "high")

  const YawnPrefix: string := "Fatigue détectée ("
  const YawnSuffix: string := " bâillements)"

  function YawnMessage(count: nat): string {
    YawnPrefix + Decimal.FromNat(count) + YawnSuffix
  }

  function YawnAlert(count: nat): Alert {
    MakeAlert("yawn", YawnMessage(count), "medium")
  }

  /**
   * A condition timer (absence, closed eyes): set to `now` on the first frame
   * the condition holds, kept while it holds, cleared when it does not.
   */
  function Hold(start: Option<real>, active: bool, now: real): Option<real> {
    if !active then None else if start.None? then Some(now) else start
  }

  /** The timer was already running and has run for more than `limitMs`. */
  predicate HeldOver(start: Option<real>, active: bool, now: real, limitMs: real) {
    active && start.Some? && (now - start.value) * 1000.0 > limitMs
  }

  /** A closed-to-open transition of the eyes records a blink. */
  function RecordBlink(blinks: seq<real>, wasOpen: bool, isOpen: bool, now: real): seq<real>
    requires |blinks| <= BlinkCapacity
  {
    if !wasOpen && isOpen then BoundedDeque.Append(blinks, now, BlinkCapacity) else blinks
  }

  /** At least two blinks, and fewer blinks per second since the oldest than the threshold. */
  predicate LowBlinkRate(blinks: seq<real>, now: real) {
    |blinks| >= 2 && now - blinks[0] > 0.0 && (|blinks| as real) / (now - blinks[0]) < BlinkRateThreshold
  }

  function RecordYawn(yawns: seq<real>, mouthOpen: bool, now: real): seq<real>
    requires |yawns| <= YawnCapacity
  {
    if mouthOpen then BoundedDeque.Append(yawns, now, YawnCapacity) else yawns
  }

  /**
   * The stored yawn times at most the yawn window before `now`, in order:
   * every such time as often as it is stored, and no other.
   */
  function Recent(yawns: seq<real>, now: real): (r: seq<real>)
    ensures |r| <= |yawns|
    ensures forall t :: t in r <==> t in yawns && now - t <= YawnTimeWindow
    ensures forall t :: multiset(r)[t] == (if now - t <= YawnTimeWindow then multiset(yawns)[t] else 0)
  {
    if yawns == [] then []
    else
      assert yawns == [yawns[0]] + yawns[1..];
      (if now - yawns[0] <= YawnTimeWindow then [yawns[0]] else []) + Recent(yawns[1..], now)
  }

  /** The yawn rule, guarded against a yawn alert already in `prior`. */
  function YawnAlerts(yawns: seq<real>, prior: seq<Alert>, now: real): seq<Alert> {
    var recent := Recent(yawns, now);
    if |recent| >= YawnCountThreshold && !HasKind(prior, "yawn") then [YawnAlert(|recent|)] else []
  }

  /** The positions of the five newest head-history entries. */
  function LastFive(heads: seq<(real, HeadPosition)>): (ps: seq<HeadPosition>)
    requires |heads| >= 5
    ensures |ps| == 5
    ensures forall i :: 0 <= i < 5 ==> ps[i] == heads[|heads| - 5 + i].1
  {
    seq(5, i requires 0 <= i < 5 => heads[|heads| - 5 + i].1)
  }

  /** The number of adjacent pairs that differ. */
  function Changes(ps: seq<HeadPosition>): (n: nat)
    ensures |ps| >= 1 ==> n <= |ps| - 1
    ensures |ps| <= 1 ==> n == 0
  {
    if |ps| < 2 then 0 else (if ps[0] != ps[1] then 1 else 0) + Changes(ps[1..])
  }

  predicate ExcessiveMovement(heads: seq<(real, HeadPosition)>) {
    |heads| >= 5 && Changes(LastFive(heads)) >= 4
  }

  predicate Sideways(pos: HeadPosition) {
    pos == Left || pos == Right
  }

  /** The gaze run after this frame: its start time and side. */
  function GazeStep(start: Option<real>, side: Option<HeadPosition>, pos: HeadPosition, now: real)
    : (Option<real>, Option<HeadPosition>)
  {
    if !Sideways(pos) then (None, None)
    else if start.None? then (Some(now), Some(pos))
    else if Some(pos) == side then (start, side)
    else (Some(now), Some(pos))
  }

  /** The run on this side was already going and has lasted more than the distraction time. */
  predicate GazeHeld(start: Option<real>, side: Option<HeadPosition>, pos: HeadPosition, now: real) {
    Sideways(pos) && start.Some? && Some(pos) == side && (now - start.value) * 1000.0 > DistractionTimeMs
  }

  /** The absence rule fires: the face has been missing for longer than the absence time. */
  predicate AbsenceFires(h: History, face: FaceResults, now: real) {
    HeldOver(h.faceAbsentStart, !face.faceDetected, now, AbsenceTimeMs)
  }

  /** The blink history after this frame. */
  function NextBlinks(h: History, face: FaceResults, now: real): seq<real>
    requires WellFormed(h)
  {
    if face.faceDetected then RecordBlink(h.blinkTimes, h.lastEyeState, face.eyesOpen, now) else h.blinkTimes
  }

  function NextYawns(h: History, face: FaceResults, now: real): seq<real>
    requires WellFormed(h)
  {
    if face.faceDetected then RecordYawn(h.yawnTimes, face.mouthOpen, now) else h.yawnTimes
  }

  function NextHeads(h: History, face: FaceResults, now: real): seq<(real, HeadPosition)>
    requires WellFormed(h)
  {
    if face.faceDetected then BoundedDeque.Append(h.headHistory, (now, face.headPosition), HeadCapacity)
    else h.headHistory
  }

  /** The seven flags of this call; each one says whether its rule fired now. */
  function Flags(h: History, face: FaceResults, phone: bool, now: real): StateFlags
    requires WellFormed(h)
  {
    var absent := AbsenceFires(h, face, now);
    if !face.faceDetected then NoFlags.(driverAbsent := absent, phoneDetected := phone)
    else StateFlags(
      fatigueDetected := HeldOver(h.eyesClosedStart, !face.eyesOpen, now, EyeClosedTimeMs),
      distractionDetected := GazeHeld(h.distractionStart, h.lastHeadPosition, face.headPosition, now),
      phoneDetected := phone,
      driverAbsent := absent,
      yawnDetected := face.mouthOpen,
      abnormalBlinkRate := LowBlinkRate(NextBlinks(h, face, now), now),
      excessiveHeadMovement := ExcessiveMovement(NextHeads(h, face, now)))
  }

  /** The alerts of the rules that run before the yawn rule. */
  function AlertsBeforeYawn(h: History, face: FaceResults, now: real): seq<Alert>
    requires WellFormed(h)
    requires face.faceDetected
  {
    (if AbsenceFires(h, face, now) then [AbsentAlert] else [])
    + (if LowBlinkRate(NextBlinks(h, face, now), now) then [LowBlinkAlert] else [])
    + (if HeldOver(h.eyesClosedStart, !face.eyesOpen, now, EyeClosedTimeMs) then [DrowsyAlert] else [])
  }

  /** The alert list of this call, in the order the rules run. */
  function RaisedAlerts(h: History, face: FaceResults, phone: bool, now: real): seq<Alert>
    requires WellFormed(h)
  {
    var phoneAlerts := if phone then [PhoneAlert] else [];
    if !face.faceDetected then
      (if AbsenceFires(h, face, now) then [AbsentAlert] else []) + phoneAlerts
    else
      var beforeYawn := AlertsBeforeYawn(h, face, now);
      beforeYawn
      + YawnAlerts(NextYawns(h, face, now), beforeYawn, now)
      + (if ExcessiveMovement(NextHeads(h, face, now)) then [HeadMovementAlert] else [])
      + (if GazeHeld(h.distractionStart, h.lastHeadPosition, face.headPosition, now) then [GazeAlert] else [])
      + phoneAlerts
  }

  /** The analyzer's fields after this call. */
  function Advance(h: History, face: FaceResults, phone: bool, now: real): (h': History)
    requires WellFormed(h)
    ensures WellFormed(h')
  {
    var absentStart := Hold(h.faceAbsentStart, !face.faceDetected, now);
    var state := Flags(h, face, phone, now);
    if !face.faceDetected then h.(faceAbsentStart := absentStart, currentState := state)
    else
      var gaze := GazeStep(h.distractionStart, h.lastHeadPosition, face.headPosition, now);
      History(
        eyesClosedStart := Hold(h.eyesClosedStart, !face.eyesOpen, now),
        blinkTimes := NextBlinks(h, face, now),
        yawnTimes := NextYawns(h, face, now),
        distractionStart := gaze.0,
        lastHeadPosition := gaze.1,
        headHistory := NextHeads(h, face, now),
        faceAbsentStart := absentStart,
        lastEyeState := face.eyesOpen,
        eyeStateChanges := BoundedDeque.Append(h.eyeStateChanges, (now, face.eyesOpen), EyeChangeCapacity),
        currentState := state)
  }

  /** The reference outcome of one call, stated rule by rule. */
  function Reference(h: History, face: FaceResults, phone: bool, now: real): Outcome
    requires WellFormed(h)
  {
    Outcome(Advance(h, face, phone, now), Analysis(Flags(h, face, phone, now), RaisedAlerts(h, face, phone, now), now))
  }

  // The source's own sequence of steps: each stage below is one block of
  // `analyze`, acting on the fields and on the alert list built so far.

  datatype Stage = Stage(h: History, alerts: seq<Alert>)

  /** The flags are reset and the alert list starts empty. */
  function Begin(h: History): Stage {
    Stage(h.(currentState := NoFlags), [])
  }

  function AbsenceStage(s: Stage, faceDetected: bool, now: real): (r: Stage)
    requires WellFormed(s.h)
    ensures WellFormed(r.h)
  {
    var h := s.h;
    if faceDetected then Stage(h.(faceAbsentStart := None), s.alerts)
    else if h.faceAbsentStart.None? then Stage(h.(faceAbsentStart := Some(now)), s.alerts)
    else if (now - h.faceAbsentStart.value) * 1000.0 > AbsenceTimeMs then
      Stage(h.(currentState := h.currentState.(driverAbsent := true)), s.alerts + [AbsentAlert])
    else s
  }

  function BlinkStage(s: Stage, eyesOpen: bool, now: real): (r: Stage)
    requires WellFormed(s.h)
    ensures WellFormed(r.h)
  {
    var h := s.h;
    var blinks := if !h.lastEyeState && eyesOpen then BoundedDeque.Append(h.blinkTimes, now, BlinkCapacity)
                  else h.blinkTimes;
    var changes := BoundedDeque.Append(h.eyeStateChanges, (now, eyesOpen), EyeChangeCapacity);
    var h1 := h.(blinkTimes := blinks, lastEyeState := eyesOpen, eyeStateChanges := changes);
    if LowBlinkRate(blinks, now) then
      var h2 := h1.(currentState := h1.currentState.(abnormalBlinkRate := true));
      Stage(h2, if !h2.currentState.fatigueDetected then s.alerts + [LowBlinkAlert] else s.alerts)
    else Stage(h1, s.alerts)
  }

  function ClosedEyesStage(s: Stage, eyesOpen: bool, now: real): (r: Stage)
    requires WellFormed(s.h)
    ensures WellFormed(r.h)
  {
    var h := s.h;
    if eyesOpen then Stage(h.(eyesClosedStart := None), s.alerts)
    else if h.eyesClosedStart.None? then Stage(h.(eyesClosedStart := Some(now)), s.alerts)
    else if (now - h.eyesClosedStart.value) * 1000.0 > EyeClosedTimeMs then
      Stage(h.(currentState := h.currentState.(fatigueDetected := true)), s.alerts + [DrowsyAlert])
    else s
  }

  function YawnStage(s: Stage, mouthOpen: bool, now: real): (r: Stage)
    requires WellFormed(s.h)
    ensures WellFormed(r.h)
  {
    var h := s.h;
    var h1 := if mouthOpen
      then h.(yawnTimes := BoundedDeque.Append(h.yawnTimes, now, YawnCapacity),
              currentState := h.currentState.(yawnDetected := true))
      else h;
    var recent := Recent(h1.yawnTimes, now);
    if |recent| >= YawnCountThreshold && !HasKind(s.alerts, "yawn") then Stage(h1, s.alerts + [YawnAlert(|recent|)])
    else Stage(h1, s.alerts)
  }

  function HeadStage(s: Stage, pos: HeadPosition, now: real): (r: Stage)
    requires WellFormed(s.h)
    ensures WellFormed(r.h)
  {
    var h := s.h;
    var heads := BoundedDeque.Append(h.headHistory, (now, pos), HeadCapacity);
    var h1 := h.(headHistory := heads);
    if |heads| >= 5 && Changes(LastFive(heads)) >= 4 then
      Stage(h1.(currentState := h1.currentState.(excessiveHeadMovement := true)), s.alerts + [HeadMovementAlert])
    else Stage(h1, s.alerts)
  }

  function GazeStage(s: Stage, pos: HeadPosition, now: real): (r: Stage)
    requires WellFormed(s.h)
    ensures WellFormed(r.h)
  {
    var h := s.h;
    if pos == Left || pos == Right then
      if h.distractionStart.None? then Stage(h.(distractionStart := Some(now), lastHeadPosition := Some(pos)), s.alerts)
      else if Some(pos) == h.lastHeadPosition then
        if (now - h.distractionStart.value) * 1000.0 > DistractionTimeMs then
          Stage(h.(currentState := h.currentState.(distractionDetected := true)), s.alerts + [GazeAlert])
        else s
      else Stage(h.(distractionStart := Some(now), lastHeadPosition := Some(pos)), s.alerts)
    else Stage(h.(distractionStart := None, lastHeadPosition := None), s.alerts)
  }

  function PhoneStage(s: Stage, phone: bool): Stage {
    if phone then Stage(s.h.(currentState := s.h.currentState.(phoneDetected := true)), s.alerts + [PhoneAlert])
    else s
  }

  /** The stages that only run when a face was detected, in source order. */
  function FaceStages(s: Stage, face: FaceResults, now: real): (r: Stage)
    requires WellFormed(s.h)
    ensures WellFormed(r.h)
  {
    var s2 := BlinkStage(s, face.eyesOpen, now);
    var s3 := ClosedEyesStage(s2, face.eyesOpen, now);
    var s4 := YawnStage(s3, face.mouthOpen, now);
    var s5 := HeadStage(s4, face.headPosition, now);
    GazeStage(s5, face.headPosition, now)
  }

  /** One call of `analyze`: the new fields and the returned analysis. */
  function Next(h: History, face: FaceResults, phone: bool, now: real): (o: Outcome)
    requires WellFormed(h)
    ensures WellFormed(o.history)
  {
    var s1 := AbsenceStage(Begin(h), face.faceDetected, now);
    var s6 := if face.faceDetected then FaceStages(s1, face, now) else s1;
    var s7 := PhoneStage(s6, phone);
    Outcome(s7.h, Analysis(s7.h.currentState, s7.alerts, now))
  }

  // Each stage on its own, in closed form.

  lemma BlinkStageForm(s: Stage, eyesOpen: bool, now: real)
    requires WellFormed(s.h) && !s.h.currentState.fatigueDetected
    ensures var b := RecordBlink(s.h.blinkTimes, s.h.lastEyeState, eyesOpen, now);
            var low := LowBlinkRate(b, now);
            BlinkStage(s, eyesOpen, now) == Stage(
              s.h.(blinkTimes := b, lastEyeState := eyesOpen,
                   eyeStateChanges := BoundedDeque.Append(s.h.eyeStateChanges, (now, eyesOpen), EyeChangeCapacity),
                   currentState := s.h.currentState.(abnormalBlinkRate := s.h.currentState.abnormalBlinkRate || low)),
              s.alerts + (if low then [LowBlinkAlert] else []))
  {
  }

  lemma ClosedEyesStageForm(s: Stage, eyesOpen: bool, now: real)
    requires WellFormed(s.h)
    ensures var fired := HeldOver(s.h.eyesClosedStart, !eyesOpen, now, EyeClosedTimeMs);
            ClosedEyesStage(s, eyesOpen, now) == Stage(
              s.h.(eyesClosedStart := Hold(s.h.eyesClosedStart, !eyesOpen, now),
                   currentState := s.h.currentState.(fatigueDetected := s.h.currentState.fatigueDetected || fired)),
              s.alerts + (if fired then [DrowsyAlert] else []))
  {
  }

  lemma YawnStageForm(s: Stage, mouthOpen: bool, now: real)
    requires WellFormed(s.h)
    ensures var y := RecordYawn(s.h.yawnTimes, mouthOpen, now);
            YawnStage(s, mouthOpen, now) == Stage(
              s.h.(yawnTimes := y,
                   currentState := s.h.currentState.(yawnDetected := s.h.currentState.yawnDetected || mouthOpen)),
              s.alerts + YawnAlerts(y, s.alerts, now))
  {
  }

  lemma HeadStageForm(s: Stage, pos: HeadPosition, now: real)
    requires WellFormed(s.h)
    ensures var heads := BoundedDeque.Append(s.h.headHistory, (now, pos), HeadCapacity);
            var fired := ExcessiveMovement(heads);
            HeadStage(s, pos, now) == Stage(
              s.h.(headHistory := heads,
                   currentState := s.h.currentState.(excessiveHeadMovement := s.h.currentState.excessiveHeadMovement || fired)),
              s.alerts + (if fired then [HeadMovementAlert] else []))
  {
  }

  lemma GazeStageForm(s: Stage, pos: HeadPosition, now: real)
    requires WellFormed(s.h)
    ensures var g := GazeStep(s.h.distractionStart, s.h.lastHeadPosition, pos, now);
            var fired := GazeHeld(s.h.distractionStart, s.h.lastHeadPosition, pos, now);
            GazeStage(s, pos, now) == Stage(
              s.h.(distractionStart := g.0, lastHeadPosition := g.1,
                   currentState := s.h.currentState.(distractionDetected := s.h.currentState.distractionDetected || fired)),
              s.alerts + (if fired then [GazeAlert] else []))
  {
  }

  /** The absence, blink and closed-eyes stages of a call with a face in view. */
  lemma EarlyFaceStages(h: History, face: FaceResults, now: real)
    requires WellFormed(h) && face.faceDetected
    ensures ClosedEyesStage(BlinkStage(AbsenceStage(Begin(h), true, now), face.eyesOpen, now), face.eyesOpen, now)
            == Stage(h.(faceAbsentStart := None,
                        blinkTimes := NextBlinks(h, face, now),
                        lastEyeState := face.eyesOpen,
                        eyeStateChanges := BoundedDeque.Append(h.eyeStateChanges, (now, face.eyesOpen), EyeChangeCapacity),
                        eyesClosedStart := Hold(h.eyesClosedStart, !face.eyesOpen, now),
                        currentState := NoFlags.(abnormalBlinkRate := LowBlinkRate(NextBlinks(h, face, now), now),
                                                 fatigueDetected := HeldOver(h.eyesClosedStart, !face.eyesOpen, now, EyeClosedTimeMs))),
                     AlertsBeforeYawn(h, face, now))
  {
    var s1 := AbsenceStage(Begin(h), true, now);
    assert s1 == Stage(h.(faceAbsentStart := None, currentState := NoFlags), []);
    BlinkStageForm(s1, face.eyesOpen, now);
    ClosedEyesStageForm(BlinkStage(s1, face.eyesOpen, now), face.eyesOpen, now);
  }

  /** The yawn, head-movement and gaze stages, on any fields and alerts. */
  lemma LateFaceStages(s: Stage, face: FaceResults, now: real)
    requires WellFormed(s.h)
    ensures var y := RecordYawn(s.h.yawnTimes, face.mouthOpen, now);
            var heads := BoundedDeque.Append(s.h.headHistory, (now, face.headPosition), HeadCapacity);
            var g := GazeStep(s.h.distractionStart, s.h.lastHeadPosition, face.headPosition, now);
            var moved := ExcessiveMovement(heads);
            var gazed := GazeHeld(s.h.distractionStart, s.h.lastHeadPosition, face.headPosition, now);
            GazeStage(HeadStage(YawnStage(s, face.mouthOpen, now), face.headPosition, now), face.headPosition, now)
            == Stage(s.h.(yawnTimes := y, headHistory := heads, distractionStart := g.0, lastHeadPosition := g.1,
                          currentState := s.h.currentState.(
                            yawnDetected := s.h.currentState.yawnDetected || face.mouthOpen,
                            excessiveHeadMovement := s.h.currentState.excessiveHeadMovement || moved,
                            distractionDetected := s.h.currentState.distractionDetected || gazed)),
                     s.alerts + YawnAlerts(y, s.alerts, now)
                     + (if moved then [HeadMovementAlert] else [])
                     + (if gazed then [GazeAlert] else []))
  {
    YawnStageForm(s, face.mouthOpen, now);
    var s4 := YawnStage(s, face.mouthOpen, now);
    HeadStageForm(s4, face.headPosition, now);
    GazeStageForm(HeadStage(s4, face.headPosition, now), face.headPosition, now);
  }

  /** With a face in view, the face stages produce the reference fields and alerts. */
  lemma FaceStagesMatchReference(h: History, face: FaceResults, now: real)
    requires WellFormed(h) && face.faceDetected
    ensures FaceStages(AbsenceStage(Begin(h), true, now), face, now)
            == Stage(Advance(h, face, false, now), RaisedAlerts(h, face, false, now))
  {
    var s1 := AbsenceStage(Begin(h), true, now);
    EarlyFaceStages(h, face, now);
    LateFaceStages(ClosedEyesStage(BlinkStage(s1, face.eyesOpen, now), face.eyesOpen, now), face, now);
  }

  /**
   * The source's step-by-step `analyze` and the rule-by-rule reference agree.
   * In particular the low-blink-rate guard on `fatigue_detected` and the
   * yawn rule's look for an earlier yawn alert never suppress anything: the
   * flags were just reset, and no earlier rule raises a yawn alert.
   */
  lemma {:induction false} NextMatchesReference(h: History, face: FaceResults, phone: bool, now: real)
    requires WellFormed(h)
    ensures Next(h, face, phone, now) == Reference(h, face, phone, now)
    ensures Next(h, face, phone, now).history == Advance(h, face, phone, now)
    ensures Next(h, face, phone, now).analysis.state == Flags(h, face, phone, now)
    ensures Next(h, face, phone, now).analysis.alerts == RaisedAlerts(h, face, phone, now)
  {
    if face.faceDetected {
      FaceStagesMatchReference(h, face, now);
    } else {
      FacelessStageMatchesReference(h, face, now);
    }
    PhoneStageMatchesReference(h, face, phone, now);
  }

  lemma FacelessStageMatchesReference(h: History, face: FaceResults, now: real)
    requires WellFormed(h) && !face.faceDetected
    ensures AbsenceStage(Begin(h), false, now) == Stage(Advance(h, face, false, now), RaisedAlerts(h, face, false, now))
  {
  }

  /** The phone rule runs last, on top of the other six. */
  lemma PhoneStageMatchesReference(h: History, face: FaceResults, phone: bool, now: real)
    requires WellFormed(h)
    ensures PhoneStage(Stage(Advance(h, face, false, now), RaisedAlerts(h, face, false, now)), phone)
            == Stage(Advance(h, face, phone, now), RaisedAlerts(h, face, phone, now))
    ensures Advance(h, face, phone, now).currentState == Flags(h, face, phone, now)
  {
  }

  class StateAnalyzer {
    var eyesClosedStartTime: Option<real>
    var blinkTimestamps: seq<real>
    var yawnTimestamps: seq<real>
    var distractionStartTime: Option<real>
    var lastHeadPosition: Option<HeadPosition>
    var headPositionsHistory: seq<(real, HeadPosition)>
    var faceAbsentStartTime: Option<real>
    var lastEyeState: bool
    var eyeStateChanges: seq<(real, bool)>
    var currentState: StateFlags

    function Snapshot(): History
      reads this
    {
      History(eyesClosedStartTime, blinkTimestamps, yawnTimestamps, distractionStartTime,
              lastHeadPosition, headPositionsHistory, faceAbsentStartTime, lastEyeState,
              eyeStateChanges, currentState)
    }

    predicate Valid()
      reads this
    {
      WellFormed(Snapshot())
    }

    constructor ()
      ensures Valid() && Snapshot() == InitialHistory
    {
      eyesClosedStartTime := None;
      blinkTimestamps := [];
      yawnTimestamps := [];
      distractionStartTime := None;
      lastHeadPosition := None;
      headPositionsHistory := [];
      faceAbsentStartTime := None;
      lastEyeState := true;
      eyeStateChanges := [];
      currentState := NoFlags;
    }

    /** `analyze(face_results, hand_results, yolo_results)` at time `now`. */
    method Analyze(face: FaceResults, phone: bool, now: real) returns (analysis: Analysis)
      requires Valid()
      modifies this
      ensures Valid()
      ensures Snapshot() == Next(old(Snapshot()), face, phone, now).history
      ensures analysis == Next(old(Snapshot()), face, phone, now).analysis
    {
      var alerts: seq<Alert> := [];
      currentState := NoFlags;
      alerts := TrackAbsence(face.faceDetected, now, alerts);
      if face.faceDetected {
        alerts := TrackBlinks(face.eyesOpen, now, alerts);
        alerts := TrackClosedEyes(face.eyesOpen, now, alerts);
        alerts := TrackYawns(face.mouthOpen, now, alerts);
        alerts := TrackHeadMovement(face.headPosition, now, alerts);
        alerts := TrackGaze(face.headPosition, now, alerts);
      }
      if phone {
        currentState := currentState.(phoneDetected := true);
        alerts := alerts + [PhoneAlert];
      }
      analysis := Analysis(currentState, alerts, now);
    }

    /** Rule 1: the absence timer. */
    method TrackAbsence(faceDetected: bool, now: real, alerts: seq<Alert>) returns (out: seq<Alert>)
      requires Valid()
      modifies this`faceAbsentStartTime, this`currentState
      ensures Valid()
      ensures Stage(Snapshot(), out) == AbsenceStage(Stage(old(Snapshot()), alerts), faceDetected, now)
    {
      out := alerts;
      if !faceDetected {
        if faceAbsentStartTime.None? {
          faceAbsentStartTime := Some(now);
        } else {
          var absentDuration := (now - faceAbsentStartTime.value) * 1000.0;
          if absentDuration > AbsenceTimeMs {
            currentState := currentState.(driverAbsent := true);
            out := out + [AbsentAlert];
          }
        }
      } else {
        faceAbsentStartTime := None;
      }
    }

    /** Rule 2: blink transitions and the blink rate. */
    method TrackBlinks(eyesOpen: bool, now: real, alerts: seq<Alert>) returns (out: seq<Alert>)
      requires Valid()
      modifies this`blinkTimestamps, this`lastEyeState, this`eyeStateChanges, this`currentState
      ensures Valid()
      ensures Stage(Snapshot(), out) == BlinkStage(Stage(old(Snapshot()), alerts), eyesOpen, now)
    {
      out := alerts;
      if !lastEyeState && eyesOpen {
        blinkTimestamps := BoundedDeque.Append(blinkTimestamps, now, BlinkCapacity);
      }
      lastEyeState := eyesOpen;
      eyeStateChanges := BoundedDeque.Append(eyeStateChanges, (now, eyesOpen), EyeChangeCapacity);
      if |blinkTimestamps| >= 2 {
        var timeWindow := now - blinkTimestamps[0];
        if timeWindow > 0.0 {
          var blinkRate := (|blinkTimestamps| as real) / timeWindow;
          if blinkRate < BlinkRateThreshold {
            currentState := currentState.(abnormalBlinkRate := true);
            if !currentState.fatigueDetected {
              out := out + [LowBlinkAlert];
            }
          }
        }
      }
    }

    /** Rule 3: the closed-eyes timer. */
    method TrackClosedEyes(eyesOpen: bool, now: real, alerts: seq<Alert>) returns (out: seq<Alert>)
      requires Valid()
      modifies this`eyesClosedStartTime, this`currentState
      ensures Valid()
      ensures Stage(Snapshot(), out) == ClosedEyesStage(Stage(old(Snapshot()), alerts), eyesOpen, now)
    {
      out := alerts;
      if !eyesOpen {
        if eyesClosedStartTime.None? {
          eyesClosedStartTime := Some(now);
        } else {
          var closedDuration := (now - eyesClosedStartTime.value) * 1000.0;
          if closedDuration > EyeClosedTimeMs {
            currentState := currentState.(fatigueDetected := true);
            out := out + [DrowsyAlert];
          }
        }
      } else {
        eyesClosedStartTime := None;
      }
    }

    /** Rule 4: yawn times and the yawn count over the trailing window. */
    method TrackYawns(mouthOpen: bool, now: real, alerts: seq<Alert>) returns (out: seq<Alert>)
      requires Valid()
      modifies this`yawnTimestamps, this`currentState
      ensures Valid()
      ensures Stage(Snapshot(), out) == YawnStage(Stage(old(Snapshot()), alerts), mouthOpen, now)
    {
      out := alerts;
      if mouthOpen {
        yawnTimestamps := BoundedDeque.Append(yawnTimestamps, now, YawnCapacity);
        currentState := currentState.(yawnDetected := true);
      }
      var recentYawns := Recent(yawnTimestamps, now);
      if |recentYawns| >= YawnCountThreshold {
        if !HasKind(out, "yawn") {
          out := out + [YawnAlert(|recentYawns|)];
        }
      }
    }

    /** Rule 5: changes of head position among the five newest entries. */
    method TrackHeadMovement(headPosition: HeadPosition, now: real, alerts: seq<Alert>) returns (out: seq<Alert>)
      requires Valid()
      modifies this`headPositionsHistory, this`currentState
      ensures Valid()
      ensures Stage(Snapshot(), out) == HeadStage(Stage(old(Snapshot()), alerts), headPosition, now)
    {
      out := alerts;
      headPositionsHistory := BoundedDeque.Append(headPositionsHistory, (now, headPosition), HeadCapacity);
      if |headPositionsHistory| >= 5 {
        var positionChanges := Changes(LastFive(headPositionsHistory));
        if positionChanges >= 4 {
          currentState := currentState.(excessiveHeadMovement := true);
          out := out + [HeadMovementAlert];
        }
      }
    }

    /** Rule 6: the gaze run to one side. */
    method TrackGaze(headPosition: HeadPosition, now: real, alerts: seq<Alert>) returns (out: seq<Alert>)
      requires Valid()
      modifies this`distractionStartTime, this`lastHeadPosition, this`currentState
      ensures Valid()
      ensures Stage(Snapshot(), out) == GazeStage(Stage(old(Snapshot()), alerts), headPosition, now)
    {
      out := alerts;
      if headPosition == Left || headPosition == Right {
        if distractionStartTime.None? {
          distractionStartTime := Some(now);
          lastHeadPosition := Some(headPosition);
        } else if Some(headPosition) == lastHeadPosition {
          var distractionDuration := (now - distractionStartTime.value) * 1000.0;
          if distractionDuration > DistractionTimeMs {
            currentState := currentState.(distractionDetected := true);
            out := out + [GazeAlert];
          }
        } else {
          distractionStartTime := Some(now);
          lastHeadPosition := Some(headPosition);
        }
      } else {
        distractionStartTime := None;
        lastHeadPosition := None;
      }
    }
  }
}
