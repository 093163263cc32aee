/**
 * The rules of `StateAnalyzer.analyze`, stated about `StateAnalysis.Next`.
 * Each lemma first moves from the step-by-step `Next` to the rule-by-rule
 * `Reference` (`NextMatchesReference`) and then reads the rule off it.
 */
module StateRules {
  import opened Wrappers
  import opened Alerts
  import opened Settings
  import opened StateAnalysis
  import BoundedDeque
  import Decimal

  // ---------------------------------------------------------------------
  // Alert list shape: one optional alert per rule, in rule order.

  /** The yawn alert of a call with a face in view: one alert when the recent count reaches the threshold. */
  function YawnPart(h: History, face: FaceResults, now: real): (r: seq<Alert>)
    requires WellFormed(h)
  {
    var recent := Recent(NextYawns(h, face, now), now);
    if face.faceDetected && |recent| >= YawnCountThreshold then [YawnAlert(|recent|)] else []
  }

  /** The alert of one rule: present when the rule fired. */
  function Opt(fired: bool, a: Alert): (r: seq<Alert>)
    ensures |r| <= 1 && (forall i :: 0 <= i < |r| ==> r[i] == a)
    ensures a in r <==> fired
  {
    if fired then [a] else []
  }

  /** The alerts the flags call for, in the order the rules run, with the yawn alerts in fourth place. */
  function Select(f: StateFlags, yawns: seq<Alert>): seq<Alert> {
    Opt(f.driverAbsent, AbsentAlert)
    + Opt(f.abnormalBlinkRate, LowBlinkAlert)
    + Opt(f.fatigueDetected, DrowsyAlert)
    + yawns
    + Opt(f.excessiveHeadMovement, HeadMovementAlert)
    + Opt(f.distractionDetected, GazeAlert)
    + Opt(f.phoneDetected, PhoneAlert)
  }

  /** No rule before the yawn rule raises a yawn alert. */
  lemma NoYawnBeforeYawnRule(h: History, face: FaceResults, now: real)
    requires WellFormed(h) && face.faceDetected
    ensures !HasKind(AlertsBeforeYawn(h, face, now), "yawn")
  {
    var a := AlertsBeforeYawn(h, face, now);
    forall i | 0 <= i < |a|
      ensures a[i].kind != Some("yawn")
    {
      assert a[i] in a;
    }
  }

  /**
   * Every alert of a call is the one its rule's flag calls for: the
   * alerts are exactly those of the set flags, in rule order, with at most
   * one yawn alert, raised when the recent yawn count reaches the threshold.
   */
  lemma AlertsFollowFlags(h: History, face: FaceResults, phone: bool, now: real)
    requires WellFormed(h)
    ensures var a := Next(h, face, phone, now).analysis;
            a.alerts == Select(a.state, YawnPart(h, face, now))
  {
    NextMatchesReference(h, face, phone, now);
    if face.faceDetected {
      NoYawnBeforeYawnRule(h, face, now);
    }
  }

  /** The rule that raises an alert, numbered in the order the rules run; 7 for no rule. */
  function RuleRank(a: Alert): nat {
    if a == AbsentAlert then 0
    else if a == LowBlinkAlert then 1
    else if a == DrowsyAlert then 2
    else if a.kind == Some("yawn") then 3
    else if a == HeadMovementAlert then 4
    else if a == GazeAlert then 5
    else if a == PhoneAlert then 6
    else 7
  }

  /** The rank of each rule's alert. */
  lemma RanksOfRuleAlerts()
    ensures RuleRank(AbsentAlert) == 0 && RuleRank(LowBlinkAlert) == 1 && RuleRank(DrowsyAlert) == 2
    ensures RuleRank(HeadMovementAlert) == 4 && RuleRank(GazeAlert) == 5 && RuleRank(PhoneAlert) == 6
    ensures forall a: Alert :: a.kind == Some("yawn") ==> RuleRank(a) == 3
  {
  }

  /** Every alert comes from a rule, and the rules' alerts appear in rule order, at most one per rule. */
  predicate InRuleOrder(alerts: seq<Alert>) {
    && (forall i :: 0 <= i < |alerts| ==> RuleRank(alerts[i]) < 7)
    && (forall i, j :: 0 <= i < j < |alerts| ==> RuleRank(alerts[i]) < RuleRank(alerts[j]))
  }

  predicate YawnsOnly(yawns: seq<Alert>) {
    forall i :: 0 <= i < |yawns| ==> yawns[i].kind == Some("yawn")
  }

  lemma YawnPartShape(h: History, face: FaceResults, now: real)
    requires WellFormed(h)
    ensures |YawnPart(h, face, now)| <= 1 && YawnsOnly(YawnPart(h, face, now))
  {
  }

  /** Every alert of the list has a rank below `k`. */
  predicate RanksBelow(alerts: seq<Alert>, k: int) {
    forall i :: 0 <= i < |alerts| ==> RuleRank(alerts[i]) < k
  }

  /** Appending the alerts of rule `k` to alerts of lower rank keeps rule order. */
  lemma AppendInRuleOrder(prefix: seq<Alert>, more: seq<Alert>, k: nat)
    requires InRuleOrder(prefix) && RanksBelow(prefix, k)
    requires |more| <= 1 && k < 7 && forall i :: 0 <= i < |more| ==> RuleRank(more[i]) == k
    ensures InRuleOrder(prefix + more) && RanksBelow(prefix + more, k + 1)
  {
    var s := prefix + more;
    forall i, j | 0 <= i < j < |s|
      ensures RuleRank(s[i]) < RuleRank(s[j])
    {
      assert s[i] == prefix[i];
      if j < |prefix| {
        assert s[j] == prefix[j];
      } else {
        assert s[j] == more[j - |prefix|];
      }
    }
    forall i | 0 <= i < |s|
      ensures RuleRank(s[i]) < k + 1
    {
      if i < |prefix| {
        assert s[i] == prefix[i];
      } else {
        assert s[i] == more[i - |prefix|];
      }
    }
  }

  /** Appending the optional alert of rule `k` to alerts of lower rank keeps rule order. */
  lemma AppendRule(prefix: seq<Alert>, fired: bool, a: Alert, k: nat)
    requires InRuleOrder(prefix) && RanksBelow(prefix, k)
    requires RuleRank(a) == k && k < 7
    ensures InRuleOrder(prefix + Opt(fired, a)) && RanksBelow(prefix + Opt(fired, a), k + 1)
  {
    AppendInRuleOrder(prefix, Opt(fired, a), k);
  }

  /** The alerts of the absence, blink-rate and eyes-closed rules are in rule order. */
  lemma EarlyAlertsInRuleOrder(f: StateFlags)
    ensures var t := Opt(f.driverAbsent, AbsentAlert) + Opt(f.abnormalBlinkRate, LowBlinkAlert) + Opt(f.fatigueDetected, DrowsyAlert);
            InRuleOrder(t) && RanksBelow(t, 3)
  {
    RanksOfRuleAlerts();
    var t0 := Opt(f.driverAbsent, AbsentAlert);
    AppendRule([], f.driverAbsent, AbsentAlert, 0);
    assert [] + t0 == t0;
    AppendRule(t0, f.abnormalBlinkRate, LowBlinkAlert, 1);
    AppendRule(t0 + Opt(f.abnormalBlinkRate, LowBlinkAlert), f.fatigueDetected, DrowsyAlert, 2);
  }

  /** The alert list the flags call for is in rule order. */
  lemma SelectInRuleOrder(f: StateFlags, yawns: seq<Alert>)
    requires |yawns| <= 1 && YawnsOnly(yawns)
    ensures InRuleOrder(Select(f, yawns))
  {
    RanksOfRuleAlerts();
    var t2 := Opt(f.driverAbsent, AbsentAlert) + Opt(f.abnormalBlinkRate, LowBlinkAlert) + Opt(f.fatigueDetected, DrowsyAlert);
    EarlyAlertsInRuleOrder(f);
    var t3 := t2 + yawns;
    AppendInRuleOrder(t2, yawns, 3);
    AppendRule(t3, f.excessiveHeadMovement, HeadMovementAlert, 4);
    var t4 := t3 + Opt(f.excessiveHeadMovement, HeadMovementAlert);
    AppendRule(t4, f.distractionDetected, GazeAlert, 5);
    var t5 := t4 + Opt(f.distractionDetected, GazeAlert);
    AppendRule(t5, f.phoneDetected, PhoneAlert, 6);
  }

  /**
   * Alerts are appended in the fixed rule order absence, blink rate, eyes
   * closed, yawn, head movement, gaze, phone, at most one per rule, so a
   * call carries at most seven alerts.
   */
  lemma AlertsInRuleOrder(h: History, face: FaceResults, phone: bool, now: real)
    requires WellFormed(h)
    ensures InRuleOrder(Next(h, face, phone, now).analysis.alerts)
    ensures |Next(h, face, phone, now).analysis.alerts| <= 7
  {
    var a := Next(h, face, phone, now).analysis;
    AlertsFollowFlags(h, face, phone, now);
    YawnPartShape(h, face, now);
    SelectInRuleOrder(a.state, YawnPart(h, face, now));
    RuleOrderBound(a.alerts);
  }

  /** A list in rule order has at most one alert per rule. */
  lemma {:induction false} RuleOrderBound(alerts: seq<Alert>)
    requires InRuleOrder(alerts)
    ensures |alerts| <= 7
  {
    if |alerts| > 7 {
      RanksClimb(alerts, 7);
    }
  }

  /** In rule order, the alert at position i has rank at least i. */
  lemma {:induction false} RanksClimb(alerts: seq<Alert>, i: nat)
    requires InRuleOrder(alerts) && i < |alerts|
    ensures RuleRank(alerts[i]) >= i
  {
    if i > 0 {
      RanksClimb(alerts, i - 1);
    }
  }

  /** Each flag is set exactly when its rule's alert is in the list. */
  lemma SelectMembership(f: StateFlags, yawns: seq<Alert>)
    requires YawnsOnly(yawns)
    ensures AbsentAlert in Select(f, yawns) <==> f.driverAbsent
    ensures LowBlinkAlert in Select(f, yawns) <==> f.abnormalBlinkRate
    ensures DrowsyAlert in Select(f, yawns) <==> f.fatigueDetected
    ensures HeadMovementAlert in Select(f, yawns) <==> f.excessiveHeadMovement
    ensures GazeAlert in Select(f, yawns) <==> f.distractionDetected
    ensures PhoneAlert in Select(f, yawns) <==> f.phoneDetected
  {
    assert forall a :: a in yawns ==> a.kind == Some("yawn");
  }

  /**
   * Each flag of the returned state is true iff its rule's alert was raised
   * in this call; `yawn_detected` instead says the mouth was open with a
   * face in view, whether or not a yawn alert was raised.
   */
  lemma FlagsMatchAlerts(h: History, face: FaceResults, phone: bool, now: real)
    requires WellFormed(h)
    ensures var a := Next(h, face, phone, now).analysis;
            && (a.state.driverAbsent <==> AbsentAlert in a.alerts)
            && (a.state.abnormalBlinkRate <==> LowBlinkAlert in a.alerts)
            && (a.state.fatigueDetected <==> DrowsyAlert in a.alerts)
            && (a.state.excessiveHeadMovement <==> HeadMovementAlert in a.alerts)
            && (a.state.distractionDetected <==> GazeAlert in a.alerts)
            && (a.state.phoneDetected <==> PhoneAlert in a.alerts)
            && (a.state.phoneDetected <==> phone)
            && (a.state.yawnDetected <==> face.faceDetected && face.mouthOpen)
  {
    var a := Next(h, face, phone, now).analysis;
    AlertsFollowFlags(h, face, phone, now);
    YawnPartShape(h, face, now);
    SelectMembership(a.state, YawnPart(h, face, now));
    NextMatchesReference(h, face, phone, now);
  }

  /** The flags of a call do not depend on the flags the analyzer held before it. */
  lemma FlagsResetEachCall(h: History, before: StateFlags, face: FaceResults, phone: bool, now: real)
    requires WellFormed(h)
    ensures Next(h.(currentState := before), face, phone, now) == Next(h, face, phone, now)
  {
    NextMatchesReference(h, face, phone, now);
    NextMatchesReference(h.(currentState := before), face, phone, now);
  }

  // ---------------------------------------------------------------------
  // Rule 1: absence.

  /** The first frame without a face only starts the absence timer. */
  lemma AbsenceTimerStarts(h: History, face: FaceResults, phone: bool, now: real)
    requires WellFormed(h) && !face.faceDetected && h.faceAbsentStart.None?
    ensures Next(h, face, phone, now).history.faceAbsentStart == Some(now)
    ensures !Next(h, face, phone, now).analysis.state.driverAbsent
    ensures AbsentAlert !in Next(h, face, phone, now).analysis.alerts
  {
    NextMatchesReference(h, face, phone, now);
    FlagsMatchAlerts(h, face, phone, now);
  }

  /**
   * Each later frame without a face keeps the start and raises the absence
   * alert exactly when more than the absence time has passed since it, on
   * every such call.
   */
  lemma AbsenceRepeats(h: History, face: FaceResults, phone: bool, now: real, start: real)
    requires WellFormed(h) && !face.faceDetected && h.faceAbsentStart == Some(start)
    ensures Next(h, face, phone, now).history.faceAbsentStart == Some(start)
    ensures Next(h, face, phone, now).analysis.state.driverAbsent <==> (now - start) * 1000.0 > 2500.0
    ensures AbsentAlert in Next(h, face, phone, now).analysis.alerts <==> (now - start) * 1000.0 > 2500.0
  {
    NextMatchesReference(h, face, phone, now);
    FlagsMatchAlerts(h, face, phone, now);
  }

  /** A frame with a face clears the absence timer and raises no absence alert. */
  lemma FaceClearsAbsence(h: History, face: FaceResults, phone: bool, now: real)
    requires WellFormed(h) && face.faceDetected
    ensures Next(h, face, phone, now).history.faceAbsentStart.None?
    ensures !Next(h, face, phone, now).analysis.state.driverAbsent
    ensures AbsentAlert !in Next(h, face, phone, now).analysis.alerts
  {
    NextMatchesReference(h, face, phone, now);
    FlagsMatchAlerts(h, face, phone, now);
  }

  /**
   * A frame without a face leaves every face-dependent field as it was (the
   * deques, the last eye state, the eyes-closed and gaze timers); only the
   * absence and phone rules can raise an alert, and the phone rule still runs.
   */
  lemma FacelessFrameKeepsFaceFields(h: History, face: FaceResults, phone: bool, now: real)
    requires WellFormed(h) && !face.faceDetected
    ensures var o := Next(h, face, phone, now);
            && o.history == h.(faceAbsentStart := o.history.faceAbsentStart, currentState := o.analysis.state)
            && o.analysis.alerts == Opt(o.analysis.state.driverAbsent, AbsentAlert) + Opt(phone, PhoneAlert)
            && o.analysis.state == NoFlags.(driverAbsent := o.analysis.state.driverAbsent, phoneDetected := phone)
  {
    NextMatchesReference(h, face, phone, now);
  }

  // ---------------------------------------------------------------------
  // Rule 2: blinks and the blink rate.

  /**
   * A blink time is appended only on a closed-to-open transition, into a
   * deque that keeps the 30 newest; the last eye state becomes this frame's
   * and the eye-state log keeps the 20 newest entries.
   */
  lemma BlinkRecording(h: History, face: FaceResults, phone: bool, now: real)
    requires WellFormed(h) && face.faceDetected
    ensures var h' := Next(h, face, phone, now).history;
            && h'.blinkTimes == (if !h.lastEyeState && face.eyesOpen
                                 then BoundedDeque.Newest(h.blinkTimes + [now], BlinkCapacity)
                                 else h.blinkTimes)
            && h'.lastEyeState == face.eyesOpen
            && h'.eyeStateChanges == BoundedDeque.Newest(h.eyeStateChanges + [(now, face.eyesOpen)], EyeChangeCapacity)
  {
    NextMatchesReference(h, face, phone, now);
    BoundedDeque.AppendKeepsNewest(h.blinkTimes, now, BlinkCapacity);
    BoundedDeque.AppendKeepsNewest(h.eyeStateChanges, (now, face.eyesOpen), EyeChangeCapacity);
  }

  /**
   * With a face in view, the blink-rate alert (and flag) is raised exactly
   * when at least two blinks are stored, time has passed since the oldest,
   * and fewer than 0.15 blinks per second were stored since it; the
   * `fatigue_detected` guard never holds it back.
   */
  lemma LowBlinkRateRule(h: History, face: FaceResults, phone: bool, now: real)
    requires WellFormed(h) && face.faceDetected
    ensures var o := Next(h, face, phone, now);
            var b := o.history.blinkTimes;
            && (LowBlinkAlert in o.analysis.alerts <==> LowBlinkRate(b, now))
            && (o.analysis.state.abnormalBlinkRate <==> LowBlinkAlert in o.analysis.alerts)
  {
    NextMatchesReference(h, face, phone, now);
    FlagsMatchAlerts(h, face, phone, now);
  }

  /**
   * One call can carry two `fatigue` alerts: whenever the blink rate is low
   * and the eyes have been closed for too long, both are reported, the
   * blink-rate one first (closed eyes record no blink, so the rate is the
   * stored one's).
   */
  lemma TwoFatigueAlertsInOneCall(h: History, face: FaceResults, phone: bool, now: real)
    requires WellFormed(h) && face.faceDetected && !face.eyesOpen
    requires h.eyesClosedStart.Some? && (now - h.eyesClosedStart.value) * 1000.0 > 1200.0
    requires LowBlinkRate(h.blinkTimes, now)
    ensures var alerts := Next(h, face, phone, now).analysis.alerts;
            |alerts| >= 2 && alerts[0] == LowBlinkAlert && alerts[1] == DrowsyAlert
  {
    var a := Next(h, face, phone, now).analysis;
    BlinkRecording(h, face, phone, now);
    LowBlinkRateRule(h, face, phone, now);
    EyesClosedRule(h, face, phone, now);
    FaceClearsAbsence(h, face, phone, now);
    FlagsMatchAlerts(h, face, phone, now);
    AlertsFollowFlags(h, face, phone, now);
    SelectFatigueFirst(a.state, YawnPart(h, face, now));
  }

  /** Without the absence flag, the two fatigue flags put their alerts at the head of the list. */
  lemma SelectFatigueFirst(f: StateFlags, yawns: seq<Alert>)
    requires !f.driverAbsent && f.abnormalBlinkRate && f.fatigueDetected
    ensures var s := Select(f, yawns);
            |s| >= 2 && s[0] == LowBlinkAlert && s[1] == DrowsyAlert
  {
    assert Select(f, yawns) == [LowBlinkAlert, DrowsyAlert] + (yawns
      + Opt(f.excessiveHeadMovement, HeadMovementAlert)
      + Opt(f.distractionDetected, GazeAlert)
      + Opt(f.phoneDetected, PhoneAlert));
  }

  // ---------------------------------------------------------------------
  // Rule 3: eyes closed.

  /**
   * Closed eyes start the timer when it is unset and keep it otherwise; the
   * high `fatigue` alert and `fatigue_detected` come on every call where
   * more than 1200 ms have passed since the start; open eyes clear the timer.
   */
  lemma EyesClosedRule(h: History, face: FaceResults, phone: bool, now: real)
    requires WellFormed(h) && face.faceDetected
    ensures var o := Next(h, face, phone, now);
            && (face.eyesOpen ==> o.history.eyesClosedStart.None? && DrowsyAlert !in o.analysis.alerts)
            && (!face.eyesOpen && h.eyesClosedStart.None? ==>
                  o.history.eyesClosedStart == Some(now) && DrowsyAlert !in o.analysis.alerts)
            && (!face.eyesOpen && h.eyesClosedStart.Some? ==>
                  && o.history.eyesClosedStart == h.eyesClosedStart
                  && (DrowsyAlert in o.analysis.alerts <==> (now - h.eyesClosedStart.value) * 1000.0 > 1200.0))
            && (o.analysis.state.fatigueDetected <==> DrowsyAlert in o.analysis.alerts)
  {
    NextMatchesReference(h, face, phone, now);
    FlagsMatchAlerts(h, face, phone, now);
  }

  // ---------------------------------------------------------------------
  // Rule 4: yawns.

  /**
   * An open mouth appends `now` to the yawn times (the 100 newest are kept)
   * and sets `yawn_detected`; the recent yawns are the stored times at most
   * 60 s before `now`.
   */
  lemma YawnRecording(h: History, face: FaceResults, phone: bool, now: real)
    requires WellFormed(h) && face.faceDetected
    ensures var o := Next(h, face, phone, now);
            var y := o.history.yawnTimes;
            && y == (if face.mouthOpen then BoundedDeque.Newest(h.yawnTimes + [now], YawnCapacity) else h.yawnTimes)
            && (o.analysis.state.yawnDetected <==> face.mouthOpen)
            && (forall t :: t in Recent(y, now) <==> t in y && now - t <= 60.0)
  {
    NextMatchesReference(h, face, phone, now);
    BoundedDeque.AppendKeepsNewest(h.yawnTimes, now, YawnCapacity);
  }

  /**
   * Exactly one `yawn` alert is raised when at least two stored yawn times
   * lie within the window, none otherwise, and its message carries that count.
   */
  lemma YawnAlertRule(h: History, face: FaceResults, phone: bool, now: real)
    requires WellFormed(h) && face.faceDetected
    ensures var o := Next(h, face, phone, now);
            var recent := Recent(o.history.yawnTimes, now);
            && CountKind(o.analysis.alerts, "yawn") == (if |recent| >= 2 then 1 else 0)
            && (|recent| >= 2 ==> YawnAlert(|recent|) in o.analysis.alerts)
  {
    var o := Next(h, face, phone, now);
    NextMatchesReference(h, face, phone, now);
    AlertsFollowFlags(h, face, phone, now);
    YawnPartShape(h, face, now);
    SelectYawnCount(o.analysis.state, YawnPart(h, face, now));
    SelectHoldsYawns(o.analysis.state, YawnPart(h, face, now));
  }

  /** The yawn alerts are the only yawns in the list the flags call for. */
  lemma SelectYawnCount(f: StateFlags, yawns: seq<Alert>)
    requires |yawns| <= 1 && YawnsOnly(yawns)
    ensures CountKind(Select(f, yawns), "yawn") == |yawns|
  {
    var s1 := Opt(f.driverAbsent, AbsentAlert) + Opt(f.abnormalBlinkRate, LowBlinkAlert);
    var s2 := s1 + Opt(f.fatigueDetected, DrowsyAlert);
    var s3 := s2 + yawns;
    var s4 := s3 + Opt(f.excessiveHeadMovement, HeadMovementAlert);
    var s5 := s4 + Opt(f.distractionDetected, GazeAlert);
    OptIsNotYawn(f.driverAbsent, AbsentAlert);
    OptIsNotYawn(f.abnormalBlinkRate, LowBlinkAlert);
    OptIsNotYawn(f.fatigueDetected, DrowsyAlert);
    OptIsNotYawn(f.excessiveHeadMovement, HeadMovementAlert);
    OptIsNotYawn(f.distractionDetected, GazeAlert);
    OptIsNotYawn(f.phoneDetected, PhoneAlert);
    CountKindAppend(Opt(f.driverAbsent, AbsentAlert), Opt(f.abnormalBlinkRate, LowBlinkAlert), "yawn");
    CountKindAppend(s1, Opt(f.fatigueDetected, DrowsyAlert), "yawn");
    CountKindAppend(s2, yawns, "yawn");
    CountKindAppend(s3, Opt(f.excessiveHeadMovement, HeadMovementAlert), "yawn");
    CountKindAppend(s4, Opt(f.distractionDetected, GazeAlert), "yawn");
    CountKindAppend(s5, Opt(f.phoneDetected, PhoneAlert), "yawn");
    if yawns != [] {
      assert yawns[1..] == [];
    }
  }

  /** The yawn alert sits in the list the flags call for. */
  lemma SelectHoldsYawns(f: StateFlags, yawns: seq<Alert>)
    ensures forall a :: a in yawns ==> a in Select(f, yawns)
  {
  }

  lemma OptIsNotYawn(fired: bool, a: Alert)
    requires a.kind != Some("yawn")
    ensures CountKind(Opt(fired, a), "yawn") == 0
  {
  }

  /** The count in a yawn alert's message can be read back from it. */
  lemma YawnCountReadBack(count: nat)
    ensures var m := YawnMessage(count);
            && |m| > |YawnPrefix| + |YawnSuffix|
            && m[..|YawnPrefix|] == YawnPrefix
            && m[|m| - |YawnSuffix|..] == YawnSuffix
            && (forall i :: |YawnPrefix| <= i < |m| - |YawnSuffix| ==> Decimal.IsDigit(m[i]))
            && Decimal.ToNat(m[|YawnPrefix|..|m| - |YawnSuffix|]) == count
  {
    var m := YawnMessage(count);
    var digits := Decimal.FromNat(count);
    assert m[|YawnPrefix|..|m| - |YawnSuffix|] == digits;
    assert m[..|YawnPrefix|] == YawnPrefix;
    assert m[|m| - |YawnSuffix|..] == YawnSuffix;
    Decimal.ToNatFromNat(count);
  }

  /** The fields of an analyzer that has only seen a centred, open-eyed face. */
  predicate Calm(h: History, heads: nat) {
    && WellFormed(h)
    && h.blinkTimes == [] && h.lastEyeState && h.eyesClosedStart.None?
    && h.distractionStart.None? && |h.headHistory| == heads && |h.yawnTimes| == heads
  }

  /** One more calm frame with the mouth open: only the yawn rule can fire. */
  lemma CalmYawningFrame(h: History, heads: nat, now: real)
    requires Calm(h, heads) && heads < 4
    ensures var o := Next(h, FaceResults(true, true, true, Center), false, now);
            var recent := Recent(o.history.yawnTimes, now);
            && Calm(o.history, heads + 1)
            && o.history.yawnTimes == h.yawnTimes + [now]
            && o.analysis.alerts == (if |recent| >= 2 then [YawnAlert(|recent|)] else [])
  {
    var face := FaceResults(true, true, true, Center);
    NextMatchesReference(h, face, false, now);
    AlertsFollowFlags(h, face, false, now);
    var f := Next(h, face, false, now).analysis.state;
    assert f == NoFlags.(yawnDetected := true);
  }

  // ---------------------------------------------------------------------
  // Rules 5 and 6: head movement and gaze.

  /** No two adjacent positions are equal. */
  predicate AllDiffer(ps: seq<HeadPosition>) {
    forall i :: 0 <= i < |ps| - 1 ==> ps[i] != ps[i + 1]
  }

  /** All adjacent positions differ exactly when every adjacent pair counts as a change. */
  lemma {:induction false} ChangesAllDiffer(ps: seq<HeadPosition>)
    requires |ps| >= 1
    ensures Changes(ps) == |ps| - 1 <==> AllDiffer(ps)
  {
    if |ps| >= 2 {
      var tail := ps[1..];
      ChangesAllDiffer(tail);
      assert forall i :: 0 <= i < |tail| ==> tail[i] == ps[i + 1];
    }
  }

  /** With a face in view, `(now, head_position)` joins the 10 newest head entries. */
  lemma HeadRecording(h: History, face: FaceResults, phone: bool, now: real)
    requires WellFormed(h) && face.faceDetected
    ensures Next(h, face, phone, now).history.headHistory
            == BoundedDeque.Newest(h.headHistory + [(now, face.headPosition)], HeadCapacity)
  {
    NextMatchesReference(h, face, phone, now);
    BoundedDeque.AppendKeepsNewest(h.headHistory, (now, face.headPosition), HeadCapacity);
  }

  /**
   * The head-movement alert (and flag) is raised exactly when at least 5
   * head entries are stored and all four adjacent pairs among the newest
   * five positions differ.
   */
  lemma HeadMovementRule(h: History, face: FaceResults, phone: bool, now: real)
    requires WellFormed(h) && face.faceDetected
    ensures var o := Next(h, face, phone, now);
            var heads := o.history.headHistory;
            && (HeadMovementAlert in o.analysis.alerts <==> |heads| >= 5 && AllDiffer(LastFive(heads)))
            && (o.analysis.state.excessiveHeadMovement <==> HeadMovementAlert in o.analysis.alerts)
  {
    var o := Next(h, face, phone, now);
    NextMatchesReference(h, face, phone, now);
    FlagsMatchAlerts(h, face, phone, now);
    var heads := o.history.headHistory;
    if |heads| >= 5 {
      ChangesAllDiffer(LastFive(heads));
    }
  }

  /**
   * The head-movement rule raises a `distraction` alert without setting
   * `distraction_detected`: with the head centred or lowered, a head-movement
   * alert comes with the flag clear.
   */
  lemma HeadMovementLeavesDistractionFlag(h: History, face: FaceResults, phone: bool, now: real)
    requires WellFormed(h) && face.faceDetected && (face.headPosition == Center || face.headPosition == Down)
    ensures var a := Next(h, face, phone, now).analysis;
            HeadMovementAlert in a.alerts ==> HasKind(a.alerts, "distraction") && !a.state.distractionDetected
  {
    var a := Next(h, face, phone, now).analysis;
    GazeRule(h, face, phone, now);
    if HeadMovementAlert in a.alerts {
      var i :| 0 <= i < |a.alerts| && a.alerts[i] == HeadMovementAlert;
      assert a.alerts[i].kind == Some("distraction");
    }
  }

  /**
   * With a face in view: a centred or lowered head clears the gaze run; a
   * head turned to one side starts a run when none is going, restarts it
   * when the side changed, and keeps it when the side is the same, in which
   * case the gaze alert (and `distraction_detected`, which nothing else
   * sets) comes when the run has lasted more than 1500 ms.
   */
  lemma GazeRule(h: History, face: FaceResults, phone: bool, now: real)
    requires WellFormed(h) && face.faceDetected
    ensures var o := Next(h, face, phone, now);
            var pos := face.headPosition;
            var h' := o.history;
            && (pos == Center || pos == Down ==>
                  h'.distractionStart.None? && h'.lastHeadPosition.None? && GazeAlert !in o.analysis.alerts)
            && ((pos == Left || pos == Right) && (h.distractionStart.None? || h.lastHeadPosition != Some(pos)) ==>
                  h'.distractionStart == Some(now) && h'.lastHeadPosition == Some(pos) && GazeAlert !in o.analysis.alerts)
            && ((pos == Left || pos == Right) && h.distractionStart.Some? && h.lastHeadPosition == Some(pos) ==>
                  && h'.distractionStart == h.distractionStart && h'.lastHeadPosition == Some(pos)
                  && (GazeAlert in o.analysis.alerts <==> (now - h.distractionStart.value) * 1000.0 > 1500.0))
            && (o.analysis.state.distractionDetected <==> GazeAlert in o.analysis.alerts)
            && (h'.distractionStart.None? <==> h'.lastHeadPosition.None?)
  {
    NextMatchesReference(h, face, phone, now);
    FlagsMatchAlerts(h, face, phone, now);
  }

  // ---------------------------------------------------------------------
  // Several calls in a row.

  /** The inputs of one call of `analyze`. */
  datatype FrameInput = FrameInput(face: FaceResults, phone: bool, now: real)

  /** The outcomes of a run of calls on one analyzer. */
  function Trace(h: History, frames: seq<FrameInput>): (r: seq<Outcome>)
    requires WellFormed(h)
    ensures |r| == |frames|
    decreases |frames|
  {
    if frames == [] then []
    else
      var o := Next(h, frames[0].face, frames[0].phone, frames[0].now);
      [o] + Trace(o.history, frames[1..])
  }

  // Yawns at 0 s, 10 s and 70 s with a face in view, from a fresh analyzer:
  // the call at 10 s counts two yawns in the window and alerts; at 70 s the
  // yawn at 0 s has left the window, and the yawns at 10 s and 70 s alert again.

  lemma YawnWindowAt0()
    ensures var o := Next(InitialHistory, FaceResults(true, true, true, Center), false, 0.0);
            Calm(o.history, 1) && o.history.yawnTimes == [0.0] && o.analysis.alerts == []
  {
    CalmYawningFrame(InitialHistory, 0, 0.0);
    assert Recent([0.0], 0.0) == [0.0];
  }

  lemma YawnWindowAt10(h: History)
    requires Calm(h, 1) && h.yawnTimes == [0.0]
    ensures var o := Next(h, FaceResults(true, true, true, Center), false, 10.0);
            Calm(o.history, 2) && o.history.yawnTimes == [0.0, 10.0] && o.analysis.alerts == [YawnAlert(2)]
  {
    CalmYawningFrame(h, 1, 10.0);
    assert Recent([0.0, 10.0], 10.0) == [0.0, 10.0];
  }

  lemma YawnWindowAt70(h: History)
    requires Calm(h, 2) && h.yawnTimes == [0.0, 10.0]
    ensures var o := Next(h, FaceResults(true, true, true, Center), false, 70.0);
            o.history.yawnTimes == [0.0, 10.0, 70.0] && Recent(o.history.yawnTimes, 70.0) == [10.0, 70.0]
            && o.analysis.alerts == [YawnAlert(2)]
  {
    CalmYawningFrame(h, 2, 70.0);
    assert Recent([0.0, 10.0, 70.0], 70.0) == [10.0, 70.0];
  }

  /**
   * Over a run of frames without a face, the absence timer keeps the start
   * it had, and every call raises the absence alert exactly when more than
   * the absence time has passed since that start.
   */
  lemma {:induction false} FacelessRunKeepsStart(h: History, frames: seq<FrameInput>, start: real)
    requires WellFormed(h) && h.faceAbsentStart == Some(start)
    requires forall i :: 0 <= i < |frames| ==> !frames[i].face.faceDetected
    ensures var r := Trace(h, frames);
            forall i :: 0 <= i < |frames| ==>
              && r[i].history.faceAbsentStart == Some(start)
              && (AbsentAlert in r[i].analysis.alerts <==> (frames[i].now - start) * 1000.0 > 2500.0)
    decreases |frames|
  {
    if frames != [] {
      var f := frames[0];
      var o := Next(h, f.face, f.phone, f.now);
      AbsenceRepeats(h, f.face, f.phone, f.now, start);
      FacelessRunKeepsStart(o.history, frames[1..], start);
      var r := Trace(h, frames);
      assert r == [o] + Trace(o.history, frames[1..]);
      forall i | 1 <= i < |frames|
        ensures r[i] == Trace(o.history, frames[1..])[i - 1] && frames[i] == frames[1..][i - 1]
      {
      }
    }
  }
}
