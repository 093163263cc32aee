/**
 * The dispatch layer of safeway/ai/alert_manager.py: canonical messages,
 * the per-type cooldown, the repeated-speech filter and the severity
 * tables. Sound, drawing and speech are not performed: `Trigger` returns
 * what the manager would play, draw and say, and the frame is the list of
 * overlays drawn on it so far.
 */
module AlertDispatch {
  import opened Wrappers
  import opened Alerts
  import opened Settings

  /** Seconds between two accepted alerts of the same type. */
  const AlertCooldown: real := 3.0

  /** Seconds after which the same message may be spoken again. */
  const SpeechRepeatSeconds: real := 5.0

  const DefaultMessage: string := "Alerte de sécurité"

  /** `ALERT_MESSAGES`: the spoken and displayed text of each known alert type. */
  const AlertMessages: map<string, string> := map[
    "phone" := "Veuillez ne pas utiliser le téléphone au volant",
    "fatigue" := "Veillez à ne pas dormir au volant, restez vigilant",
    "distraction" := "Vous ne regardez pas devant vous, concentrez-vous sur la route",
    "driver_absent" := "Conducteur absent, veuillez reprendre le contrôle du véhicule",
    "yawn" := "Signes de fatigue détectés, faites une pause si nécessaire",
    "abnormal_blink" := "Taux de clignement anormal, vous semblez fatigué",
    "excessive_movement" := "Mouvements excessifs détectés, restez concentré"]

  /** `alert.get('type', 'unknown')`. */
  function KindOf(a: Alert): string {
    if a.kind.Some? then a.kind.value else "unknown"
  }

  /** `alert.get('severity', 'medium')`. */
  function SeverityOf(a: Alert): string {
    if a.severity.Some? then a.severity.value else "medium"
  }

  /** The canonical message of a known type, else the alert's own message, else the default. */
  function MessageFor(a: Alert): string {
    var kind := KindOf(a);
    if kind in AlertMessages then AlertMessages[kind]
    else if a.message.Some? then a.message.value
    else DefaultMessage
  }

  // The severity tables of `_play_sound` and `_draw_visual_alert`.

  datatype Tone = Tone(frequencyHz: nat, durationMs: nat)

  function ToneFor(severity: string): Tone {
    if severity == "high" then Tone(800, 500)
    else if severity == "medium" then Tone(600, 300)
    else Tone(400, 200)
  }

  /** A colour in OpenCV's blue-green-red order. */
  datatype Bgr = Bgr(b: nat, g: nat, r: nat)

  datatype Palette = Palette(color: Bgr, background: Bgr)

  const Red: Palette := Palette(Bgr(0, 0, 255), Bgr(0, 0, 200))
  const Orange: Palette := Palette(Bgr(0, 165, 255), Bgr(0, 140, 200))
  const Yellow: Palette := Palette(Bgr(0, 255, 255), Bgr(0, 200, 200))

  function PaletteFor(severity: string): Palette {
    if severity == "high" then Red
    else if severity == "medium" then Orange
    else Yellow
  }

  /** What `_draw_visual_alert` draws: a banner with the message in the severity's colours. */
  datatype Overlay = Overlay(message: string, palette: Palette)

  /** A camera frame, as the overlays drawn on it so far. */
  type Canvas = seq<Overlay>

  /** What an accepted alert plays, draws and says. */
  datatype Effects = Effects(sound: Option<Tone>, overlay: Option<Overlay>, speech: Option<string>)

  datatype Verdict =
    | Suppressed
    | Accepted(kind: string, message: string, severity: string, effects: Effects)

  /** The manager's fields. */
  datatype DispatchState = DispatchState(
    soundEnabled: bool,
    visualEnabled: bool,
    voiceEnabled: bool,
    ttsEnabled: bool,
    lastAlertTime: map<string, real>,
    lastSpokenMessage: Option<string>,
    lastSpeechTime: real)

  /**
   * The fields after `__init__`: sound needs the mixer to start, speech
   * needs a text-to-speech engine; `mixerReady` and `ttsReady` say whether
   * they did.
   */
  function Initial(mixerReady: bool, ttsReady: bool): DispatchState {
    DispatchState(
      soundEnabled := AlertSoundEnabled && mixerReady,
      visualEnabled := AlertVisualEnabled,
      voiceEnabled := AlertVoiceEnabled,
      ttsEnabled := AlertVoiceEnabled && ttsReady,
      lastAlertTime := map[],
      lastSpokenMessage := None,
      lastSpeechTime := 0.0)
  }

  /** No alert of this type was accepted, or the last one is at least the cooldown old. */
  predicate CooledDown(d: DispatchState, kind: string, now: real) {
    kind !in d.lastAlertTime || !(now - d.lastAlertTime[kind] < AlertCooldown)
  }

  /** Speech is on, and the message differs from the last one spoken or that one is over 5 s old. */
  predicate ShouldSpeak(d: DispatchState, message: string, now: real) {
    d.voiceEnabled && d.ttsEnabled && (Some(message) != d.lastSpokenMessage || now - d.lastSpeechTime > SpeechRepeatSeconds)
  }

  datatype Triggered = Triggered(state: DispatchState, frame: Option<Canvas>, verdict: Verdict)

  /** `trigger_alert(alert, frame)` at time `now`. */
  function Trigger(d: DispatchState, alert: Alert, frame: Option<Canvas>, now: real): Triggered {
    var kind := KindOf(alert);
    var severity := SeverityOf(alert);
    var message := MessageFor(alert);
    if !CooledDown(d, kind, now) then Triggered(d, frame, Suppressed)
    else
      var d1 := d.(lastAlertTime := d.lastAlertTime[kind := now]);
      var sound := if d.soundEnabled then Some(ToneFor(severity)) else None;
      var overlay := if d.visualEnabled && frame.Some? then Some(Overlay(message, PaletteFor(severity))) else None;
      var frame' := if overlay.Some? then Some(frame.value + [overlay.value]) else frame;
      var speak := ShouldSpeak(d, message, now);
      var d2 := if speak then d1.(lastSpokenMessage := Some(message), lastSpeechTime := now) else d1;
      Triggered(d2, frame', Accepted(kind, message, severity, Effects(sound, overlay, if speak then Some(message) else None)))
  }

  class AlertManager {
    var soundEnabled: bool
    var visualEnabled: bool
    var voiceEnabled: bool
    var ttsEnabled: bool
    var lastAlertTime: map<string, real>
    var lastSpokenMessage: Option<string>
    var lastSpeechTime: real

    function Snapshot(): DispatchState
      reads this
    {
      DispatchState(soundEnabled, visualEnabled, voiceEnabled, ttsEnabled, lastAlertTime, lastSpokenMessage, lastSpeechTime)
    }

    constructor (mixerReady: bool, ttsReady: bool)
      ensures Snapshot() == Initial(mixerReady, ttsReady)
    {
      soundEnabled := AlertSoundEnabled;
      visualEnabled := AlertVisualEnabled;
      voiceEnabled := AlertVoiceEnabled;
      ttsEnabled := false;
      lastAlertTime := map[];
      lastSpokenMessage := None;
      lastSpeechTime := 0.0;
      new;
      if soundEnabled && !mixerReady {
        soundEnabled := false;
      }
      if voiceEnabled {
        ttsEnabled := ttsReady;
      }
    }

    /** `trigger_alert(alert, frame)`; `now` is the clock reading it takes. */
    method TriggerAlert(alert: Alert, frame: Option<Canvas>, now: real) returns (out: Option<Canvas>, verdict: Verdict)
      modifies this`lastAlertTime, this`lastSpokenMessage, this`lastSpeechTime
      ensures Triggered(Snapshot(), out, verdict) == Trigger(old(Snapshot()), alert, frame, now)
    {
      var alertType := KindOf(alert);
      var severity := SeverityOf(alert);
      var message := MessageFor(alert);
      out := frame;
      if alertType in lastAlertTime {
        if now - lastAlertTime[alertType] < AlertCooldown {
          verdict := Suppressed;
          return;
        }
      }
      lastAlertTime := lastAlertTime[alertType := now];
      var sound: Option<Tone> := None;
      if soundEnabled {
        sound := Some(ToneFor(severity));
      }
      var overlay: Option<Overlay> := None;
      if visualEnabled && frame.Some? {
        overlay := Some(Overlay(message, PaletteFor(severity)));
        out := Some(frame.value + [overlay.value]);
      }
      var speech: Option<string> := None;
      if voiceEnabled && ttsEnabled {
        if Some(message) != lastSpokenMessage || now - lastSpeechTime > SpeechRepeatSeconds {
          speech := Some(message);
          lastSpokenMessage := Some(message);
          lastSpeechTime := now;
        }
      }
      verdict := Accepted(alertType, message, severity, Effects(sound, overlay, speech));
    }
  }

  // ---------------------------------------------------------------------
  // Properties.

  /**
   * A type listed in `ALERT_MESSAGES` always gets its canonical message,
   * whatever text the alert carries; a missing type is 'unknown', which is
   * not listed, and a missing severity is 'medium'.
   */
  lemma MessageSelection(a: Alert, text: Option<string>)
    ensures KindOf(a) in AlertMessages ==> MessageFor(a.(message := text)) == MessageFor(a) == AlertMessages[KindOf(a)]
    ensures a.kind.None? ==> KindOf(a) == "unknown" && MessageFor(a) == (if a.message.Some? then a.message.value else DefaultMessage)
    ensures a.severity.None? ==> SeverityOf(a) == "medium"
  {
    assert "unknown" !in AlertMessages;
  }

  /**
   * The yawn count in a yawn alert's message never reaches the driver: the
   * manager shows and speaks the canonical yawn message instead.
   */
  lemma YawnCountNeverShown(a: Alert, b: Alert)
    requires a.kind == b.kind == Some("yawn")
    ensures MessageFor(a) == MessageFor(b) == "Signes de fatigue détectés, faites une pause si nécessaire"
  {
  }

  /**
   * An alert is accepted iff its type has no recorded time or the recorded
   * time is at least the cooldown ago; acceptance records `now` for that
   * type and leaves every other type's entry as it was.
   */
  lemma CooldownGate(d: DispatchState, alert: Alert, frame: Option<Canvas>, now: real)
    ensures var t := Trigger(d, alert, frame, now);
            var kind := KindOf(alert);
            && (t.verdict.Accepted? <==> kind !in d.lastAlertTime || now - d.lastAlertTime[kind] >= 3.0)
            && (t.verdict.Accepted? ==> t.state.lastAlertTime == d.lastAlertTime[kind := now])
            && (forall k :: k != kind ==> (k in t.state.lastAlertTime <==> k in d.lastAlertTime))
            && (forall k :: k != kind && k in d.lastAlertTime ==> t.state.lastAlertTime[k] == d.lastAlertTime[k])
  {
  }

  /** A suppressed alert returns the frame it was given and changes no field. */
  lemma SuppressionChangesNothing(d: DispatchState, alert: Alert, frame: Option<Canvas>, now: real)
    requires !CooledDown(d, KindOf(alert), now)
    ensures Trigger(d, alert, frame, now) == Triggered(d, frame, Suppressed)
  {
  }

  /**
   * An accepted alert is spoken iff voice and TTS are on and its message
   * differs from the last one spoken or that one is more than 5 s old;
   * speaking records the message and the time, and otherwise both stay.
   * Sound plays iff sound is on, and the banner is drawn iff the visual
   * channel is on and there is a frame to draw on.
   */
  lemma AcceptedEffects(d: DispatchState, alert: Alert, frame: Option<Canvas>, now: real)
    requires CooledDown(d, KindOf(alert), now)
    ensures var t := Trigger(d, alert, frame, now);
            var message := MessageFor(alert);
            && t.verdict.Accepted?
            && t.verdict.message == message
            && (t.verdict.effects.speech.Some?
                <==> d.voiceEnabled && d.ttsEnabled
                     && (Some(message) != d.lastSpokenMessage || now - d.lastSpeechTime > 5.0))
            && (t.verdict.effects.speech.Some? ==>
                  t.verdict.effects.speech == t.state.lastSpokenMessage == Some(message) && t.state.lastSpeechTime == now)
            && (t.verdict.effects.speech.None? ==>
                  t.state.lastSpokenMessage == d.lastSpokenMessage && t.state.lastSpeechTime == d.lastSpeechTime)
            && (t.verdict.effects.sound.Some? <==> d.soundEnabled)
            && (t.verdict.effects.overlay.Some? <==> d.visualEnabled && frame.Some?)
            && (t.verdict.effects.overlay.Some? ==> t.frame == Some(frame.value + [t.verdict.effects.overlay.value]))
            && (t.verdict.effects.overlay.None? ==> t.frame == frame)
  {
  }

  /** The enable flags never change after `__init__`. */
  lemma FlagsStay(d: DispatchState, alert: Alert, frame: Option<Canvas>, now: real)
    ensures var s := Trigger(d, alert, frame, now).state;
            s.soundEnabled == d.soundEnabled && s.visualEnabled == d.visualEnabled
            && s.voiceEnabled == d.voiceEnabled && s.ttsEnabled == d.ttsEnabled
  {
  }

  /** With speech available, the first alert after `__init__` is accepted and spoken. */
  lemma FirstAlertSpoken(mixerReady: bool, alert: Alert, frame: Option<Canvas>, now: real)
    ensures var t := Trigger(Initial(mixerReady, true), alert, frame, now);
            t.verdict.Accepted? && t.verdict.effects.speech == Some(MessageFor(alert))
  {
  }

  /** Two phone alerts 1.0 s apart: the second is dropped; 3.1 s apart: both are accepted. */
  lemma PhoneCooldownExample(d: DispatchState, alert: Alert, t: real)
    requires KindOf(alert) == "phone" && "phone" !in d.lastAlertTime
    ensures var first := Trigger(d, alert, None, t);
            && first.verdict.Accepted?
            && Trigger(first.state, alert, None, t + 1.0).verdict.Suppressed?
            && Trigger(first.state, alert, None, t + 3.1).verdict.Accepted?
  {
  }

  /**
   * Speech dedup: message "A" at 0 s is spoken; "A" again at 2 s (from
   * another alert type, so that the cooldown lets it through) is not;
   * "B" at 2 s is.
   */
  lemma SpeechDedupExample(mixerReady: bool)
    ensures var a0 := Alert(Some("first"), Some("A"), None);
            var again := Alert(Some("second"), Some("A"), None);
            var other := Alert(Some("second"), Some("B"), None);
            var t0 := Trigger(Initial(mixerReady, true), a0, None, 0.0);
            && t0.verdict.Accepted? && t0.verdict.effects.speech == Some("A")
            && Trigger(t0.state, again, None, 2.0).verdict.Accepted?
            && Trigger(t0.state, again, None, 2.0).verdict.effects.speech.None?
            && Trigger(t0.state, other, None, 2.0).verdict.effects.speech == Some("B")
  {
    assert "first" !in AlertMessages && "second" !in AlertMessages;
  }

  /** Severity order used by the tables: high, then medium, then anything else. */
  function SeverityLevel(severity: string): (n: nat)
    ensures n <= 2
  {
    if severity == "high" then 2 else if severity == "medium" then 1 else 0
  }

  /**
   * The tone table of `_play_sound`: 'high' gives 800 Hz for 500 ms,
   * 'medium' 600 Hz for 300 ms, anything else 400 Hz for 200 ms; a more
   * severe alert gets a higher, longer tone, and equally severe alerts the
   * same one.
   */
  lemma ToneTable(s: string, t: string)
    ensures SeverityLevel(s) == 2 ==> ToneFor(s) == Tone(800, 500)
    ensures SeverityLevel(s) == 1 ==> ToneFor(s) == Tone(600, 300)
    ensures SeverityLevel(s) == 0 ==> ToneFor(s) == Tone(400, 200)
    ensures SeverityLevel(s) < SeverityLevel(t) ==>
              ToneFor(s).frequencyHz < ToneFor(t).frequencyHz && ToneFor(s).durationMs < ToneFor(t).durationMs
    ensures SeverityLevel(s) == SeverityLevel(t) <==> ToneFor(s) == ToneFor(t)
  {
  }

  /**
   * The colour table of `_draw_visual_alert`: red for 'high', orange for
   * 'medium', yellow for anything else; two severities share a palette
   * exactly when they share a level.
   */
  lemma PaletteTable(s: string, t: string)
    ensures SeverityLevel(s) == 2 ==> PaletteFor(s) == Red
    ensures SeverityLevel(s) == 1 ==> PaletteFor(s) == Orange
    ensures SeverityLevel(s) == 0 ==> PaletteFor(s) == Yellow
    ensures SeverityLevel(s) == SeverityLevel(t) <==> PaletteFor(s) == PaletteFor(t)
  {
  }
}
