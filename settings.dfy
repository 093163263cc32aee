/**
 * Detection thresholds and alert switches of safeway/config/settings.py.
 * Durations named `...Ms` are milliseconds; the others are seconds or counts.
 */
module Settings {
  /** Eyes closed for longer than this (ms) means drowsiness. */
  const EyeClosedTimeMs: real := 1200.0
  /** Number of yawns inside the window that makes a yawn alert. */
  const YawnCountThreshold: nat := 2
  /** Trailing yawn window, in seconds. */
  const YawnTimeWindow: real := 60.0
  /** Gaze held to one side for longer than this (ms) means distraction. */
  const DistractionTimeMs: real := 1500.0
  /** Face missing for longer than this (ms) means the driver is absent. */
  const AbsenceTimeMs: real := 2500.0
  /** Blinks per second below this rate are abnormal. */
  const BlinkRateThreshold: real := 0.15

  const AlertSoundEnabled: bool := true
  const AlertVoiceEnabled: bool := true
  const AlertVisualEnabled: bool := true
}
