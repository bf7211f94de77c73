/**
 * Configuration constants of the edge device (raspberry-pi/config.py) and the
 * few backend constants the worker depends on (backend/config.py), together
 * with the facts about them that the rest of the model relies on.
 */
module Config {

  // Queue names (shared by edge and backend).
  const IMAGE_QUEUE := "fruit_images"
  const RESULT_QUEUE := "classification_results"

  // Servo gate angles, in degrees.
  const SERVO_ANGLE_LEFT: real := 30.0
  const SERVO_ANGLE_CENTER: real := 90.0
  const SERVO_ANGLE_RIGHT: real := 150.0

  // Servo PWM duty cycle range, in percent.
  const SERVO_MIN_DUTY: real := 2.5
  const SERVO_MAX_DUTY: real := 12.5

  // Conveyor.
  const CONVEYOR_SPEED: int := 75
  const CONVEYOR_STOP_TIME: real := 2.0
  const CONVEYOR_RESUME_DELAY: real := 0.5

  // Camera.
  const CAMERA_WARMUP_TIME: real := 2.0

  // Triggering.
  const TRIGGER_MODE := "ir_sensor"
  const CAPTURE_INTERVAL: real := 5.0
  const CAPTURE_DELAY: real := 0.3
  const IR_DEBOUNCE_TIME: real := 2.0
  const USE_EMERGENCY_STOP := false

  // Motor safety limits.
  const SERVO_MIN_ANGLE: real := 0.0
  const SERVO_MAX_ANGLE: real := 180.0
  const CONVEYOR_MAX_SPEED: int := 95

  // Reconnection.
  const RETRY_DELAY: real := 5.0

  // Classification labels used by the actuator.
  const CLASSIFICATION_FRESH := "fresh_fruit"
  const CLASSIFICATION_SPOILED := "spoiled_fruit"
  const CLASSIFICATION_OTHER := "other"

  // Backend: the classifier's class list and the worker's QoS prefetch.
  const MODEL_CLASSES := ["fresh_fruit", "spoiled_fruit", "other"]
  const PREFETCH_COUNT: nat := 1

  /** The three named gates, in the order left, center, right. */
  function Gates(): (g: seq<real>)
    ensures |g| == 3
    ensures forall i :: 0 <= i < |g| ==> SERVO_MIN_ANGLE <= g[i] <= SERVO_MAX_ANGLE
  {
    [SERVO_ANGLE_LEFT, SERVO_ANGLE_CENTER, SERVO_ANGLE_RIGHT]
  }

  /** The gates are strictly ordered and lie inside the safe servo range. */
  lemma GatesOrderedAndInRange()
    ensures SERVO_MIN_ANGLE <= SERVO_ANGLE_LEFT < SERVO_ANGLE_CENTER < SERVO_ANGLE_RIGHT <= SERVO_MAX_ANGLE
  {
  }

  /** Two distinct gates are at least one degree apart (the servo's no-op tolerance). */
  lemma DistinctGatesFarApart(i: nat, j: nat)
    requires i < 3 && j < 3 && i != j
    ensures Gates()[i] - Gates()[j] >= 1.0 || Gates()[j] - Gates()[i] >= 1.0
  {
  }

  /** The duty range is non-empty, so the angle-to-duty map is increasing. */
  lemma DutyRangeIncreasing()
    ensures 0.0 < SERVO_MIN_DUTY < SERVO_MAX_DUTY
  {
  }

  /** The default conveyor speed is inside the safety limit. */
  lemma DefaultSpeedWithinLimit()
    ensures 0 <= CONVEYOR_SPEED <= CONVEYOR_MAX_SPEED <= 100
  {
  }

  /** The three labels are pairwise distinct. */
  lemma LabelsDistinct()
    ensures CLASSIFICATION_FRESH != CLASSIFICATION_SPOILED
    ensures CLASSIFICATION_SPOILED != CLASSIFICATION_OTHER
    ensures CLASSIFICATION_FRESH != CLASSIFICATION_OTHER
    ensures MODEL_CLASSES == [CLASSIFICATION_FRESH, CLASSIFICATION_SPOILED, CLASSIFICATION_OTHER]
  {
  }
}
