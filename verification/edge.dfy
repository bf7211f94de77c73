/**
 * The edge application (raspberry-pi/main.py): trigger decisions, the
 * capture-and-send step, the result handler that drives the gate, one pass
 * of the main loop, and start-up.
 *
 * Sensor levels, the clock, the camera driver and the broker's answers are
 * parameters. Sleeps taken by the application itself go to the ghost
 * `pauses` log; the motor, camera and client keep their own logs.
 */
module Edge {
  import opened Common
  import opened Json
  import opened Config
  import Amqp
  import Camera
  import Motor
  import EdgeMessaging

  const DEVICE_ID := "rpi_conveyor_01"
  const MODE_IR := "ir_sensor"
  const MODE_TIME := "time_based"
  const MODE_CONTINUOUS := "continuous"
  const LOOP_PAUSE: real := 0.1
  const ESTOP_POLL: real := 0.5
  const RECONNECT_ATTEMPTS: nat := 3

  /** The gate category for a result's `quality` value. */
  function QualityCategory(quality: Value): (c: string)
    ensures c == CLASSIFICATION_FRESH <==> quality == Str("Excellent") || quality == Str("Good")
    ensures c == CLASSIFICATION_SPOILED <==> quality == Str("Fair") || quality == Str("Poor") || quality == Str("Bad")
    ensures c == CLASSIFICATION_FRESH || c == CLASSIFICATION_SPOILED || c == CLASSIFICATION_OTHER
  {
    LabelsDistinct();
    if quality in [Str("Excellent"), Str("Good")] then CLASSIFICATION_FRESH
    else if quality in [Str("Fair"), Str("Poor"), Str("Bad")] then CLASSIFICATION_SPOILED
    else CLASSIFICATION_OTHER
  }

  /** Values the handler's percent format accepts: numbers and booleans. */
  predicate Formattable(v: Value) { v.Num? || v.Bool? }

  /**
   * What handle_classification_result sorts the fruit as, or None when the
   * handler raises before sorting (the result is not an object, or its
   * confidence cannot be formatted as a percentage) and swallows the error.
   */
  function ResultCategory(result: Value): (c: Option<string>)
    ensures c.Some? <==> result.Obj? && Formattable(Get(result.fields, "confidence", Num(0.0)))
    ensures c.Some? ==> c.value == QualityCategory(Get(result.fields, "quality", Str("Unknown")))
  {
    if !result.Obj? then None
    else if !Formattable(Get(result.fields, "confidence", Num(0.0))) then None
    else Some(QualityCategory(Get(result.fields, "quality", Str("Unknown"))))
  }

  /** A result without a `quality` key is sorted as other, whatever else it says. */
  lemma MissingQualitySortsOther(fields: map<string, Value>)
    requires "quality" !in fields
    requires Formattable(Get(fields, "confidence", Num(0.0)))
    ensures ResultCategory(Obj(fields)) == Some(CLASSIFICATION_OTHER)
    ensures Motor.GateFor(CLASSIFICATION_OTHER) == SERVO_ANGLE_LEFT
  {
    LabelsDistinct();
  }

  /** detect_fruit_ir's decision: the sensor is HIGH and the debounce window has passed. */
  predicate IrFires(lastDetection: real, high: bool, now: real)
  {
    high && now - lastDetection >= IR_DEBOUNCE_TIME
  }

  /** The firing times of a run of IR polls (level, time), starting from the last firing. */
  function IrFirings(last: real, polls: seq<(bool, real)>): (f: seq<real>)
    ensures |f| <= |polls|
    ensures polls != [] && IrFires(last, polls[0].0, polls[0].1) ==> f != [] && f[0] == polls[0].1
    decreases |polls|
  {
    if polls == [] then []
    else if IrFires(last, polls[0].0, polls[0].1) then [polls[0].1] + IrFirings(polls[0].1, polls[1..])
    else IrFirings(last, polls[1..])
  }

  /**
   * Successive IR firings are at least IR_DEBOUNCE_TIME apart, and the first
   * is at least that long after the previous one, whatever the poll times.
   */
  lemma {:induction false} IrFiringsSpaced(last: real, polls: seq<(bool, real)>)
    ensures var f := IrFirings(last, polls);
      && (|f| > 0 ==> f[0] - last >= IR_DEBOUNCE_TIME)
      && (forall k :: 0 <= k < |f| - 1 ==> f[k + 1] - f[k] >= IR_DEBOUNCE_TIME)
      && |f| <= |polls|
    decreases |polls|
  {
    if polls != [] {
      var t := polls[0].1;
      if IrFires(last, polls[0].0, t) {
        IrFiringsSpaced(t, polls[1..]);
        var f := IrFirings(last, polls);
        assert f == [t] + IrFirings(t, polls[1..]);
        forall k | 0 <= k < |f| - 1
          ensures f[k + 1] - f[k] >= IR_DEBOUNCE_TIME
        {
          if k > 0 {
            assert f[k] == IrFirings(t, polls[1..])[k - 1];
          }
        }
      } else {
        IrFiringsSpaced(last, polls[1..]);
      }
    }
  }

  /**
   * The trigger is level-based: one fruit held in front of the sensor from
   * time 2 to time 4 fires twice, and the initial last-detection time of 0
   * lets the first HIGH fire.
   */
  lemma SustainedHighFiresAgain()
    ensures IrFirings(0.0, [(true, 2.0), (true, 3.0), (true, 4.0)]) == [2.0, 4.0]
  {
    assert IrFirings(4.0, []) == [];
    assert IrFirings(2.0, [(true, 4.0)]) == [4.0];
    assert IrFirings(2.0, [(true, 3.0), (true, 4.0)]) == [4.0];
  }

  /** Whether one pass of the run loop calls process_fruit, for each trigger mode. */
  predicate TriggerFires(mode: string, irHigh: bool, now: real, lastIr: real, lastCapture: real): (fires: bool)
    ensures mode == MODE_CONTINUOUS ==> fires
    ensures mode == MODE_IR ==> (fires <==> irHigh && now - lastIr >= IR_DEBOUNCE_TIME)
    ensures mode == MODE_TIME ==> (fires <==> now - lastCapture >= CAPTURE_INTERVAL)
  {
    if mode == MODE_IR then IrFires(lastIr, irHigh, now)
    else if mode == MODE_TIME then now - lastCapture >= CAPTURE_INTERVAL
    else mode == MODE_CONTINUOUS
  }

  /** Any mode other than the three named ones (manual, say) never triggers processing. */
  lemma UnknownModeNeverTriggers(mode: string, irHigh: bool, now: real, lastIr: real, lastCapture: real)
    requires mode != MODE_IR && mode != MODE_TIME && mode != MODE_CONTINUOUS
    ensures !TriggerFires(mode, irHigh, now, lastIr, lastCapture)
  {
  }

  /** check_emergency_stop: the button (active LOW) counts only when the feature is enabled. */
  predicate EmergencyStopActive(enabled: bool, pinLow: bool)
  {
    enabled && pinLow
  }

  /** With the default configuration the emergency branch never runs. */
  lemma EmergencyStopOffByDefault(pinLow: bool)
    ensures !EmergencyStopActive(USE_EMERGENCY_STOP, pinLow)
  {
  }

  /** The metadata process_fruit sends: the capture time and this device's id. */
  function EdgeMetadata(now: real): (md: map<string, Value>)
    ensures md.Keys == {"timestamp", "device_id"}
    ensures md["timestamp"] == Num(now) && md["device_id"] == Str(DEVICE_ID)
  {
    map["timestamp" := Num(now), "device_id" := Str(DEVICE_ID)]
  }

  /** The image process_fruit would send: a truthy capture result, else nothing. */
  function Captured(initialized: bool, cameraType: Option<Camera.CameraType>, outcome: Camera.CaptureOutcome)
    : (image: Option<seq<byte>>)
    ensures image.Some? ==> image.value != [] && outcome == Camera.Captured(image.value)
  {
    if !initialized then None
    else
      var r := Camera.CaptureResult(cameraType, outcome);
      if r.Some? && r.value != [] then r else None
  }

  /** The image-queue messages process_fruit publishes: the envelope of a truthy capture, if the client can send it. */
  function SentMessages(initialized: bool, cameraType: Option<Camera.CameraType>, outcome: Camera.CaptureOutcome,
                        connected: bool, publishOk: bool, now: real): (ms: seq<Amqp.Message>)
    ensures |ms| <= 1
    ensures ms != [] <==> Captured(initialized, cameraType, outcome).Some? && connected && publishOk
    ensures ms != [] ==>
      ms[0].persistent
      && ms[0].body == Amqp.Parsed(EdgeMessaging.Envelope(Captured(initialized, cameraType, outcome).value,
                                                          Some(EdgeMetadata(now)), now))
  {
    var image := Captured(initialized, cameraType, outcome);
    if image.Some? && connected && publishOk then
      [Amqp.Message(Amqp.Parsed(EdgeMessaging.Envelope(image.value, Some(EdgeMetadata(now)), now)), true)]
    else []
  }

  /**
   * The client state after process_fruit: reconnect(3) runs only after a
   * truthy capture that could not be sent because the client was not
   * connected.
   */
  function ClientAfterProcess(s: EdgeMessaging.ClientState, captured: bool, outcomes: nat -> bool, hasCallback: bool)
    : (r: EdgeMessaging.ClientState)
    ensures r.connectCalls != s.connectCalls <==> captured && !s.isConnected
    ensures r.connectCalls <= s.connectCalls + RECONNECT_ATTEMPTS
    ensures s.isConnected ==> r == s
  {
    if captured && !s.isConnected then EdgeMessaging.AfterReconnect(s, outcomes, RECONNECT_ATTEMPTS, hasCallback)
    else s
  }

  /** The sleeps of the emergency-stop step: one ESTOP_POLL per further read that finds the button pressed. */
  function StopPolls(enabled: bool, pressedPolls: nat): (p: seq<real>)
    ensures |p| == (if EmergencyStopActive(enabled, pressedPolls > 0) then pressedPolls - 1 else 0)
    ensures forall i :: 0 <= i < |p| ==> p[i] == ESTOP_POLL
  {
    if EmergencyStopActive(enabled, pressedPolls > 0) then seq(pressedPolls - 1, _ => ESTOP_POLL) else []
  }

  /**
   * The sleeps of the trigger step: process_fruit's CAPTURE_DELAY when it
   * runs, CAPTURE_INTERVAL after it in continuous mode, and LOOP_PAUSE last.
   */
  function TriggerPauses(mode: string, processed: bool): (p: seq<real>)
    ensures |p| > 0 && p[|p| - 1] == LOOP_PAUSE
    ensures processed <==> |p| > 1
    ensures processed ==> p[0] == CAPTURE_DELAY
  {
    (if processed then [CAPTURE_DELAY] + (if mode == MODE_CONTINUOUS then [CAPTURE_INTERVAL] else []) else [])
      + [LOOP_PAUSE]
  }

  class FruitSortingSystem {
    const camera: Camera.CameraModule
    const motor: Motor.MotorController
    const rabbit: EdgeMessaging.RabbitMQClient
    const triggerMode: string
    const useEmergencyStop: bool
    var isRunning: bool
    var lastIrDetection: real
    var lastCaptureTime: real
    ghost var pauses: seq<real>

    /** The parts keep their own invariants, and the client hands results to this system. */
    ghost predicate Valid()
      reads this, camera, motor
    {
      camera.Valid() && motor.Valid() && rabbit.hasCallback
    }

    constructor (cameraType: Option<Camera.CameraType>, broker: Amqp.Broker, outcomes: nat -> bool,
                 triggerMode: string, useEmergencyStop: bool)
      ensures Valid() && fresh(camera) && fresh(motor) && fresh(rabbit)
      ensures camera.cameraType == cameraType && !camera.isInitialized && camera.captureCount == 0
      ensures !motor.isInitialized && motor.trace == []
      ensures rabbit.broker == broker && rabbit.outcomes == outcomes && rabbit.connectCalls == 0
      ensures !rabbit.isConnected && !rabbit.consuming
      ensures this.triggerMode == triggerMode && this.useEmergencyStop == useEmergencyStop
      ensures !isRunning && lastIrDetection == 0.0 && lastCaptureTime == 0.0 && pauses == []
    {
      camera := new Camera.CameraModule(cameraType);
      motor := new Motor.MotorController();
      rabbit := new EdgeMessaging.RabbitMQClient(broker, outcomes, true);
      this.triggerMode := triggerMode;
      this.useEmergencyStop := useEmergencyStop;
      isRunning := false;
      lastIrDetection := 0.0;
      lastCaptureTime := 0.0;
      pauses := [];
    }

    /**
     * initialize(): camera, then motor, then the broker; a failed connect
     * gets RECONNECT_ATTEMPTS more tries. On success the result consumer is
     * armed; after a failed first connect it is armed twice, once inside
     * reconnect (the callback is already set) and once more here.
     */
    method Initialize(deviceOk: bool, shots: seq<Option<Camera.ShotStats>>, hardwareOk: bool)
      returns (ok: bool)
      requires Valid() && |shots| == Camera.CALIBRATION_SHOTS
      modifies camera, motor, rabbit, rabbit.broker
      ensures Valid()
      ensures ok == (camera.cameraType.Some? && deviceOk && hardwareOk
                     && exists i :: old(rabbit.connectCalls) <= i < old(rabbit.connectCalls) + 1 + RECONNECT_ATTEMPTS
                                    && rabbit.outcomes(i))
      ensures ok ==> camera.isInitialized && motor.isInitialized && rabbit.isConnected && rabbit.consuming
      ensures rabbit.connectCalls <= old(rabbit.connectCalls) + 1 + RECONNECT_ATTEMPTS
      ensures !(camera.cameraType.Some? && deviceOk && hardwareOk) ==> rabbit.connectCalls == old(rabbit.connectCalls)
      ensures ok && rabbit.outcomes(old(rabbit.connectCalls)) ==>
        rabbit.log == old(rabbit.log) + [EdgeMessaging.ConnectAttempt(true), EdgeMessaging.ConsumerArmed]
      ensures ok && !rabbit.outcomes(old(rabbit.connectCalls)) ==>
        rabbit.connectCalls >= old(rabbit.connectCalls) + 2
        && rabbit.log == old(rabbit.log) + [EdgeMessaging.ConnectAttempt(false)]
             + EdgeMessaging.FailedRounds(rabbit.connectCalls - old(rabbit.connectCalls) - 2)
             + [EdgeMessaging.ConnectAttempt(true), EdgeMessaging.ConsumerArmed, EdgeMessaging.ConsumerArmed]
    {
      var cameraOk := camera.Initialize(deviceOk, shots);
      if !cameraOk {
        return false;
      }
      var motorOk := motor.Initialize(hardwareOk);
      if !motorOk {
        return false;
      }
      ok := ConnectBroker();
    }

    /**
     * The broker part of initialize(): connect, on failure reconnect with
     * RECONNECT_ATTEMPTS attempts, then arm the result consumer.
     */
    method ConnectBroker() returns (ok: bool)
      requires rabbit.hasCallback
      modifies rabbit, rabbit.broker
      ensures ok == exists i :: old(rabbit.connectCalls) <= i < old(rabbit.connectCalls) + 1 + RECONNECT_ATTEMPTS
                                && rabbit.outcomes(i)
      ensures ok ==> rabbit.isConnected && rabbit.consuming
      ensures old(rabbit.connectCalls) < rabbit.connectCalls <= old(rabbit.connectCalls) + 1 + RECONNECT_ATTEMPTS
      ensures ok && rabbit.outcomes(old(rabbit.connectCalls)) ==>
        rabbit.log == old(rabbit.log) + [EdgeMessaging.ConnectAttempt(true), EdgeMessaging.ConsumerArmed]
      ensures ok && !rabbit.outcomes(old(rabbit.connectCalls)) ==>
        rabbit.connectCalls >= old(rabbit.connectCalls) + 2
        && rabbit.log == old(rabbit.log) + [EdgeMessaging.ConnectAttempt(false)]
             + EdgeMessaging.FailedRounds(rabbit.connectCalls - old(rabbit.connectCalls) - 2)
             + [EdgeMessaging.ConnectAttempt(true), EdgeMessaging.ConsumerArmed, EdgeMessaging.ConsumerArmed]
    {
      ghost var c0 := rabbit.connectCalls;
      var connected := rabbit.Connect();
      if !connected {
        var again := rabbit.Reconnect(Some(RECONNECT_ATTEMPTS));
        if !again {
          assert forall i :: c0 <= i < c0 + 1 + RECONNECT_ATTEMPTS ==> !rabbit.outcomes(i);
          return false;
        }
      }
      var _ := rabbit.StartConsumingResults();
      ok := true;
    }

    /**
     * handle_classification_result(): maps `quality` to a category and sorts
     * exactly once; a result the handler chokes on sorts nothing.
     */
    method HandleClassificationResult(result: Value, now: real)
      requires motor.Valid()
      modifies motor
      ensures motor.Valid()
      ensures ResultCategory(result).None? ==> unchanged(motor)
      ensures ResultCategory(result).Some? ==>
        motor.trace == old(motor.trace)
          + Motor.SortTrace(old(motor.isInitialized), old(motor.servoAngle), ResultCategory(result).value)
        && motor.servoAngle == Motor.ServoAfter(old(motor.isInitialized), old(motor.servoAngle),
                                                Motor.GateFor(ResultCategory(result).value))
        && motor.conveyorSpeed == (if old(motor.isInitialized) then CONVEYOR_SPEED else old(motor.conveyorSpeed))
        && motor.motorStartTime == (if old(motor.isInitialized) then Some(now) else old(motor.motorStartTime))
      ensures motor.isInitialized == old(motor.isInitialized)
    {
      if !result.Obj? {
        return;
      }
      var confidence := Get(result.fields, "confidence", Num(0.0));
      if !Formattable(confidence) {
        return;
      }
      var quality := Get(result.fields, "quality", Str("Unknown"));
      var classification := QualityCategory(quality);
      motor.SortFruit(classification, now);
    }

    /**
     * The result consumer with this system's handler as callback. The
     * handler swallows its own errors, so every parseable result is acked.
     * In the client the callback runs before the ack; here the settlement
     * and the sort land in separate logs, so their relative order is not
     * modelled.
     */
    method OnResult(tag: nat, body: Amqp.Body, now: real)
      requires motor.Valid() && rabbit.hasCallback
      modifies motor, rabbit.broker
      ensures motor.Valid()
      ensures rabbit.broker.settlements == old(rabbit.broker.settlements)
        + [if body.Parsed? then Amqp.Ack(tag) else Amqp.Nack(tag, false)]
      ensures body.Unparseable? ==> unchanged(motor)
      ensures body.Parsed? && ResultCategory(body.value).None? ==> unchanged(motor)
      ensures body.Parsed? && ResultCategory(body.value).Some? ==>
        motor.trace == old(motor.trace)
          + Motor.SortTrace(old(motor.isInitialized), old(motor.servoAngle), ResultCategory(body.value).value)
        && motor.servoAngle == Motor.ServoAfter(old(motor.isInitialized), old(motor.servoAngle),
                                                Motor.GateFor(ResultCategory(body.value).value))
        && motor.conveyorSpeed == (if old(motor.isInitialized) then CONVEYOR_SPEED else old(motor.conveyorSpeed))
        && motor.motorStartTime == (if old(motor.isInitialized) then Some(now) else old(motor.motorStartTime))
      ensures motor.isInitialized == old(motor.isInitialized)
      ensures rabbit.broker.queues == old(rabbit.broker.queues) && rabbit.broker.durable == old(rabbit.broker.durable)
    {
      var handed := rabbit.OnResultReceived(tag, body, false);
      if handed.Some? {
        HandleClassificationResult(handed.value, now);
      }
    }

    /** detect_fruit_ir(): fires on a HIGH level once the debounce window has passed. */
    method DetectFruitIr(irHigh: bool, now: real) returns (fired: bool)
      modifies this
      ensures fired == IrFires(old(lastIrDetection), irHigh, now)
      ensures lastIrDetection == (if fired then now else old(lastIrDetection))
      ensures lastCaptureTime == old(lastCaptureTime) && isRunning == old(isRunning) && pauses == old(pauses)
    {
      fired := false;
      if irHigh {
        if now - lastIrDetection >= IR_DEBOUNCE_TIME {
          lastIrDetection := now;
          fired := true;
        }
      }
    }

    /**
     * process_fruit(): pause, capture, and send a truthy image with this
     * device's metadata; after a failed send, reconnect only if the client
     * is not connected.
     */
    method ProcessFruit(outcome: Camera.CaptureOutcome, elapsed: real, now: real, publishOk: bool)
      returns (sent: bool)
      modifies this, camera, rabbit, rabbit.broker
      ensures var image := Captured(old(camera.isInitialized), camera.cameraType, outcome);
        && sent == (image.Some? && old(rabbit.isConnected) && publishOk)
        && (sent ==>
              rabbit.broker.Queue(IMAGE_QUEUE) == old(rabbit.broker.Queue(IMAGE_QUEUE))
                + [Amqp.Message(Amqp.Parsed(EdgeMessaging.Envelope(image.value, Some(EdgeMetadata(now)), now)), true)])
        && (rabbit.connectCalls != old(rabbit.connectCalls) <==> image.Some? && !old(rabbit.isConnected))
      ensures !sent ==> rabbit.broker.Queue(IMAGE_QUEUE) == old(rabbit.broker.Queue(IMAGE_QUEUE))
      ensures rabbit.broker.Queue(IMAGE_QUEUE) == old(rabbit.broker.Queue(IMAGE_QUEUE))
        + SentMessages(old(camera.isInitialized), camera.cameraType, outcome, old(rabbit.isConnected), publishOk, now)
      ensures forall q :: q != IMAGE_QUEUE ==> rabbit.broker.Queue(q) == old(rabbit.broker.Queue(q))
      ensures rabbit.connectCalls <= old(rabbit.connectCalls) + RECONNECT_ATTEMPTS
      ensures rabbit.State() == ClientAfterProcess(old(rabbit.State()),
        Captured(old(camera.isInitialized), camera.cameraType, outcome).Some?, rabbit.outcomes, rabbit.hasCallback)
      ensures rabbit.broker.durable == old(rabbit.broker.durable)
        + (if rabbit.isConnected && !old(rabbit.isConnected) then {IMAGE_QUEUE, RESULT_QUEUE} else {})
      ensures rabbit.broker.settlements == old(rabbit.broker.settlements)
      ensures camera.captureCount == old(camera.captureCount) + (if old(camera.isInitialized) then 1 else 0)
      ensures camera.lastCaptureTime ==
        (if old(camera.isInitialized) && Camera.StoresTime(camera.cameraType, outcome) then elapsed
         else old(camera.lastCaptureTime))
      ensures camera.isInitialized == old(camera.isInitialized) && camera.sleeps == old(camera.sleeps)
      ensures camera.brightnessAdjust == old(camera.brightnessAdjust) && camera.contrastAdjust == old(camera.contrastAdjust)
      ensures camera.saturationAdjust == old(camera.saturationAdjust) && camera.jpegQuality == old(camera.jpegQuality)
      ensures pauses == old(pauses) + [CAPTURE_DELAY]
      ensures lastIrDetection == old(lastIrDetection) && lastCaptureTime == old(lastCaptureTime)
      ensures isRunning == old(isRunning)
    {
      pauses := pauses + [CAPTURE_DELAY];
      var image := camera.CaptureImage(outcome, elapsed);
      if image.None? || image.value == [] {
        return false;
      }
      var metadata := EdgeMetadata(now);
      sent := rabbit.SendImage(image.value, Some(metadata), now, publishOk);
      if !sent && !rabbit.isConnected {
        var _ := rabbit.Reconnect(Some(RECONNECT_ATTEMPTS));
      }
    }

    /**
     * run()'s set-up: mark running and start the conveyor at the default
     * speed; the time-based trigger starts from a last capture time of 0.
     */
    method Run(now: real)
      requires Valid()
      modifies this, motor
      ensures Valid()
      ensures isRunning && lastCaptureTime == 0.0
      ensures motor.trace == old(motor.trace) + Motor.StartTrace(old(motor.isInitialized), old(motor.conveyorSpeed), None)
      ensures motor.isInitialized ==> motor.conveyorSpeed == CONVEYOR_SPEED
    {
      DefaultSpeedWithinLimit();
      isRunning := true;
      var _ := motor.StartConveyor(None, now);
      lastCaptureTime := 0.0;
    }

    /**
     * The emergency-stop step of a run-loop pass. `pressedPolls` is how many
     * consecutive reads see the button pressed, starting with the pass's
     * check: stop the conveyor, poll every ESTOP_POLL seconds until release,
     * then restart at the default speed.
     */
    method EmergencyStop(pressedPolls: nat, now: real)
      requires motor.Valid()
      modifies this, motor
      ensures motor.Valid()
      ensures !EmergencyStopActive(useEmergencyStop, pressedPolls > 0) ==> unchanged(motor) && pauses == old(pauses)
      ensures EmergencyStopActive(useEmergencyStop, pressedPolls > 0) ==>
        pauses == old(pauses) + seq(pressedPolls - 1, _ => ESTOP_POLL)
      ensures EmergencyStopActive(useEmergencyStop, pressedPolls > 0) && old(motor.isInitialized) ==>
        motor.conveyorSpeed == CONVEYOR_SPEED
        && motor.trace == old(motor.trace) + Motor.StopTrace(true) + Motor.StartTrace(true, 0, None)
      ensures EmergencyStopActive(useEmergencyStop, pressedPolls > 0) && old(motor.isInitialized) ==>
        motor.motorStartTime == Some(now) && motor.servoAngle == old(motor.servoAngle)
      ensures !old(motor.isInitialized) ==> unchanged(motor)
      ensures pauses == old(pauses) + StopPolls(useEmergencyStop, pressedPolls)
      ensures motor.isInitialized == old(motor.isInitialized)
      ensures lastIrDetection == old(lastIrDetection) && lastCaptureTime == old(lastCaptureTime)
      ensures isRunning == old(isRunning)
    {
      if !EmergencyStopActive(useEmergencyStop, pressedPolls > 0) {
        return;
      }
      DefaultSpeedWithinLimit();
      var _ := motor.StopConveyor();
      label stopped:
      var held := pressedPolls - 1;
      while held > 0
        invariant pauses == old(pauses) + seq(pressedPolls - 1 - held, _ => ESTOP_POLL)
        invariant 0 <= held <= pressedPolls - 1
        invariant unchanged@stopped(motor)
        invariant lastIrDetection == old(lastIrDetection) && lastCaptureTime == old(lastCaptureTime)
        invariant isRunning == old(isRunning)
      {
        assert seq(pressedPolls - held, _ => ESTOP_POLL) == seq(pressedPolls - 1 - held, _ => ESTOP_POLL) + [ESTOP_POLL];
        pauses := pauses + [ESTOP_POLL];
        held := held - 1;
      }
      var _ := motor.StartConveyor(None, now);
    }

    /**
     * The trigger test of a run-loop pass, branch by branch: the IR sensor
     * with its debounce, the capture interval, or always in continuous mode;
     * the IR or capture time is recorded when its mode fires.
     */
    method CheckTrigger(irHigh: bool, now: real) returns (fires: bool)
      modifies this
      ensures fires == TriggerFires(triggerMode, irHigh, now, old(lastIrDetection), old(lastCaptureTime))
      ensures lastIrDetection == (if triggerMode == MODE_IR && fires then now else old(lastIrDetection))
      ensures lastCaptureTime == (if triggerMode == MODE_TIME && fires then now else old(lastCaptureTime))
      ensures pauses == old(pauses) && isRunning == old(isRunning)
    {
      fires := false;
      if triggerMode == MODE_IR {
        fires := DetectFruitIr(irHigh, now);
      } else if triggerMode == MODE_TIME {
        if now - lastCaptureTime >= CAPTURE_INTERVAL {
          lastCaptureTime := now;
          fires := true;
        }
      } else if triggerMode == MODE_CONTINUOUS {
        fires := true;
      }
    }

    /**
     * The trigger step of a run-loop pass: process_fruit when the mode's
     * trigger fires (followed by CAPTURE_INTERVAL in continuous mode), then
     * the loop pause.
     */
    method TriggerStep(irHigh: bool, now: real, outcome: Camera.CaptureOutcome, elapsed: real, publishOk: bool)
      returns (processed: bool)
      modifies this, camera, rabbit, rabbit.broker
      ensures processed == TriggerFires(triggerMode, irHigh, now, old(lastIrDetection), old(lastCaptureTime))
      ensures lastIrDetection ==
        (if triggerMode == MODE_IR && processed then now else old(lastIrDetection))
      ensures lastCaptureTime ==
        (if triggerMode == MODE_TIME && processed then now else old(lastCaptureTime))
      ensures !processed ==> unchanged(camera) && unchanged(rabbit) && unchanged(rabbit.broker)
      ensures processed ==>
        camera.captureCount == old(camera.captureCount) + (if old(camera.isInitialized) then 1 else 0)
      ensures camera.lastCaptureTime ==
        (if processed && old(camera.isInitialized) && Camera.StoresTime(camera.cameraType, outcome) then elapsed
         else old(camera.lastCaptureTime))
      ensures camera.isInitialized == old(camera.isInitialized) && camera.sleeps == old(camera.sleeps)
      ensures camera.brightnessAdjust == old(camera.brightnessAdjust) && camera.contrastAdjust == old(camera.contrastAdjust)
      ensures camera.saturationAdjust == old(camera.saturationAdjust) && camera.jpegQuality == old(camera.jpegQuality)
      ensures rabbit.broker.Queue(IMAGE_QUEUE) == old(rabbit.broker.Queue(IMAGE_QUEUE))
        + (if processed then SentMessages(old(camera.isInitialized), camera.cameraType, outcome,
                                          old(rabbit.isConnected), publishOk, now)
           else [])
      ensures forall q :: q != IMAGE_QUEUE ==> rabbit.broker.Queue(q) == old(rabbit.broker.Queue(q))
      ensures rabbit.State() ==
        (if processed then ClientAfterProcess(old(rabbit.State()),
           Captured(old(camera.isInitialized), camera.cameraType, outcome).Some?, rabbit.outcomes, rabbit.hasCallback)
         else old(rabbit.State()))
      ensures rabbit.broker.durable == old(rabbit.broker.durable)
        + (if rabbit.isConnected && !old(rabbit.isConnected) then {IMAGE_QUEUE, RESULT_QUEUE} else {})
      ensures rabbit.broker.settlements == old(rabbit.broker.settlements)
      ensures |pauses| > 0 && pauses[|pauses| - 1] == LOOP_PAUSE
      ensures pauses == old(pauses) + TriggerPauses(triggerMode, processed)
      ensures isRunning == old(isRunning)
    {
      processed := CheckTrigger(irHigh, now);
      if processed {
        var _ := ProcessFruit(outcome, elapsed, now, publishOk);
        if triggerMode == MODE_CONTINUOUS {
          pauses := pauses + [CAPTURE_INTERVAL];
        }
      }
      pauses := pauses + [LOOP_PAUSE];
    }

    /**
     * One pass of the run loop: the emergency stop is handled before the
     * trigger (its polls come before the trigger's pauses), and process_fruit
     * runs exactly when the mode's trigger fires.
     */
    method RunIteration(pressedPolls: nat, irHigh: bool, now: real,
                        outcome: Camera.CaptureOutcome, elapsed: real, publishOk: bool)
      returns (processed: bool)
      requires Valid()
      modifies this, camera, motor, rabbit, rabbit.broker
      ensures Valid()
      ensures processed == TriggerFires(triggerMode, irHigh, now, old(lastIrDetection), old(lastCaptureTime))
      ensures !processed ==> unchanged(camera) && unchanged(rabbit) && unchanged(rabbit.broker)
      ensures !EmergencyStopActive(useEmergencyStop, pressedPolls > 0) ==> unchanged(motor)
      ensures EmergencyStopActive(useEmergencyStop, pressedPolls > 0) && old(motor.isInitialized) ==>
        motor.conveyorSpeed == CONVEYOR_SPEED
      ensures EmergencyStopActive(useEmergencyStop, pressedPolls > 0) && old(motor.isInitialized) ==>
        motor.trace == old(motor.trace) + Motor.StopTrace(true) + Motor.StartTrace(true, 0, None)
        && motor.motorStartTime == Some(now) && motor.servoAngle == old(motor.servoAngle)
        && motor.isInitialized
      ensures !old(motor.isInitialized) ==> unchanged(motor)
      ensures |pauses| > 0 && pauses[|pauses| - 1] == LOOP_PAUSE
      ensures pauses == old(pauses) + StopPolls(useEmergencyStop, pressedPolls) + TriggerPauses(triggerMode, processed)
      ensures lastIrDetection ==
        (if triggerMode == MODE_IR && processed then now else old(lastIrDetection))
      ensures lastCaptureTime ==
        (if triggerMode == MODE_TIME && processed then now else old(lastCaptureTime))
      ensures isRunning == old(isRunning)
      ensures processed ==>
        camera.captureCount == old(camera.captureCount) + (if old(camera.isInitialized) then 1 else 0)
      ensures camera.lastCaptureTime ==
        (if processed && old(camera.isInitialized) && Camera.StoresTime(camera.cameraType, outcome) then elapsed
         else old(camera.lastCaptureTime))
      ensures camera.isInitialized == old(camera.isInitialized) && camera.sleeps == old(camera.sleeps)
      ensures camera.brightnessAdjust == old(camera.brightnessAdjust) && camera.contrastAdjust == old(camera.contrastAdjust)
      ensures camera.saturationAdjust == old(camera.saturationAdjust) && camera.jpegQuality == old(camera.jpegQuality)
      ensures rabbit.broker.Queue(IMAGE_QUEUE) == old(rabbit.broker.Queue(IMAGE_QUEUE))
        + (if processed then SentMessages(old(camera.isInitialized), camera.cameraType, outcome,
                                          old(rabbit.isConnected), publishOk, now)
           else [])
      ensures forall q :: q != IMAGE_QUEUE ==> rabbit.broker.Queue(q) == old(rabbit.broker.Queue(q))
      ensures rabbit.State() ==
        (if processed then ClientAfterProcess(old(rabbit.State()),
           Captured(old(camera.isInitialized), camera.cameraType, outcome).Some?, rabbit.outcomes, rabbit.hasCallback)
         else old(rabbit.State()))
      ensures rabbit.broker.durable == old(rabbit.broker.durable)
        + (if rabbit.isConnected && !old(rabbit.isConnected) then {IMAGE_QUEUE, RESULT_QUEUE} else {})
      ensures rabbit.broker.settlements == old(rabbit.broker.settlements)
    {
      EmergencyStop(pressedPolls, now);
      processed := TriggerStep(irHigh, now, outcome, elapsed, publishOk);
    }

    /**
     * cleanup(): stop running, stop the conveyor and release the motor
     * hardware, release the camera, close the broker connection.
     */
    method Cleanup()
      requires Valid()
      modifies this, camera, motor, rabbit
      ensures Valid()
      ensures !isRunning && !camera.isInitialized && !motor.isInitialized
      ensures motor.trace == old(motor.trace) + Motor.StopTrace(old(motor.isInitialized))
                             + (if old(motor.isInitialized) then [Motor.Released] else [])
      ensures old(motor.isInitialized) ==> motor.conveyorSpeed == 0 && motor.motorStartTime.None?
      ensures !old(motor.isInitialized) ==>
        motor.conveyorSpeed == old(motor.conveyorSpeed) && motor.motorStartTime == old(motor.motorStartTime)
      ensures motor.servoAngle == old(motor.servoAngle)
      ensures camera.captureCount == old(camera.captureCount) && camera.lastCaptureTime == old(camera.lastCaptureTime)
      ensures camera.brightnessAdjust == old(camera.brightnessAdjust) && camera.contrastAdjust == old(camera.contrastAdjust)
      ensures camera.saturationAdjust == old(camera.saturationAdjust) && camera.jpegQuality == old(camera.jpegQuality)
      ensures camera.sleeps == old(camera.sleeps)
      ensures old(rabbit.hasConnection) ==> !rabbit.isConnected && !rabbit.consuming
      ensures rabbit.log == old(rabbit.log) + (if old(rabbit.hasConnection) then [EdgeMessaging.ConsumerStopped] else [])
      ensures !old(rabbit.hasConnection) ==>
        rabbit.isConnected == old(rabbit.isConnected) && rabbit.consuming == old(rabbit.consuming)
      ensures rabbit.hasConnection == old(rabbit.hasConnection) && rabbit.connectCalls == old(rabbit.connectCalls)
      ensures lastIrDetection == old(lastIrDetection) && lastCaptureTime == old(lastCaptureTime)
      ensures pauses == old(pauses)
    {
      isRunning := false;
      var _ := motor.StopConveyor();
      motor.Cleanup();
      camera.Cleanup();
      rabbit.Disconnect();
    }
  }
}
