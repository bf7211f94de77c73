/**
 * The actuator (raspberry-pi/motor_controller.py): a servo gate and a
 * conveyor motor driven through PWM. Every PWM write, direction change and
 * sleep is recorded, in order, in the ghost `trace`, so that ordering and
 * "no write happened" can be stated.
 */
module Motor {
  import opened Common
  import opened Config

  datatype MotorEvent =
    | ServoDuty(duty: real)       // servo_pwm.ChangeDutyCycle / start
    | ConveyorDuty(speed: int)    // conveyor_pwm.ChangeDutyCycle / start
    | DirForward                  // IN1 high, IN2 low
    | DirOff                      // IN1 low, IN2 low
    | Sleep(seconds: real)
    | Released                    // both PWM channels stopped and the GPIO pins released

  const SERVO_SETTLE_TIME: real := 0.5
  const RAMP_STEP: int := 10
  const RAMP_PAUSE: real := 0.05

  function Abs(x: real): real { if x < 0.0 then -x else x }

  /** Requested angle limited to the safe servo range. */
  function ClampAngle(angle: real): (a: real)
    ensures SERVO_MIN_ANGLE <= a <= SERVO_MAX_ANGLE
    ensures SERVO_MIN_ANGLE <= angle <= SERVO_MAX_ANGLE ==> a == angle
    ensures angle < SERVO_MIN_ANGLE ==> a == SERVO_MIN_ANGLE
    ensures angle > SERVO_MAX_ANGLE ==> a == SERVO_MAX_ANGLE
  {
    if angle > SERVO_MAX_ANGLE then SERVO_MAX_ANGLE
    else if angle < SERVO_MIN_ANGLE then SERVO_MIN_ANGLE
    else angle
  }

  /** Requested speed limited to [0, CONVEYOR_MAX_SPEED]. */
  function ClampSpeed(speed: int): (s: int)
    ensures 0 <= s <= CONVEYOR_MAX_SPEED
    ensures 0 <= speed <= CONVEYOR_MAX_SPEED ==> s == speed
    ensures speed < 0 ==> s == 0
    ensures speed > CONVEYOR_MAX_SPEED ==> s == CONVEYOR_MAX_SPEED
  {
    if speed > CONVEYOR_MAX_SPEED then CONVEYOR_MAX_SPEED
    else if speed < 0 then 0
    else speed
  }

  /** _angle_to_duty_cycle: the linear map from degrees to duty percent. */
  function AngleToDuty(angle: real): (duty: real)
    ensures 0.0 <= angle <= 180.0 ==> SERVO_MIN_DUTY <= duty <= SERVO_MAX_DUTY
  {
    SERVO_MIN_DUTY + (angle / 180.0) * (SERVO_MAX_DUTY - SERVO_MIN_DUTY)
  }

  /** The map sends 0 and 180 degrees to the ends of the duty range and is strictly increasing. */
  lemma AngleToDutyProperties(a: real, b: real)
    ensures AngleToDuty(0.0) == SERVO_MIN_DUTY && AngleToDuty(180.0) == SERVO_MAX_DUTY
    ensures a < b ==> AngleToDuty(a) < AngleToDuty(b)
    ensures SERVO_MIN_ANGLE <= a <= SERVO_MAX_ANGLE ==> SERVO_MIN_DUTY <= AngleToDuty(a) <= SERVO_MAX_DUTY
  {
    DutyRangeIncreasing();
    if a < b {
      assert (b / 180.0 - a / 180.0) * (SERVO_MAX_DUTY - SERVO_MIN_DUTY) > 0.0;
    }
  }

  /** The soft-start ramp from `from`: duty from, from+10, ... while below the target, each followed by a pause. */
  function RampFrom(from: int, target: int): seq<MotorEvent>
    decreases target - from
  {
    if from >= target then []
    else [ConveyorDuty(from), Sleep(RAMP_PAUSE)] + RampFrom(from + RAMP_STEP, target)
  }

  /** Ramp of `start_conveyor`: range(0, target, 10). */
  function Ramp(target: int): seq<MotorEvent> { RampFrom(0, target) }

  /**
   * The ramp from a multiple of ten writes the k-th multiple of ten above it
   * at position 2k, pauses after each write, and stays strictly below the target.
   */
  lemma {:induction false} RampFromShape(from: int, target: int)
    requires from >= 0
    ensures from < target ==> |RampFrom(from, target)| == 2 * ((target - from + RAMP_STEP - 1) / RAMP_STEP)
    ensures from >= target ==> RampFrom(from, target) == []
    ensures forall i :: 0 <= i < |RampFrom(from, target)| / 2 ==>
      RampFrom(from, target)[2 * i] == ConveyorDuty(from + RAMP_STEP * i)
      && from + RAMP_STEP * i < target
      && RampFrom(from, target)[2 * i + 1] == Sleep(RAMP_PAUSE)
    ensures |RampFrom(from, target)| % 2 == 0
    decreases target - from
  {
    if from < target {
      var rest := RampFrom(from + RAMP_STEP, target);
      RampFromShape(from + RAMP_STEP, target);
      var r := RampFrom(from, target);
      assert r == [ConveyorDuty(from), Sleep(RAMP_PAUSE)] + rest;
      forall i | 0 <= i < |r| / 2
        ensures r[2 * i] == ConveyorDuty(from + RAMP_STEP * i) && from + RAMP_STEP * i < target
          && r[2 * i + 1] == Sleep(RAMP_PAUSE)
      {
        if i > 0 {
          assert r[2 * i] == rest[2 * (i - 1)];
          assert r[2 * i + 1] == rest[2 * (i - 1) + 1];
        }
      }
    }
  }

  /** A write inside the safety limits: conveyor duty at most CONVEYOR_MAX_SPEED, servo duty 0 or in the duty range. */
  predicate SafeEvent(e: MotorEvent)
  {
    && (e.ConveyorDuty? ==> 0 <= e.speed <= CONVEYOR_MAX_SPEED)
    && (e.ServoDuty? ==> e.duty == 0.0 || SERVO_MIN_DUTY <= e.duty <= SERVO_MAX_DUTY)
  }

  predicate SafeTrace(t: seq<MotorEvent>)
  {
    forall i :: 0 <= i < |t| ==> SafeEvent(t[i])
  }

  /** Appending safe writes to a safe trace keeps it safe. */
  lemma SafeAppend(t: seq<MotorEvent>, u: seq<MotorEvent>)
    requires SafeTrace(t) && SafeTrace(u)
    ensures SafeTrace(t + u)
  {
    assert forall i :: |t| <= i < |t + u| ==> (t + u)[i] == u[i - |t|];
  }

  /** Every conveyor duty written by a ramp towards a safe target is itself safe. */
  lemma {:induction false} RampFromSafe(from: int, target: int)
    requires 0 <= from && target <= CONVEYOR_MAX_SPEED
    ensures SafeTrace(RampFrom(from, target))
    decreases target - from
  {
    if from < target {
      RampFromSafe(from + RAMP_STEP, target);
    }
  }

  /** What stop_conveyor writes: nothing on an uninitialised controller. */
  function StopTrace(initialized: bool): seq<MotorEvent>
  {
    if initialized then [DirOff, ConveyorDuty(0)] else []
  }

  /** What set_servo_angle writes: nothing if uninitialised or already within one degree. */
  function ServoTrace(initialized: bool, current: real, angle: real): seq<MotorEvent>
  {
    var a := ClampAngle(angle);
    if !initialized || Abs(a - current) < 1.0 then []
    else [ServoDuty(AngleToDuty(a)), Sleep(SERVO_SETTLE_TIME), ServoDuty(0.0)]
  }

  /** The angle the servo holds after set_servo_angle. */
  function ServoAfter(initialized: bool, current: real, angle: real): real
  {
    var a := ClampAngle(angle);
    if !initialized || Abs(a - current) < 1.0 then current else a
  }

  /** What start_conveyor writes: forward direction, the ramp only from standstill, then the target. */
  function StartTrace(initialized: bool, currentSpeed: int, speed: Option<int>): seq<MotorEvent>
  {
    var s := ClampSpeed(speed.GetOr(CONVEYOR_SPEED));
    if !initialized then []
    else [DirForward] + (if currentSpeed == 0 then Ramp(s) else []) + [ConveyorDuty(s)]
  }

  /** The gate for a label: fresh to center, spoiled to right, other to left, anything else to center. */
  function GateFor(classification: string): (angle: real)
    ensures angle in Gates()
  {
    if classification == CLASSIFICATION_FRESH then SERVO_ANGLE_CENTER
    else if classification == CLASSIFICATION_SPOILED then SERVO_ANGLE_RIGHT
    else if classification == CLASSIFICATION_OTHER then SERVO_ANGLE_LEFT
    else SERVO_ANGLE_CENTER
  }

  /** The full sort_fruit sequence. */
  function SortTrace(initialized: bool, servo: real, classification: string): (t: seq<MotorEvent>)
    ensures !initialized ==> t == [Sleep(CONVEYOR_STOP_TIME), Sleep(CONVEYOR_RESUME_DELAY)]
    ensures initialized ==> |t| >= 4 && t[..2] == [DirOff, ConveyorDuty(0)] && t[|t| - 1].ConveyorDuty?
  {
    StopTrace(initialized) + [Sleep(CONVEYOR_STOP_TIME)]
    + ServoTrace(initialized, servo, GateFor(classification))
    + [Sleep(CONVEYOR_RESUME_DELAY)]
    + StartTrace(initialized, 0, None)
  }

  /** Moving between two different gates is never swallowed by the one-degree tolerance. */
  lemma GateMoveAlwaysWrites(from: string, to: string)
    requires GateFor(from) != GateFor(to)
    ensures ServoTrace(true, GateFor(from), GateFor(to))
         == [ServoDuty(AngleToDuty(GateFor(to))), Sleep(SERVO_SETTLE_TIME), ServoDuty(0.0)]
    ensures ServoAfter(true, GateFor(from), GateFor(to)) == GateFor(to)
  {
  }

  /** Asking twice for the same angle writes only once: the second call finds the servo already there. */
  lemma ServoTwiceWritesOnce(current: real, angle: real)
    ensures ServoTrace(true, ServoAfter(true, current, angle), angle) == []
    ensures ServoAfter(true, ServoAfter(true, current, angle), angle) == ServoAfter(true, current, angle)
  {
  }

  /**
   * Whatever speed the conveyor ran at before, an initialised sort resumes at
   * CONVEYOR_SPEED with a full soft start.
   */
  lemma {:induction false} SortResumesAtConfiguredSpeed(servo: real, classification: string)
    ensures var t := SortTrace(true, servo, classification);
      t[|t| - 1] == ConveyorDuty(CONVEYOR_SPEED)
      && t[..2] == [DirOff, ConveyorDuty(0)]
      && t[2] == Sleep(CONVEYOR_STOP_TIME)
    ensures var t := SortTrace(true, servo, classification);
      var tail := [DirForward] + Ramp(CONVEYOR_SPEED) + [ConveyorDuty(CONVEYOR_SPEED)];
      |t| >= |tail| && t[|t| - |tail|..] == tail
  {
    DefaultSpeedWithinLimit();
    assert StartTrace(true, 0, None) == [DirForward] + Ramp(CONVEYOR_SPEED) + [ConveyorDuty(CONVEYOR_SPEED)];
  }

  /** The initialised sort trace writes only safe duties. */
  lemma SortTraceSafe(initialized: bool, servo: real, classification: string)
    ensures SafeTrace(SortTrace(initialized, servo, classification))
  {
    var stop := StopTrace(initialized) + [Sleep(CONVEYOR_STOP_TIME)];
    var servoPart := ServoTrace(initialized, servo, GateFor(classification)) + [Sleep(CONVEYOR_RESUME_DELAY)];
    var start := StartTrace(initialized, 0, None);
    assert SafeTrace(stop);
    assert SafeTrace(servoPart) by {
      AngleToDutyProperties(ClampAngle(GateFor(classification)), 0.0);
    }
    assert SafeTrace(start) by {
      DefaultSpeedWithinLimit();
      RampFromSafe(0, CONVEYOR_SPEED);
      if initialized {
        var s := ClampSpeed(CONVEYOR_SPEED);
        assert start == [DirForward] + Ramp(s) + [ConveyorDuty(s)];
        SafeAppend([DirForward], Ramp(s));
        SafeAppend([DirForward] + Ramp(s), [ConveyorDuty(s)]);
      }
    }
    SafeAppend(stop, servoPart);
    SafeAppend(stop + servoPart, start);
    assert SortTrace(initialized, servo, classification) == stop + servoPart + start;
  }

  class MotorController {
    var isInitialized: bool
    var servoAngle: real
    var conveyorSpeed: int
    var motorStartTime: Option<real>
    ghost var trace: seq<MotorEvent>

    /** Safety invariant: the stored angle and speed are clamped and every write was safe. */
    ghost predicate Valid()
      reads this
    {
      && SERVO_MIN_ANGLE <= servoAngle <= SERVO_MAX_ANGLE
      && 0 <= conveyorSpeed <= CONVEYOR_MAX_SPEED
      && SafeTrace(trace)
    }

    constructor ()
      ensures Valid()
      ensures !isInitialized && servoAngle == SERVO_ANGLE_CENTER && conveyorSpeed == 0
      ensures motorStartTime == None && trace == []
    {
      isInitialized := false;
      servoAngle := SERVO_ANGLE_CENTER;
      conveyorSpeed := 0;
      motorStartTime := None;
      trace := [];
    }

    /**
     * initialize(): PWM channels start at duty 0; the neutral-position calls
     * run before the initialised flag is set, so on a fresh controller they
     * hit the not-initialised guards and write nothing; on a controller that
     * was already initialised they centre the servo and stop the belt.
     * `hardwareOk` is whether the GPIO setup raised.
     */
    method Initialize(hardwareOk: bool) returns (ok: bool)
      requires Valid()
      modifies this
      ensures Valid()
      ensures ok == hardwareOk
      ensures isInitialized == (old(isInitialized) || hardwareOk)
      ensures !hardwareOk ==> unchanged(this)
      ensures hardwareOk && !old(isInitialized) ==>
        trace == old(trace) + [ServoDuty(0.0), ConveyorDuty(0)]
        && servoAngle == old(servoAngle) && conveyorSpeed == old(conveyorSpeed)
        && motorStartTime == old(motorStartTime)
      ensures hardwareOk && old(isInitialized) ==>
        trace == old(trace) + [ServoDuty(0.0), ConveyorDuty(0)]
                 + ServoTrace(true, old(servoAngle), SERVO_ANGLE_CENTER) + StopTrace(true)
        && servoAngle == ServoAfter(true, old(servoAngle), SERVO_ANGLE_CENTER)
        && conveyorSpeed == 0 && motorStartTime.None?
    {
      if !hardwareOk {
        return false;
      }
      trace := trace + [ServoDuty(0.0), ConveyorDuty(0)];
      var _ := SetServoCenter();
      var _ := StopConveyor();
      isInitialized := true;
      ok := true;
    }

    /** set_servo_angle(). */
    method SetServoAngle(angle: real) returns (ok: bool)
      requires Valid()
      modifies this
      ensures Valid()
      ensures ok == isInitialized
      ensures servoAngle == ServoAfter(old(isInitialized), old(servoAngle), angle)
      ensures trace == old(trace) + ServoTrace(old(isInitialized), old(servoAngle), angle)
      ensures isInitialized == old(isInitialized) && conveyorSpeed == old(conveyorSpeed)
      ensures motorStartTime == old(motorStartTime)
    {
      if !isInitialized {
        return false;
      }
      var a := ClampAngle(angle);
      if Abs(a - servoAngle) < 1.0 {
        return true;
      }
      var duty := AngleToDuty(a);
      AngleToDutyProperties(a, 0.0);
      trace := trace + [ServoDuty(duty), Sleep(SERVO_SETTLE_TIME), ServoDuty(0.0)];
      servoAngle := a;
      ok := true;
    }

    method SetServoLeft() returns (ok: bool)
      requires Valid()
      modifies this
      ensures Valid()
      ensures ok == isInitialized && isInitialized == old(isInitialized)
      ensures servoAngle == ServoAfter(old(isInitialized), old(servoAngle), SERVO_ANGLE_LEFT)
      ensures trace == old(trace) + ServoTrace(old(isInitialized), old(servoAngle), SERVO_ANGLE_LEFT)
      ensures conveyorSpeed == old(conveyorSpeed) && motorStartTime == old(motorStartTime)
    {
      ok := SetServoAngle(SERVO_ANGLE_LEFT);
    }

    method SetServoCenter() returns (ok: bool)
      requires Valid()
      modifies this
      ensures Valid()
      ensures ok == isInitialized && isInitialized == old(isInitialized)
      ensures servoAngle == ServoAfter(old(isInitialized), old(servoAngle), SERVO_ANGLE_CENTER)
      ensures trace == old(trace) + ServoTrace(old(isInitialized), old(servoAngle), SERVO_ANGLE_CENTER)
      ensures conveyorSpeed == old(conveyorSpeed) && motorStartTime == old(motorStartTime)
    {
      ok := SetServoAngle(SERVO_ANGLE_CENTER);
    }

    method SetServoRight() returns (ok: bool)
      requires Valid()
      modifies this
      ensures Valid()
      ensures ok == isInitialized && isInitialized == old(isInitialized)
      ensures servoAngle == ServoAfter(old(isInitialized), old(servoAngle), SERVO_ANGLE_RIGHT)
      ensures trace == old(trace) + ServoTrace(old(isInitialized), old(servoAngle), SERVO_ANGLE_RIGHT)
      ensures conveyorSpeed == old(conveyorSpeed) && motorStartTime == old(motorStartTime)
    {
      ok := SetServoAngle(SERVO_ANGLE_RIGHT);
    }

    /**
     * start_conveyor(speed): None means CONVEYOR_SPEED; the speed is clamped
     * and stored; the soft-start ramp runs only from standstill; the start
     * time is recorded only if none was.
     */
    method StartConveyor(speed: Option<int>, now: real) returns (ok: bool)
      requires Valid()
      modifies this
      ensures Valid()
      ensures ok == isInitialized && isInitialized == old(isInitialized)
      ensures trace == old(trace) + StartTrace(old(isInitialized), old(conveyorSpeed), speed)
      ensures conveyorSpeed ==
        (if old(isInitialized) then ClampSpeed(speed.GetOr(CONVEYOR_SPEED)) else old(conveyorSpeed))
      ensures motorStartTime ==
        (if old(isInitialized) && old(motorStartTime).None? then Some(now) else old(motorStartTime))
      ensures servoAngle == old(servoAngle)
      ensures !old(isInitialized) ==> unchanged(this)
    {
      if !isInitialized {
        return false;
      }
      var s := speed.GetOr(CONVEYOR_SPEED);
      s := ClampSpeed(s);
      WriteStart(s, conveyorSpeed == 0);
      assert trace == old(trace) + StartTrace(true, old(conveyorSpeed), speed);
      conveyorSpeed := s;
      if motorStartTime.None? {
        motorStartTime := Some(now);
      }
      ok := true;
    }

    /** The pin and duty writes of start_conveyor: forward, the ramp when asked for, then the target duty. */
    method WriteStart(s: int, fromStandstill: bool)
      requires Valid() && 0 <= s <= CONVEYOR_MAX_SPEED
      modifies this
      ensures Valid()
      ensures trace == old(trace) + [DirForward] + (if fromStandstill then Ramp(s) else []) + [ConveyorDuty(s)]
      ensures isInitialized == old(isInitialized) && conveyorSpeed == old(conveyorSpeed)
      ensures servoAngle == old(servoAngle) && motorStartTime == old(motorStartTime)
    {
      SafeAppend(trace, [DirForward]);
      trace := trace + [DirForward];
      ghost var forward := trace;
      if fromStandstill {
        SoftStart(s);
      }
      assert trace == forward + (if fromStandstill then Ramp(s) else []);
      SafeAppend(trace, [ConveyorDuty(s)]);
      trace := trace + [ConveyorDuty(s)];
    }

    /** The soft-start loop of start_conveyor: duty 0, 10, 20, ... strictly below the target, each followed by a pause. */
    method SoftStart(target: int)
      requires Valid() && target <= CONVEYOR_MAX_SPEED
      modifies this
      ensures Valid()
      ensures trace == old(trace) + Ramp(target)
      ensures isInitialized == old(isInitialized) && conveyorSpeed == old(conveyorSpeed)
      ensures servoAngle == old(servoAngle) && motorStartTime == old(motorStartTime)
    {
      var rampSpeed := 0;
      while rampSpeed < target
        invariant 0 <= rampSpeed
        invariant trace + RampFrom(rampSpeed, target) == old(trace) + Ramp(target)
        invariant Valid()
        invariant isInitialized == old(isInitialized) && conveyorSpeed == old(conveyorSpeed)
        invariant servoAngle == old(servoAngle) && motorStartTime == old(motorStartTime)
        decreases target - rampSpeed
      {
        trace := trace + [ConveyorDuty(rampSpeed), Sleep(RAMP_PAUSE)];
        rampSpeed := rampSpeed + RAMP_STEP;
      }
    }

    /** stop_conveyor(): both direction pins low, duty 0, speed and start time cleared. */
    method StopConveyor() returns (ok: bool)
      requires Valid()
      modifies this
      ensures Valid()
      ensures ok == isInitialized && isInitialized == old(isInitialized)
      ensures trace == old(trace) + StopTrace(old(isInitialized))
      ensures conveyorSpeed == (if old(isInitialized) then 0 else old(conveyorSpeed))
      ensures motorStartTime == (if old(isInitialized) then None else old(motorStartTime))
      ensures servoAngle == old(servoAngle)
      ensures !old(isInitialized) ==> unchanged(this)
    {
      if !isInitialized {
        return false;
      }
      trace := trace + [DirOff, ConveyorDuty(0)];
      conveyorSpeed := 0;
      motorStartTime := None;
      ok := true;
    }

    /** The gate branch of sort_fruit: one of the three named positions, center for an unknown label. */
    method SetGateFor(classification: string)
      requires Valid()
      modifies this
      ensures Valid()
      ensures isInitialized == old(isInitialized)
      ensures servoAngle == ServoAfter(old(isInitialized), old(servoAngle), GateFor(classification))
      ensures trace == old(trace) + ServoTrace(old(isInitialized), old(servoAngle), GateFor(classification))
      ensures conveyorSpeed == old(conveyorSpeed) && motorStartTime == old(motorStartTime)
    {
      if classification == CLASSIFICATION_FRESH {
        var _ := SetServoCenter();
      } else if classification == CLASSIFICATION_SPOILED {
        var _ := SetServoRight();
      } else if classification == CLASSIFICATION_OTHER {
        var _ := SetServoLeft();
      } else {
        var _ := SetServoCenter();
      }
    }

    /**
     * sort_fruit(): stop, pause, move the gate for the label, pause, restart at
     * CONVEYOR_SPEED. Return values of the steps are ignored, so the pauses
     * happen even on an uninitialised controller.
     */
    method SortFruit(classification: string, now: real)
      requires Valid()
      modifies this
      ensures Valid()
      ensures isInitialized == old(isInitialized)
      ensures trace == old(trace) + SortTrace(old(isInitialized), old(servoAngle), classification)
      ensures servoAngle == ServoAfter(old(isInitialized), old(servoAngle), GateFor(classification))
      ensures conveyorSpeed == (if old(isInitialized) then CONVEYOR_SPEED else old(conveyorSpeed))
      ensures motorStartTime == (if old(isInitialized) then Some(now) else old(motorStartTime))
    {
      DefaultSpeedWithinLimit();
      ghost var init, angle := isInitialized, servoAngle;
      var _ := StopConveyor();
      trace := trace + [Sleep(CONVEYOR_STOP_TIME)];
      ghost var stopped := trace;
      assert stopped == old(trace) + StopTrace(init) + [Sleep(CONVEYOR_STOP_TIME)];
      SetGateFor(classification);
      assert trace == stopped + ServoTrace(init, angle, GateFor(classification));
      assert conveyorSpeed == (if init then 0 else old(conveyorSpeed));
      trace := trace + [Sleep(CONVEYOR_RESUME_DELAY)];
      ghost var moved := trace;
      var _ := StartConveyor(None, now);
      assert trace == moved + StartTrace(init, 0, None);
    }

    /** cleanup(): releases the hardware once and marks the controller uninitialised. */
    method Cleanup()
      requires Valid()
      modifies this
      ensures Valid() && !isInitialized
      ensures trace == old(trace) + (if old(isInitialized) then [Released] else [])
      ensures servoAngle == old(servoAngle) && conveyorSpeed == old(conveyorSpeed)
      ensures motorStartTime == old(motorStartTime)
    {
      if isInitialized {
        trace := trace + [Released];
        isInitialized := false;
      }
    }
  }
}
