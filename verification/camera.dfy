/**
 * The edge camera (raspberry-pi/camera_module.py, with the same settings,
 * burst and preview logic repeated in raspberry-pi/camera_advanced.py).
 *
 * The camera driver is an oracle: each capture call is told what the driver
 * produced (`CaptureOutcome`), how long it took, and, for OpenCV, what the
 * frame reads scored. JPEG encoding and image enhancement are not modelled.
 * Sleeps are recorded in the ghost `sleeps` log.
 */
module Camera {
  import opened Common
  import opened Json
  import opened Config

  /** The camera library found at import time; None when neither is installed. */
  datatype CameraType = PiCamera2 | OpenCv

  /** What one call into the driver produced: encoded bytes, no image, or an exception. */
  datatype CaptureOutcome = Captured(image: seq<byte>) | NoImage | Raised

  /** Per-image statistics of a calibration shot: mean gray level and its standard deviation. */
  datatype ShotStats = ShotStats(mean: real, std: real)

  /** The figures reported by get_camera_stats. */
  datatype CameraStats = CameraStats(
    cameraType: Option<CameraType>, captureCount: nat, lastCaptureTime: real, isInitialized: bool,
    brightness: int, contrast: real, saturation: real, quality: int)

  const CALIBRATION_SHOTS: nat := 3
  const CALIBRATION_PAUSE: real := 0.5
  const OPENCV_FRAMES: nat := 3

  function ClampInt(lo: int, hi: int, x: int): (r: int)
    requires lo <= hi
    ensures lo <= r <= hi
    ensures lo <= x <= hi ==> r == x
    ensures x < lo ==> r == lo
    ensures x > hi ==> r == hi
  {
    if x < lo then lo else if x > hi then hi else x
  }

  function ClampReal(lo: real, hi: real, x: real): (r: real)
    requires lo <= hi
    ensures lo <= r <= hi
    ensures lo <= x <= hi ==> r == x
    ensures x < lo ==> r == lo
    ensures x > hi ==> r == hi
  {
    if x < lo then lo else if x > hi then hi else x
  }

  /** Clamping twice is clamping once, so re-applying the same settings changes nothing. */
  lemma ClampIdempotent(lo: int, hi: int, x: int, rlo: real, rhi: real, y: real)
    requires lo <= hi && rlo <= rhi
    ensures ClampInt(lo, hi, ClampInt(lo, hi, x)) == ClampInt(lo, hi, x)
    ensures ClampReal(rlo, rhi, ClampReal(rlo, rhi, y)) == ClampReal(rlo, rhi, y)
  {
  }

  /**
   * Whether capture_image stores the duration of a call on an initialised
   * camera: not for an unknown camera type, nor when the OpenCV path raises
   * (the picamera2 path swallows its own exceptions).
   */
  predicate StoresTime(cameraType: Option<CameraType>, outcome: CaptureOutcome): (stores: bool)
    ensures cameraType == Some(PiCamera2) ==> stores
    ensures stores ==> cameraType.Some?
    ensures cameraType == Some(OpenCv) ==> (stores <==> !outcome.Raised?)
  {
    cameraType.Some? && !(outcome.Raised? && cameraType == Some(OpenCv))
  }

  /**
   * last_capture_time after a run of captures with these outcomes and
   * durations, starting from `prev`: the duration of the last capture that
   * stored one, or `prev` when none did.
   */
  function TimeAfter(cameraType: Option<CameraType>, outcomes: seq<CaptureOutcome>, durations: seq<real>, prev: real)
    : (t: real)
    requires |outcomes| == |durations|
    ensures (forall k :: 0 <= k < |outcomes| ==> !StoresTime(cameraType, outcomes[k])) ==> t == prev
    ensures t == prev || exists k :: 0 <= k < |outcomes| && StoresTime(cameraType, outcomes[k]) && t == durations[k]
  {
    if outcomes == [] then prev
    else
      var n := |outcomes| - 1;
      assert forall k :: 0 <= k < n ==> outcomes[..n][k] == outcomes[k] && durations[..n][k] == durations[k];
      if StoresTime(cameraType, outcomes[n]) then durations[n]
      else TimeAfter(cameraType, outcomes[..n], durations[..n], prev)
  }

  /**
   * When some capture of the run stored its duration, last_capture_time is
   * the duration of the last one that did: no later capture stores one.
   */
  lemma {:induction false} TimeAfterIsLastStored(cameraType: Option<CameraType>, outcomes: seq<CaptureOutcome>,
                                                 durations: seq<real>, prev: real)
    requires |outcomes| == |durations|
    ensures (exists k :: 0 <= k < |outcomes| && StoresTime(cameraType, outcomes[k])) ==>
      exists k :: 0 <= k < |outcomes| && StoresTime(cameraType, outcomes[k])
        && TimeAfter(cameraType, outcomes, durations, prev) == durations[k]
        && forall j :: k < j < |outcomes| ==> !StoresTime(cameraType, outcomes[j])
  {
    if outcomes != [] {
      var n := |outcomes| - 1;
      if !StoresTime(cameraType, outcomes[n]) {
        var o, d := outcomes[..n], durations[..n];
        TimeAfterIsLastStored(cameraType, o, d, prev);
        if exists k :: 0 <= k < |outcomes| && StoresTime(cameraType, outcomes[k]) {
          var k :| 0 <= k < |outcomes| && StoresTime(cameraType, outcomes[k]);
          assert k < n && o[k] == outcomes[k];
          var m :| 0 <= m < n && StoresTime(cameraType, o[m]) && TimeAfter(cameraType, o, d, prev) == d[m]
                   && forall j :: m < j < n ==> !StoresTime(cameraType, o[j]);
          assert o[m] == outcomes[m] && d[m] == durations[m];
          forall j | m < j < |outcomes|
            ensures !StoresTime(cameraType, outcomes[j])
          {
            if j < n {
              assert o[j] == outcomes[j];
            }
          }
        }
      }
    }
  }

  /** One more capture of a burst: last_capture_time takes its duration iff it stores one. */
  lemma TimeAfterStep(cameraType: Option<CameraType>, outcomes: seq<CaptureOutcome>, durations: seq<real>,
                      prev: real, i: nat)
    requires |outcomes| == |durations| && i < |outcomes|
    ensures TimeAfter(cameraType, outcomes[..i + 1], durations[..i + 1], prev)
      == if StoresTime(cameraType, outcomes[i]) then durations[i]
         else TimeAfter(cameraType, outcomes[..i], durations[..i], prev)
  {
    assert outcomes[..i + 1][..i] == outcomes[..i];
    assert durations[..i + 1][..i] == durations[..i];
  }

  /** What capture_image returns for one driver outcome (empty picamera2 JPEG data counts as a failure). */
  function CaptureResult(cameraType: Option<CameraType>, outcome: CaptureOutcome): (r: Option<seq<byte>>)
    ensures r.Some? ==> outcome == Captured(r.value)
    ensures r.Some? ==> cameraType.Some?
    ensures outcome.Captured? && cameraType == Some(OpenCv) ==> r == Some(outcome.image)
    ensures cameraType == Some(PiCamera2) && r.Some? ==> r.value != []
  {
    match cameraType
    case None => None
    case Some(t) =>
      match outcome
      case Captured(b) => if t == PiCamera2 && b == [] then None else Some(b)
      case _ => None
  }

  /** The images a burst keeps: the truthy (present and non-empty) results, in call order. */
  function Kept(cameraType: Option<CameraType>, outcomes: seq<CaptureOutcome>): (images: seq<seq<byte>>)
    ensures |images| <= |outcomes|
    ensures forall i :: 0 <= i < |images| ==> images[i] != []
  {
    if outcomes == [] then []
    else
      var last := CaptureResult(cameraType, outcomes[|outcomes| - 1]);
      Kept(cameraType, outcomes[..|outcomes| - 1])
        + (if last.Some? && last.value != [] then [last.value] else [])
  }

  /** A burst keeps at most one image per call, every kept image is non-empty and came from a capture. */
  lemma {:induction false} KeptBounded(cameraType: Option<CameraType>, outcomes: seq<CaptureOutcome>)
    ensures |Kept(cameraType, outcomes)| <= |outcomes|
    ensures forall k :: 0 <= k < |Kept(cameraType, outcomes)| ==>
      Kept(cameraType, outcomes)[k] != [] && Captured(Kept(cameraType, outcomes)[k]) in outcomes
  {
    if outcomes != [] {
      var init := outcomes[..|outcomes| - 1];
      KeptBounded(cameraType, init);
      forall k | 0 <= k < |Kept(cameraType, outcomes)|
        ensures Captured(Kept(cameraType, outcomes)[k]) in outcomes
      {
        if k < |Kept(cameraType, init)| {
          assert Kept(cameraType, outcomes)[k] == Kept(cameraType, init)[k];
          assert Captured(Kept(cameraType, init)[k]) in init;
        } else {
          assert outcomes[|outcomes| - 1] == Captured(Kept(cameraType, outcomes)[k]);
        }
      }
    }
  }

  /** When every call produces non-empty bytes on an OpenCV camera, a burst keeps all of them. */
  lemma {:induction false} KeptAllWhenAllSucceed(outcomes: seq<CaptureOutcome>)
    requires forall k :: 0 <= k < |outcomes| ==> outcomes[k].Captured? && outcomes[k].image != []
    ensures |Kept(Some(OpenCv), outcomes)| == |outcomes|
  {
    if outcomes != [] {
      KeptAllWhenAllSucceed(outcomes[..|outcomes| - 1]);
    }
  }

  /**
   * Best-frame selection of the OpenCV capture: each entry is one frame read,
   * None when the read failed, else the frame's Laplacian-variance score. The
   * chosen frame is the first one whose score beats every earlier score and
   * the starting best of 0.
   */
  method SelectBestFrame(frames: seq<Option<real>>) returns (best: Option<nat>)
    ensures best.None? <==> forall j :: 0 <= j < |frames| && frames[j].Some? ==> frames[j].value <= 0.0
    ensures best.Some? ==>
      && best.value < |frames| && frames[best.value].Some?
      && frames[best.value].value > 0.0
      && (forall j :: 0 <= j < |frames| && frames[j].Some? ==> frames[j].value <= frames[best.value].value)
      && (forall j :: 0 <= j < best.value && frames[j].Some? ==> frames[j].value < frames[best.value].value)
  {
    best := None;
    var bestScore: real := 0.0;
    var i := 0;
    while i < |frames|
      invariant 0 <= i <= |frames|
      invariant best.None? ==> bestScore == 0.0
      invariant best.Some? ==> best.value < i && frames[best.value] == Some(bestScore) && bestScore > 0.0
      invariant best.Some? ==> forall j :: 0 <= j < best.value && frames[j].Some? ==> frames[j].value < bestScore
      invariant forall j :: 0 <= j < i && frames[j].Some? ==> frames[j].value <= bestScore
    {
      if frames[i].Some? && frames[i].value > bestScore {
        bestScore := frames[i].value;
        best := Some(i);
      }
      i := i + 1;
    }
  }

  /** Sum of a list of reals. */
  function Sum(xs: seq<real>): real
  {
    if xs == [] then 0.0 else Sum(xs[..|xs| - 1]) + xs[|xs| - 1]
  }

  /** The statistics of the calibration shots that succeeded, in order. */
  function Successful(shots: seq<Option<ShotStats>>): (r: seq<ShotStats>)
    ensures |r| <= |shots|
  {
    if shots == [] then []
    else
      Successful(shots[..|shots| - 1])
        + (if shots[|shots| - 1].Some? then [shots[|shots| - 1].value] else [])
  }

  function Means(s: seq<ShotStats>): (r: seq<real>)
    ensures |r| == |s|
  {
    if s == [] then [] else Means(s[..|s| - 1]) + [s[|s| - 1].mean]
  }

  function Stds(s: seq<ShotStats>): (r: seq<real>)
    ensures |r| == |s|
  {
    if s == [] then [] else Stds(s[..|s| - 1]) + [s[|s| - 1].std]
  }

  /** Calibration's brightness rule: +10 below 80, -10 above 200, else unchanged. */
  function CalibratedBrightness(current: int, avgBrightness: real): (b: int)
    ensures avgBrightness < 80.0 ==> b == 10
    ensures avgBrightness > 200.0 ==> b == -10
    ensures 80.0 <= avgBrightness <= 200.0 ==> b == current
  {
    if avgBrightness < 80.0 then 10 else if avgBrightness > 200.0 then -10 else current
  }

  /** Calibration's contrast rule: 1.2 below 30, else unchanged. */
  function CalibratedContrast(current: real, avgContrast: real): (c: real)
    ensures avgContrast < 30.0 ==> c == 1.2
    ensures avgContrast >= 30.0 ==> c == current
  {
    if avgContrast < 30.0 then 1.2 else current
  }

  /** Settings produced by calibration always lie in the settings ranges when they did before. */
  lemma CalibrationKeepsRanges(b: int, c: real, avgB: real, avgC: real)
    requires -100 <= b <= 100 && 0.5 <= c <= 2.0
    ensures -100 <= CalibratedBrightness(b, avgB) <= 100
    ensures 0.5 <= CalibratedContrast(c, avgC) <= 2.0
  {
  }

  /** The advertised enhancement ranges and defaults of get_enhancement_settings. */
  datatype Range = Range(lo: real, hi: real)
  datatype Enhancement = Enhancement(
    brightnessRange: Range, contrastRange: Range, saturationRange: Range, sharpnessRange: Range,
    modes: seq<string>,
    brightness: real, contrast: real, saturation: real, sharpness: real)

  predicate InRange(r: Range, x: real) { r.lo <= x <= r.hi }

  function EnhancementSettings(): (e: Enhancement)
    ensures InRange(e.brightnessRange, e.brightness) && InRange(e.contrastRange, e.contrast)
    ensures InRange(e.saturationRange, e.saturation) && InRange(e.sharpnessRange, e.sharpness)
    ensures |e.modes| == 4
  {
    Enhancement(Range(-1.0, 1.0), Range(0.1, 3.0), Range(0.1, 3.0), Range(0.1, 3.0),
                ["bright", "dark", "low_light", "high_contrast"],
                0.1, 1.2, 1.1, 1.3)
  }

  class CameraModule {
    const cameraType: Option<CameraType>
    var isInitialized: bool
    var captureCount: nat
    var lastCaptureTime: real
    var jpegQuality: int
    var brightnessAdjust: int
    var contrastAdjust: real
    var saturationAdjust: real
    ghost var sleeps: seq<real>

    /** The adjustable settings stay inside their documented ranges. */
    ghost predicate Valid()
      reads this
    {
      && -100 <= brightnessAdjust <= 100
      && 0.5 <= contrastAdjust <= 2.0
      && 0.0 <= saturationAdjust <= 2.0
      && 1 <= jpegQuality <= 100
    }

    constructor (cameraType: Option<CameraType>)
      ensures Valid()
      ensures this.cameraType == cameraType && !isInitialized && captureCount == 0
      ensures lastCaptureTime == 0.0 && jpegQuality == 95 && brightnessAdjust == 0
      ensures contrastAdjust == 1.0 && saturationAdjust == 1.0 && sleeps == []
    {
      this.cameraType := cameraType;
      isInitialized := false;
      captureCount := 0;
      lastCaptureTime := 0.0;
      jpegQuality := 95;
      brightnessAdjust := 0;
      contrastAdjust := 1.0;
      saturationAdjust := 1.0;
      sleeps := [];
    }

    /**
     * set_camera_settings(): each given value is clamped to its range and
     * stored; a missing argument leaves its field alone.
     */
    method SetCameraSettings(brightness: Option<int>, contrast: Option<real>,
                             saturation: Option<real>, quality: Option<int>)
      modifies this
      ensures Valid() <== old(Valid())
      ensures brightness.Some? ==> brightnessAdjust == ClampInt(-100, 100, brightness.value)
      ensures brightness.None? ==> brightnessAdjust == old(brightnessAdjust)
      ensures contrast.Some? ==> contrastAdjust == ClampReal(0.5, 2.0, contrast.value)
      ensures contrast.None? ==> contrastAdjust == old(contrastAdjust)
      ensures saturation.Some? ==> saturationAdjust == ClampReal(0.0, 2.0, saturation.value)
      ensures saturation.None? ==> saturationAdjust == old(saturationAdjust)
      ensures quality.Some? ==> jpegQuality == ClampInt(1, 100, quality.value)
      ensures quality.None? ==> jpegQuality == old(jpegQuality)
      ensures isInitialized == old(isInitialized) && captureCount == old(captureCount)
      ensures lastCaptureTime == old(lastCaptureTime) && sleeps == old(sleeps)
    {
      if brightness.Some? {
        brightnessAdjust := ClampInt(-100, 100, brightness.value);
      }
      if contrast.Some? {
        contrastAdjust := ClampReal(0.5, 2.0, contrast.value);
      }
      if saturation.Some? {
        saturationAdjust := ClampReal(0.0, 2.0, saturation.value);
      }
      if quality.Some? {
        jpegQuality := ClampInt(1, 100, quality.value);
      }
    }

    /**
     * capture_image(): nothing on an uninitialised camera; otherwise the
     * counter rises by one whatever happens next. The capture duration is
     * stored unless the camera type is unknown or the OpenCV path raised:
     * the picamera2 path catches its own exceptions and returns no image, so
     * its duration is stored even then.
     */
    method CaptureImage(outcome: CaptureOutcome, elapsed: real) returns (image: Option<seq<byte>>)
      modifies this
      ensures image == (if old(isInitialized) then CaptureResult(cameraType, outcome) else None)
      ensures captureCount == old(captureCount) + (if old(isInitialized) then 1 else 0)
      ensures lastCaptureTime ==
        (if old(isInitialized) && StoresTime(cameraType, outcome) then elapsed else old(lastCaptureTime))
      ensures isInitialized == old(isInitialized) && sleeps == old(sleeps)
      ensures brightnessAdjust == old(brightnessAdjust) && contrastAdjust == old(contrastAdjust)
      ensures saturationAdjust == old(saturationAdjust) && jpegQuality == old(jpegQuality)
    {
      if !isInitialized {
        return None;
      }
      captureCount := captureCount + 1;
      if cameraType.None? {
        return None;
      }
      if outcome.Raised? && cameraType == Some(OpenCv) {
        return None;
      }
      image := CaptureResult(cameraType, outcome);
      lastCaptureTime := elapsed;
    }

    /**
     * capture_burst(count, delay): [] on an uninitialised camera; otherwise
     * `count` captures, keeping the truthy results in order, with a pause
     * between consecutive captures but not after the last.
     */
    method CaptureBurst(count: nat, delay: real, outcomes: seq<CaptureOutcome>, durations: seq<real>)
      returns (images: seq<seq<byte>>)
      requires |outcomes| == count && |durations| == count
      modifies this
      ensures !old(isInitialized) ==> images == [] && unchanged(this)
      ensures old(isInitialized) ==> images == Kept(cameraType, outcomes)
      ensures old(isInitialized) ==> captureCount == old(captureCount) + count
      ensures old(isInitialized) ==> lastCaptureTime == TimeAfter(cameraType, outcomes, durations, old(lastCaptureTime))
      ensures old(isInitialized) ==> sleeps == old(sleeps) + seq(if count == 0 then 0 else count - 1, _ => delay)
      ensures isInitialized == old(isInitialized)
      ensures brightnessAdjust == old(brightnessAdjust) && contrastAdjust == old(contrastAdjust)
      ensures saturationAdjust == old(saturationAdjust) && jpegQuality == old(jpegQuality)
    {
      if !isInitialized {
        return [];
      }
      images := [];
      var i := 0;
      while i < count
        invariant 0 <= i <= count
        invariant images == Kept(cameraType, outcomes[..i])
        invariant captureCount == old(captureCount) + i
        invariant lastCaptureTime == TimeAfter(cameraType, outcomes[..i], durations[..i], old(lastCaptureTime))
        invariant sleeps == old(sleeps) + seq(if i == count && count > 0 then i - 1 else i, _ => delay)
        invariant isInitialized
        invariant brightnessAdjust == old(brightnessAdjust) && contrastAdjust == old(contrastAdjust)
        invariant saturationAdjust == old(saturationAdjust) && jpegQuality == old(jpegQuality)
      {
        var image := CaptureImage(outcomes[i], durations[i]);
        assert outcomes[..i + 1][..i] == outcomes[..i];
        TimeAfterStep(cameraType, outcomes, durations, old(lastCaptureTime), i);
        if image.Some? && image.value != [] {
          images := images + [image.value];
        }
        if i < count - 1 {
          assert seq(i + 1, _ => delay) == seq(i, _ => delay) + [delay];
          sleeps := sleeps + [delay];
        }
        i := i + 1;
      }
      assert outcomes[..count] == outcomes && durations[..count] == durations;
    }

    /**
     * _perform_auto_calibration_safe(): three test shots; with none
     * successful the settings stay; otherwise the averages of the shots'
     * mean and standard deviation drive the brightness and contrast rules.
     */
    method Calibrate(shots: seq<Option<ShotStats>>)
      requires |shots| == CALIBRATION_SHOTS
      requires Valid()
      modifies this
      ensures Valid()
      ensures var ok := Successful(shots);
        && (ok == [] ==> brightnessAdjust == old(brightnessAdjust) && contrastAdjust == old(contrastAdjust))
        && (ok != [] ==>
              brightnessAdjust == CalibratedBrightness(old(brightnessAdjust), Sum(Means(ok)) / |ok| as real)
              && contrastAdjust == CalibratedContrast(old(contrastAdjust), Sum(Stds(ok)) / |ok| as real))
      ensures saturationAdjust == old(saturationAdjust) && jpegQuality == old(jpegQuality)
      ensures sleeps == old(sleeps) + seq(CALIBRATION_SHOTS, _ => CALIBRATION_PAUSE)
      ensures isInitialized == old(isInitialized) && captureCount == old(captureCount)
      ensures lastCaptureTime == old(lastCaptureTime)
    {
      var tests := TestShots(shots);
      if tests == [] {
        return;
      }
      var avgBrightness := Sum(Means(tests)) / |tests| as real;
      var avgContrast := Sum(Stds(tests)) / |tests| as real;
      if avgBrightness < 80.0 {
        brightnessAdjust := 10;
      } else if avgBrightness > 200.0 {
        brightnessAdjust := -10;
      }
      if avgContrast < 30.0 {
        contrastAdjust := 1.2;
      }
    }

    /** The calibration test shots: a pause before each, keeping the statistics of those that succeed. */
    method TestShots(shots: seq<Option<ShotStats>>) returns (tests: seq<ShotStats>)
      modifies this
      ensures tests == Successful(shots)
      ensures sleeps == old(sleeps) + seq(|shots|, _ => CALIBRATION_PAUSE)
      ensures brightnessAdjust == old(brightnessAdjust) && contrastAdjust == old(contrastAdjust)
      ensures saturationAdjust == old(saturationAdjust) && jpegQuality == old(jpegQuality)
      ensures isInitialized == old(isInitialized) && captureCount == old(captureCount)
      ensures lastCaptureTime == old(lastCaptureTime)
    {
      tests := [];
      for i := 0 to |shots|
        invariant tests == Successful(shots[..i])
        invariant sleeps == old(sleeps) + seq(i, _ => CALIBRATION_PAUSE)
        invariant brightnessAdjust == old(brightnessAdjust) && contrastAdjust == old(contrastAdjust)
        invariant saturationAdjust == old(saturationAdjust) && jpegQuality == old(jpegQuality)
        invariant isInitialized == old(isInitialized) && captureCount == old(captureCount)
        invariant lastCaptureTime == old(lastCaptureTime)
      {
        assert seq(i + 1, _ => CALIBRATION_PAUSE) == seq(i, _ => CALIBRATION_PAUSE) + [CALIBRATION_PAUSE];
        sleeps := sleeps + [CALIBRATION_PAUSE];
        assert shots[..i + 1][..i] == shots[..i];
        if shots[i].Some? {
          tests := tests + [shots[i].value];
        }
      }
      assert shots[..|shots|] == shots;
    }

    /**
     * initialize(): fails without a camera library; otherwise succeeds exactly
     * when the device opens. The picamera2 path warms the camera up and runs
     * calibration first; the OpenCV path keeps the settings as they are.
     */
    method Initialize(deviceOk: bool, shots: seq<Option<ShotStats>>) returns (ok: bool)
      requires |shots| == CALIBRATION_SHOTS
      requires Valid()
      modifies this
      ensures Valid()
      ensures ok == (cameraType.Some? && deviceOk)
      ensures isInitialized == (old(isInitialized) || ok)
      ensures captureCount == old(captureCount) && lastCaptureTime == old(lastCaptureTime)
      ensures !ok ==> unchanged(this)
      ensures ok && cameraType == Some(PiCamera2) ==>
        sleeps == old(sleeps) + [CAMERA_WARMUP_TIME] + seq(CALIBRATION_SHOTS, _ => CALIBRATION_PAUSE)
      ensures ok && cameraType == Some(PiCamera2) ==>
        var tests := Successful(shots);
        && (tests == [] ==> brightnessAdjust == old(brightnessAdjust) && contrastAdjust == old(contrastAdjust))
        && (tests != [] ==>
              brightnessAdjust == CalibratedBrightness(old(brightnessAdjust), Sum(Means(tests)) / |tests| as real)
              && contrastAdjust == CalibratedContrast(old(contrastAdjust), Sum(Stds(tests)) / |tests| as real))
      ensures cameraType != Some(PiCamera2) ==>
        sleeps == old(sleeps) && brightnessAdjust == old(brightnessAdjust) && contrastAdjust == old(contrastAdjust)
      ensures saturationAdjust == old(saturationAdjust) && jpegQuality == old(jpegQuality)
    {
      if cameraType.None? {
        return false;
      }
      if !deviceOk {
        return false;
      }
      if cameraType == Some(PiCamera2) {
        sleeps := sleeps + [CAMERA_WARMUP_TIME];
        Calibrate(shots);
      }
      isInitialized := true;
      ok := true;
    }

    /**
     * preview_mode(): refused on an uninitialised camera; otherwise reports
     * whether the preview ran. A picamera2 preview that starts sleeps for
     * `duration` (`previewOk` false stands for a preview that fails to
     * start); the OpenCV preview polls frames instead of sleeping.
     */
    method PreviewMode(duration: real, previewOk: bool) returns (ok: bool)
      modifies this
      ensures ok == (old(isInitialized) && previewOk)
      ensures !old(isInitialized) ==> unchanged(this)
      ensures old(isInitialized) ==>
        sleeps == old(sleeps) + (if cameraType == Some(PiCamera2) && previewOk then [duration] else [])
      ensures lastCaptureTime == old(lastCaptureTime)
      ensures isInitialized == old(isInitialized) && captureCount == old(captureCount)
      ensures brightnessAdjust == old(brightnessAdjust) && contrastAdjust == old(contrastAdjust)
      ensures saturationAdjust == old(saturationAdjust) && jpegQuality == old(jpegQuality)
    {
      if !isInitialized {
        return false;
      }
      if cameraType == Some(PiCamera2) && previewOk {
        sleeps := sleeps + [duration];
      }
      ok := previewOk;
    }

    /** get_camera_stats(): the current fields, verbatim; the settings are in range on a valid camera. */
    function GetCameraStats(): (s: CameraStats)
      reads this
      ensures s.captureCount == captureCount && s.isInitialized == isInitialized
      ensures s.cameraType == cameraType && s.lastCaptureTime == lastCaptureTime
      ensures s.brightness == brightnessAdjust && s.contrast == contrastAdjust
      ensures s.saturation == saturationAdjust && s.quality == jpegQuality
      ensures Valid() ==> -100 <= s.brightness <= 100 && 1 <= s.quality <= 100
    {
      CameraStats(cameraType, captureCount, lastCaptureTime, isInitialized,
                  brightnessAdjust, contrastAdjust, saturationAdjust, jpegQuality)
    }

    /** cleanup(): the camera is released and must be initialised again before use. */
    method Cleanup()
      modifies this
      ensures !isInitialized && captureCount == old(captureCount)
      ensures brightnessAdjust == old(brightnessAdjust) && contrastAdjust == old(contrastAdjust)
      ensures saturationAdjust == old(saturationAdjust) && jpegQuality == old(jpegQuality)
      ensures sleeps == old(sleeps) && lastCaptureTime == old(lastCaptureTime)
    {
      isInitialized := false;
    }
  }
}
