/**
 * The MMALCamera controller of the Raspberry Pi camera driver: construction,
 * sensor discovery, capture-port format, the exposure-parameter batch, capture,
 * abort and teardown, over the abstract MMAL device of module Mmal.
 *
 * A thrown MMALException becomes a `Failed` outcome (or an `Err` result) that
 * ends the current operation. Every straight run of "call, throw if it failed"
 * in the source is specified by `Run` over a plan of steps; each method is
 * proved to leave the trace, the device state and its outcome exactly as the
 * plan's `Run` says.
 */
module MmalCamera {
  import opened Mmal
  import CString

  /** The reasons the controller throws. */
  datatype Error =
    | CouldNotSelectCamera | NoOutputPorts | CouldNotSetSensorMode | CouldNotEnableControlPort
    | FailedToGetCameraParameters | CameraNumberNotFound
    | FailedToSetCameraConfig | CapturePortFormatNotSet | FailedToGetFpsRange
    | FailedToDisableCapturePort | FailedToDisableControlPort
    | ComponentNotEnabled | FailedToStartCapture | FailedToAbortCapture | ComponentNotDisabled
    | FailedToSetAwbMode | FailedToSetSaturation | FailedToSetDigitalGain | FailedToSetIso
    | FailedToSetBrightness | FailedToSetExposureMode | FailedToSetRoi | FailedToSetZeroCopy
    | FailedToSetRawCapture | FailedToSetStatsPass | FailedToSetShutterSpeed
    | FailedToGetShutterSpeed | FailedToSetFpsRange | FailedToSetAnalogGain

  datatype Outcome = Done | Failed(error: Error)

  datatype Result<T> = Ok(value: T) | Err(error: Error)

  /** A library call and the error thrown when it fails. */
  datatype Step = Step(call: Call, failure: Error)

  /** What running a plan did: the calls issued, the resulting device state, the outcome. */
  datatype Ran = Ran(calls: seq<Call>, final: DevState, outcome: Outcome)

  function Prepend(calls: seq<Call>, r: Ran): Ran {
    r.(calls := calls + r.calls)
  }

  /** Every reply in positions at .. at + n - 1 is a success. */
  predicate AllOk(oracle: seq<Reply>, at: nat, n: nat) {
    forall i :: at <= i < at + n ==> ReplyAt(oracle, i).ok
  }

  // ---------------------------------------------------------------------------
  // Fail-fast execution of a plan
  // ---------------------------------------------------------------------------

  /**
   * Issues the plan's calls in order, the i-th answered by the oracle's reply at
   * position at + i, and stops at the first failing call with that step's error.
   */
  function Run(plan: seq<Step>, oracle: seq<Reply>, at: nat, s: DevState): (r: Ran)
    ensures |r.calls| <= |plan|
    decreases |plan|
  {
    if plan == [] then Ran([], s, Done)
    else if !ReplyAt(oracle, at).ok then Ran([plan[0].call], s, Failed(plan[0].failure))
    else Prepend([plan[0].call], Run(plan[1..], oracle, at + 1, Apply(s, plan[0].call)))
  }

  /**
   * The calls of r are a prefix of the plan's; r succeeded exactly when every
   * reply for the plan is a success, and then issued the whole plan; otherwise
   * its last call is the first one that failed, and it ended with that step's
   * error.
   */
  ghost predicate StopsAtFirstFailure(r: Ran, plan: seq<Step>, oracle: seq<Reply>, at: nat) {
    |r.calls| <= |plan| &&
    (forall i :: 0 <= i < |r.calls| ==> r.calls[i] == plan[i].call) &&
    (r.outcome.Done? <==> AllOk(oracle, at, |plan|)) &&
    (r.outcome.Done? ==> |r.calls| == |plan|) &&
    (r.outcome.Failed? ==>
      0 < |r.calls| && AllOk(oracle, at, |r.calls| - 1) && !ReplyAt(oracle, at + |r.calls| - 1).ok &&
      r.outcome.error == plan[|r.calls| - 1].failure)
  }

  /** Every run of a plan stops at its first failure. */
  lemma {:induction false} RunShape(plan: seq<Step>, oracle: seq<Reply>, at: nat, s: DevState)
    ensures StopsAtFirstFailure(Run(plan, oracle, at, s), plan, oracle, at)
    decreases |plan|
  {
    if plan != [] && ReplyAt(oracle, at).ok {
      RunShape(plan[1..], oracle, at + 1, Apply(s, plan[0].call));
      var r := Run(plan, oracle, at, s);
      var tail := Run(plan[1..], oracle, at + 1, Apply(s, plan[0].call));
      assert r.calls == [plan[0].call] + tail.calls;
      forall i | 0 <= i < |r.calls|
        ensures r.calls[i] == plan[i].call
      {
        if i > 0 {
          assert r.calls[i] == tail.calls[i - 1];
        }
      }
      assert AllOk(oracle, at, |plan|) <==> AllOk(oracle, at + 1, |plan| - 1);
    }
  }

  /** Runs a plan after what has run so far, unless that already failed. */
  function Then(first: Ran, plan: seq<Step>, oracle: seq<Reply>, at: nat): Ran {
    if first.outcome.Failed? then first
    else Prepend(first.calls, Run(plan, oracle, at + |first.calls|, first.final))
  }

  /** Running two plans back to back is running the first, then the second if the first succeeded. */
  lemma {:induction false} RunAppend(a: seq<Step>, b: seq<Step>, oracle: seq<Reply>, at: nat, s: DevState)
    ensures Run(a + b, oracle, at, s) == Then(Run(a, oracle, at, s), b, oracle, at)
    decreases |a|
  {
    if a == [] {
      assert a + b == b;
      assert [] + Run(b, oracle, at, s).calls == Run(b, oracle, at, s).calls;
    } else if ReplyAt(oracle, at).ok {
      assert (a + b)[0] == a[0];
      assert (a + b)[1..] == a[1..] + b;
      RunAppend(a[1..], b, oracle, at + 1, Apply(s, a[0].call));
      var rest := Run(a[1..], oracle, at + 1, Apply(s, a[0].call));
      if rest.outcome.Done? {
        var tail := Run(b, oracle, at + 1 + |rest.calls|, rest.final);
        assert [a[0].call] + (rest.calls + tail.calls) == ([a[0].call] + rest.calls) + tail.calls;
      }
    } else {
      assert (a + b)[0] == a[0];
    }
  }

  /** Continuing a successful run with a plan issues the plan's run after the calls made so far. */
  lemma ThenContinues(t0: seq<Call>, prev: Ran, plan: seq<Step>, oracle: seq<Reply>)
    requires prev.outcome == Done
    ensures var ran := Run(plan, oracle, |t0| + |prev.calls|, prev.final);
      Then(prev, plan, oracle, |t0|) == Prepend(prev.calls, ran) &&
      t0 + Then(prev, plan, oracle, |t0|).calls == (t0 + prev.calls) + ran.calls
  {
    var ran := Run(plan, oracle, |t0| + |prev.calls|, prev.final);
    assert t0 + (prev.calls + ran.calls) == (t0 + prev.calls) + ran.calls;
  }
  /** A plan of one step. */
  lemma RunSingle(st: Step, oracle: seq<Reply>, at: nat, s: DevState)
    ensures Run([st], oracle, at, s) ==
      if ReplyAt(oracle, at).ok then Ran([st.call], Apply(s, st.call), Done) else Ran([st.call], s, Failed(st.failure))
  {
    assert [st][1..] == [];
  }

  /** A plan of two steps. */
  lemma RunTwo(a: Step, b: Step, oracle: seq<Reply>, at: nat, s: DevState)
    ensures Run([a, b], oracle, at, s) ==
      if !ReplyAt(oracle, at).ok then Ran([a.call], s, Failed(a.failure))
      else if !ReplyAt(oracle, at + 1).ok then Ran([a.call, b.call], Apply(s, a.call), Failed(b.failure))
      else Ran([a.call, b.call], Apply(Apply(s, a.call), b.call), Done)
  {
    assert [a, b][1..] == [b];
    RunSingle(b, oracle, at + 1, Apply(s, a.call));
  }

  /** Read-back values never steer a plan: only the statuses of the replies decide what is issued. */
  lemma {:induction false} RunDependsOnlyOnStatus(plan: seq<Step>, o1: seq<Reply>, o2: seq<Reply>, at: nat, s: DevState)
    requires forall i :: at <= i < at + |plan| ==> ReplyAt(o1, i).ok == ReplyAt(o2, i).ok
    ensures Run(plan, o1, at, s) == Run(plan, o2, at, s)
    decreases |plan|
  {
    if plan != [] && ReplyAt(o1, at).ok {
      RunDependsOnlyOnStatus(plan[1..], o1, o2, at + 1, Apply(s, plan[0].call));
    }
  }

  predicate Writes(c: Call, k: Key) {
    c.SetParam? && Key(c.port, c.param.Id()) == k
  }

  /** A plan made of parameter writes and reads only. */
  predicate ParameterCallsOnly(plan: seq<Step>) {
    forall i :: 0 <= i < |plan| ==> plan[i].call.SetParam? || plan[i].call.GetParam?
  }

  lemma ParameterCallsOnlyAppend(a: seq<Step>, b: seq<Step>)
    requires ParameterCallsOnly(a) && ParameterCallsOnly(b)
    ensures ParameterCallsOnly(a + b)
  {
    forall i | 0 <= i < |a + b|
      ensures (a + b)[i].call.SetParam? || (a + b)[i].call.GetParam?
    {
      if i >= |a| {
        assert (a + b)[i] == b[i - |a|];
      }
    }
  }

  /** A plan of parameter calls leaves the enable flags, the info component and the committed formats as they were. */
  lemma {:induction false} RunKeepsFlags(plan: seq<Step>, oracle: seq<Reply>, at: nat, s: DevState)
    requires ParameterCallsOnly(plan)
    ensures var f := Run(plan, oracle, at, s).final; f == s.(store := f.store)
    decreases |plan|
  {
    if plan != [] && ReplyAt(oracle, at).ok {
      assert plan[0].call.SetParam? || plan[0].call.GetParam?;
      RunKeepsFlags(plan[1..], oracle, at + 1, Apply(s, plan[0].call));
    }
  }

  /** After a successful plan, a parameter holds the value of the plan's last write to it. */
  lemma {:induction false} RunStoresLastWrite(plan: seq<Step>, oracle: seq<Reply>, at: nat, s: DevState, i: nat)
    requires i < |plan| && plan[i].call.SetParam?
    requires forall j :: i < j < |plan| ==> !Writes(plan[j].call, Key(plan[i].call.port, plan[i].call.param.Id()))
    requires AllOk(oracle, at, |plan|)
    ensures var k, f := Key(plan[i].call.port, plan[i].call.param.Id()), Run(plan, oracle, at, s).final;
      k in f.store && f.store[k] == plan[i].call.param
    decreases |plan|
  {
    var k := Key(plan[i].call.port, plan[i].call.param.Id());
    var s1 := Apply(s, plan[0].call);
    if i == 0 {
      assert s1.store[k] == plan[0].call.param;
      RunKeepsUnwritten(plan[1..], oracle, at + 1, s1, k);
    } else {
      RunStoresLastWrite(plan[1..], oracle, at + 1, s1, i - 1);
    }
  }

  /** A call that does not write a parameter leaves it as it was. */
  lemma ApplyKeepsUnwritten(s: DevState, c: Call, k: Key)
    requires !Writes(c, k) && k in s.store
    ensures k in Apply(s, c).store && Apply(s, c).store[k] == s.store[k]
  {
    if c.SetParam? {
      assert Apply(s, c).store == s.store[Key(c.port, c.param.Id()) := c.param];
    } else {
      assert Apply(s, c).store == s.store;
    }
  }

  /** A parameter no later step writes keeps its value (any plan, any outcome). */
  lemma {:induction false} RunKeepsUnwritten(plan: seq<Step>, oracle: seq<Reply>, at: nat, s: DevState, k: Key)
    requires forall j :: 0 <= j < |plan| ==> !Writes(plan[j].call, k)
    requires k in s.store
    ensures var f := Run(plan, oracle, at, s).final; k in f.store && f.store[k] == s.store[k]
    decreases |plan|
  {
    if plan != [] && ReplyAt(oracle, at).ok {
      ApplyKeepsUnwritten(s, plan[0].call, k);
      RunKeepsUnwritten(plan[1..], oracle, at + 1, Apply(s, plan[0].call), k);
    }
  }

  // ---------------------------------------------------------------------------
  // Frame-rate range and the shutter-speed read-back check
  // ---------------------------------------------------------------------------

  const ShortExposureLimit: uint32 := 1_000_000
  const LongExposureLimit: uint32 := 6_000_000

  /**
   * The frame-rate range the parameter batch requests for a shutter speed (in
   * microseconds): two fixed ranges for exposures over one and over six
   * seconds, and otherwise the range the constructor read from the capture port.
   */
  function FrameRateRange(shutter: uint32, cached: FpsRange): (r: FpsRange)
    ensures LongExposureLimit < shutter ==> r == FpsRange(Rational(5, 1000), Rational(166, 1000))
    ensures ShortExposureLimit < shutter <= LongExposureLimit ==> r == FpsRange(Rational(167, 1000), Rational(999, 1000))
    ensures shutter <= ShortExposureLimit ==> r == cached
  {
    if shutter > LongExposureLimit then FpsRange(Rational(5, 1000), Rational(166, 1000))
    else if shutter > ShortExposureLimit then FpsRange(Rational(167, 1000), Rational(999, 1000))
    else cached
  }

  /** a < b for rationals with positive denominators. */
  predicate RatLess(a: Rational, b: Rational)
    requires a.den > 0 && b.den > 0
  {
    a.num * b.den < b.num * a.den
  }

  /**
   * For exposures over one second the requested range is a proper range below
   * one frame per second, and a longer exposure never gets a faster range.
   */
  lemma FixedRangesSlowDownWithExposure(s1: uint32, s2: uint32, cached: FpsRange)
    requires ShortExposureLimit < s1 <= s2
    ensures var r1, r2 := FrameRateRange(s1, cached), FrameRateRange(s2, cached);
      r1.low.den > 0 && r1.high.den > 0 && r2.low.den > 0 && r2.high.den > 0 &&
      RatLess(r1.low, r1.high) && RatLess(r1.high, Rational(1, 1)) &&
      !RatLess(r1.high, r2.high) && !RatLess(r1.low, r2.low)
  {
  }

  const ShutterTolerance: int := 100_000

  function Distance(a: int, b: int): nat {
    if a <= b then b - a else a - b
  }

  /** The read-back check, as intended: the actual speed lies more than the tolerance away from the requested one. */
  function OutOfTolerance(requested: uint32, actual: uint32): (r: bool)
    ensures r <==> Distance(requested, actual) > ShutterTolerance
  {
    actual < requested - ShutterTolerance || actual > requested + ShutterTolerance
  }

  /** The read-back check as written, with both bounds computed in 32-bit unsigned arithmetic. */
  function OutOfToleranceAsWritten(requested: uint32, actual: uint32): bool {
    actual < (requested - ShutterTolerance) % 0x1_0000_0000 ||
    actual > (requested + ShutterTolerance) % 0x1_0000_0000
  }

  /** Away from the wrap-around the check as written is the intended one. */
  lemma AsWrittenAgreesAwayFromWrap(requested: uint32, actual: uint32)
    requires ShutterTolerance <= requested < 0x1_0000_0000 - ShutterTolerance
    ensures OutOfToleranceAsWritten(requested, actual) == OutOfTolerance(requested, actual)
  {
  }

  /**
   * Below 100000 microseconds the lower bound wraps to nearly 2^32, so every
   * read-back within tolerance is still reported as a mismatch.
   */
  lemma AsWrittenWarnsForEveryShortExposure(requested: uint32, actual: uint32)
    requires requested < ShutterTolerance
    requires !OutOfTolerance(requested, actual)
    ensures OutOfToleranceAsWritten(requested, actual)
  {
  }

  /** A 10000 microsecond exposure read back exactly. */
  lemma AsWrittenExactReadBackWarns()
    ensures OutOfToleranceAsWritten(10_000, 10_000) && !OutOfTolerance(10_000, 10_000)
  {
  }

  // ---------------------------------------------------------------------------
  // Plans
  // ---------------------------------------------------------------------------

  /** capture(): enable the component, then request CAPTURE = 1 on the capture port. */
  function CapturePlan(): seq<Step> {
    [ Step(EnableComponent, ComponentNotEnabled),
      Step(SetParam(CapturePort, CaptureParam(true)), FailedToStartCapture) ]
  }

  /** abort(): request CAPTURE = 0 on the capture port, then disable the component. */
  function AbortPlan(): seq<Step> {
    [ Step(SetParam(CapturePort, CaptureParam(false)), FailedToAbortCapture),
      Step(DisableComponent, ComponentNotDisabled) ]
  }

  /** The destructor: disable each of the capture and control ports that is enabled, capture port first. */
  function TeardownPlan(captureEnabled: bool, controlEnabled: bool): seq<Step> {
    (if captureEnabled then [Step(DisablePort(CapturePort), FailedToDisableCapturePort)] else []) +
    (if controlEnabled then [Step(DisablePort(ControlPort), FailedToDisableControlPort)] else [])
  }

  const CaptureKey: Key := Key(CapturePort, CaptureId)

  /**
   * capture() enables the component and then requests a capture; when the
   * component cannot be enabled the request is never issued.
   */
  lemma CaptureEffect(oracle: seq<Reply>, at: nat, s: DevState)
    ensures var r := Run(CapturePlan(), oracle, at, s);
      (!ReplyAt(oracle, at).ok ==> r == Ran([EnableComponent], s, Failed(ComponentNotEnabled))) &&
      (r.outcome.Done? <==> ReplyAt(oracle, at).ok && ReplyAt(oracle, at + 1).ok) &&
      (r.outcome.Done? ==> r.final == s.(componentEnabled := true, store := s.store[CaptureKey := CaptureParam(true)]))
  {
    RunTwo(CapturePlan()[0], CapturePlan()[1], oracle, at, s);
  }

  /**
   * abort() requests the end of the capture and then disables the component;
   * when the request fails the component is left as it was, enabled or not.
   */
  lemma AbortEffect(oracle: seq<Reply>, at: nat, s: DevState)
    ensures var r := Run(AbortPlan(), oracle, at, s);
      (!ReplyAt(oracle, at).ok ==>
        r == Ran([SetParam(CapturePort, CaptureParam(false))], s, Failed(FailedToAbortCapture)) &&
        r.final.componentEnabled == s.componentEnabled) &&
      (r.outcome.Done? <==> ReplyAt(oracle, at).ok && ReplyAt(oracle, at + 1).ok) &&
      (r.outcome.Done? ==> r.final == s.(componentEnabled := false, store := s.store[CaptureKey := CaptureParam(false)]))
  {
    RunTwo(AbortPlan()[0], AbortPlan()[1], oracle, at, s);
  }

  /**
   * A successful capture followed by a successful abort leaves the device as
   * it was, except that the component is disabled and the capture request is 0.
   */
  lemma AbortUndoesCapture(oracle: seq<Reply>, at: nat, s: DevState)
    requires Run(CapturePlan(), oracle, at, s).outcome.Done?
    ensures var captured := Run(CapturePlan(), oracle, at, s);
      var aborted := Run(AbortPlan(), oracle, at + 2, captured.final);
      aborted.outcome.Done? ==>
        aborted.final == s.(componentEnabled := false, store := s.store[CaptureKey := CaptureParam(false)])
  {
    CaptureEffect(oracle, at, s);
    var captured := Run(CapturePlan(), oracle, at, s);
    AbortEffect(oracle, at + 2, captured.final);
    assert captured.final.store[CaptureKey := CaptureParam(false)] == s.store[CaptureKey := CaptureParam(false)];
  }

  /**
   * The destructor disables only ports that are enabled, the capture port
   * first, and the control port only once the capture port is disabled;
   * when it completes both ports are disabled and nothing else has changed.
   */
  lemma TeardownTouchesOnlyEnabledPorts(oracle: seq<Reply>, at: nat, s: DevState)
    ensures var r := Run(TeardownPlan(s.captureEnabled, s.controlEnabled), oracle, at, s);
      (DisablePort(CapturePort) in r.calls <==> s.captureEnabled) &&
      (DisablePort(ControlPort) in r.calls <==> s.controlEnabled && (s.captureEnabled ==> ReplyAt(oracle, at).ok)) &&
      (r.outcome.Done? ==> r.final == s.(captureEnabled := false, controlEnabled := false))
  {
    var capture := Step(DisablePort(CapturePort), FailedToDisableCapturePort);
    var control := Step(DisablePort(ControlPort), FailedToDisableControlPort);
    if s.captureEnabled && s.controlEnabled {
      assert TeardownPlan(true, true) == [capture, control];
      RunTwo(capture, control, oracle, at, s);
    } else if s.captureEnabled {
      assert TeardownPlan(true, false) == [capture];
      RunSingle(capture, oracle, at, s);
    } else if s.controlEnabled {
      assert TeardownPlan(false, true) == [control];
      RunSingle(control, oracle, at, s);
    } else {
      assert TeardownPlan(false, false) == [];
    }
  }

  /** The colour controls of the batch: automatic white balance, saturation, digital gain. */
  function ColourPlan(): seq<Step> {
    [ Step(SetParam(ControlPort, AwbModeParam(AwbAuto)), FailedToSetAwbMode),
      Step(SetParam(ControlPort, Saturation(Rational(10, 0))), FailedToSetSaturation),
      Step(SetParam(ControlPort, DigitalGain(Rational(1, 1))), FailedToSetDigitalGain) ]
  }

  /** The ISO write, present only in builds that set ISO. */
  function IsoPlan(useIso: bool, iso: uint32): seq<Step> {
    if useIso then [Step(SetParam(ControlPort, Iso(iso)), FailedToSetIso)] else []
  }

  /** Brightness, exposure mode off (manual exposure), and the full-sensor input crop. */
  function ExposureControlsPlan(): seq<Step> {
    [ Step(SetParam(ControlPort, Brightness(Rational(50, 100))), FailedToSetBrightness),
      Step(SetParam(ControlPort, ExposureModeParam(ExposureOff)), FailedToSetExposureMode),
      Step(SetParam(ControlPort, InputCrop(Rect(0, 0, 0x1000, 0x1000))), FailedToSetRoi) ]
  }

  /** Zero copy on the video port, raw capture on the capture port, one statistics pass. */
  function PortOptionsPlan(): seq<Step> {
    [ Step(SetParam(VideoPort, ZeroCopy(true)), FailedToSetZeroCopy),
      Step(SetParam(CapturePort, EnableRawCapture(true)), FailedToSetRawCapture),
      Step(SetParam(ControlPort, CaptureStatsPass(1)), FailedToSetStatsPass) ]
  }

  /** The shutter-speed write and its read back. */
  function ExposureTimePlan(shutter: uint32): seq<Step> {
    [ Step(SetParam(ControlPort, ShutterSpeed(shutter)), FailedToSetShutterSpeed),
      Step(GetParam(ControlPort, ShutterSpeedId, false), FailedToGetShutterSpeed) ]
  }

  /** The frame-rate range write on the capture port and its read back. */
  function FrameRatePlan(range: FpsRange): seq<Step> {
    [ Step(SetParam(CapturePort, FpsRangeParam(range)), FailedToSetFpsRange),
      Step(GetParam(CapturePort, FpsRangeId, false), FailedToGetFpsRange) ]
  }

  /** The analog gain, gain * 65536 over 65536. */
  function GainPlan(gainNumerator: int32): seq<Step> {
    [ Step(SetParam(ControlPort, AnalogGain(Rational(gainNumerator, 65536))), FailedToSetAnalogGain) ]
  }

  /** The writes before the capture buffer size is reset. */
  function ImageSettingsPlan(useIso: bool, iso: uint32): seq<Step> {
    ColourPlan() + IsoPlan(useIso, iso) + ExposureControlsPlan()
  }

  /** set_camera_parameters(): the whole ordered batch. */
  function BatchPlan(useIso: bool, iso: uint32, shutter: uint32, gainNumerator: int32, cached: FpsRange): seq<Step> {
    ColourPlan() + IsoPlan(useIso, iso) + ExposureControlsPlan() + PortOptionsPlan() +
    ExposureTimePlan(shutter) + FrameRatePlan(FrameRateRange(shutter, cached)) + GainPlan(gainNumerator)
  }

  /** Nothing issued yet, in device state s. */
  function Start(s: DevState): Ran {
    Ran([], s, Done)
  }

  /** The batch up to the buffer-size reset: colour controls, ISO, exposure controls. */
  function ImageSettingsRun(useIso: bool, iso: uint32, oracle: seq<Reply>, at: nat, s: DevState): Ran {
    var colour := Then(Start(s), ColourPlan(), oracle, at);
    Then(Then(colour, IsoPlan(useIso, iso), oracle, at), ExposureControlsPlan(), oracle, at)
  }

  /** The batch up to the port options. */
  function PortOptionsRun(useIso: bool, iso: uint32, oracle: seq<Reply>, at: nat, s: DevState): Ran {
    Then(ImageSettingsRun(useIso, iso, oracle, at, s), PortOptionsPlan(), oracle, at)
  }

  /** The batch up to the shutter-speed read back. */
  function ExposureTimeRun(useIso: bool, iso: uint32, shutter: uint32, oracle: seq<Reply>, at: nat, s: DevState): Ran {
    Then(PortOptionsRun(useIso, iso, oracle, at, s), ExposureTimePlan(shutter), oracle, at)
  }

  /** The batch up to the frame-rate range read back. */
  function FrameRateRun(useIso: bool, iso: uint32, shutter: uint32, cached: FpsRange,
                        oracle: seq<Reply>, at: nat, s: DevState): Ran {
    Then(ExposureTimeRun(useIso, iso, shutter, oracle, at, s), FrameRatePlan(FrameRateRange(shutter, cached)), oracle, at)
  }

  /** The batch section by section, each section running after the previous one unless that failed. */
  function Batch(useIso: bool, iso: uint32, shutter: uint32, gainNumerator: int32, cached: FpsRange,
                 oracle: seq<Reply>, at: nat, s: DevState): Ran
  {
    Then(FrameRateRun(useIso, iso, shutter, cached, oracle, at, s), GainPlan(gainNumerator), oracle, at)
  }

  /** Mismatches the batch reports (on the diagnostic stream) without failing. */
  datatype Warning =
    | ShutterSpeedMismatch(requestedSpeed: uint32, actualSpeed: uint32)
    | FpsRangeMismatch(requestedRange: FpsRange, actualRange: FpsRange)

  /**
   * The shutter warning of the exposure-time section run after `prev`: the
   * section's second call is the read back.
   */
  function ShutterWarning(shutter: uint32, prev: Ran, oracle: seq<Reply>, at: nat): seq<Warning> {
    var actual := ReplyAt(oracle, at + |prev.calls| + 1).word;
    if Then(prev, ExposureTimePlan(shutter), oracle, at).outcome.Done? && OutOfTolerance(shutter, actual)
    then [ShutterSpeedMismatch(shutter, actual)] else []
  }

  /** The range warning of the frame-rate section run after `prev`, whose second call is the read back. */
  function RangeWarning(range: FpsRange, prev: Ran, oracle: seq<Reply>, at: nat): seq<Warning> {
    var actual := ReplyAt(oracle, at + |prev.calls| + 1).fps;
    if Then(prev, FrameRatePlan(range), oracle, at).outcome.Done? && actual != range
    then [FpsRangeMismatch(range, actual)] else []
  }

  /** The warnings of the batch: one per read-back section that completed with a mismatch. */
  function BatchWarnings(useIso: bool, iso: uint32, shutter: uint32, cached: FpsRange,
                         oracle: seq<Reply>, at: nat, s: DevState): seq<Warning> {
    ShutterWarning(shutter, PortOptionsRun(useIso, iso, oracle, at, s), oracle, at) +
    RangeWarning(FrameRateRange(shutter, cached), ExposureTimeRun(useIso, iso, shutter, oracle, at, s), oracle, at)
  }

  /** The batch run section by section is the run of the whole plan. */
  lemma BatchRunsPlan(useIso: bool, iso: uint32, shutter: uint32, gainNumerator: int32, cached: FpsRange,
                      oracle: seq<Reply>, at: nat, s: DevState)
    ensures Batch(useIso, iso, shutter, gainNumerator, cached, oracle, at, s) ==
            Run(BatchPlan(useIso, iso, shutter, gainNumerator, cached), oracle, at, s)
  {
    var c, i, e, p := ColourPlan(), IsoPlan(useIso, iso), ExposureControlsPlan(), PortOptionsPlan();
    var x, f, g := ExposureTimePlan(shutter), FrameRatePlan(FrameRateRange(shutter, cached)), GainPlan(gainNumerator);
    assert [] + Run(c, oracle, at, s).calls == Run(c, oracle, at, s).calls;
    RunAppend(c, i, oracle, at, s);
    RunAppend(c + i, e, oracle, at, s);
    RunAppend(c + i + e, p, oracle, at, s);
    RunAppend(c + i + e + p, x, oracle, at, s);
    RunAppend(c + i + e + p + x, f, oracle, at, s);
    RunAppend(c + i + e + p + x + f, g, oracle, at, s);
  }

  /**
   * The batch issues the plan's calls in order and stops at the first failing
   * status: it succeeds exactly when every reply is a success, and otherwise
   * its last call is the one that failed, with that write's error.
   */
  lemma BatchStopsAtFirstFailure(useIso: bool, iso: uint32, shutter: uint32, gainNumerator: int32, cached: FpsRange,
                                 oracle: seq<Reply>, at: nat, s: DevState)
    ensures StopsAtFirstFailure(Batch(useIso, iso, shutter, gainNumerator, cached, oracle, at, s),
                                BatchPlan(useIso, iso, shutter, gainNumerator, cached), oracle, at)
  {
    BatchRunsPlan(useIso, iso, shutter, gainNumerator, cached, oracle, at, s);
    RunShape(BatchPlan(useIso, iso, shutter, gainNumerator, cached), oracle, at, s);
  }

  /**
   * The read-back values never steer the batch: two oracles that agree on
   * every status give the same calls, device state and outcome, whatever
   * shutter speed or frame-rate range they report.
   */
  lemma BatchIgnoresReadBacks(useIso: bool, iso: uint32, shutter: uint32, gainNumerator: int32, cached: FpsRange,
                              o1: seq<Reply>, o2: seq<Reply>, at: nat, s: DevState)
    requires forall i :: at <= i < at + |BatchPlan(useIso, iso, shutter, gainNumerator, cached)| ==>
      ReplyAt(o1, i).ok == ReplyAt(o2, i).ok
    ensures Batch(useIso, iso, shutter, gainNumerator, cached, o1, at, s) ==
            Batch(useIso, iso, shutter, gainNumerator, cached, o2, at, s)
  {
    BatchRunsPlan(useIso, iso, shutter, gainNumerator, cached, o1, at, s);
    BatchRunsPlan(useIso, iso, shutter, gainNumerator, cached, o2, at, s);
    RunDependsOnlyOnStatus(BatchPlan(useIso, iso, shutter, gainNumerator, cached), o1, o2, at, s);
  }

  /** The batch writes parameters only: the enable flags and the committed formats stay as they were. */
  lemma BatchChangesOnlyParameters(useIso: bool, iso: uint32, shutter: uint32, gainNumerator: int32, cached: FpsRange,
                                   oracle: seq<Reply>, at: nat, s: DevState)
    ensures var f := Batch(useIso, iso, shutter, gainNumerator, cached, oracle, at, s).final;
      f == s.(store := f.store)
  {
    var c, i, e, p := ColourPlan(), IsoPlan(useIso, iso), ExposureControlsPlan(), PortOptionsPlan();
    var x, f, g := ExposureTimePlan(shutter), FrameRatePlan(FrameRateRange(shutter, cached)), GainPlan(gainNumerator);
    ParameterCallsOnlyAppend(c, i);
    ParameterCallsOnlyAppend(c + i, e);
    ParameterCallsOnlyAppend(c + i + e, p);
    ParameterCallsOnlyAppend(c + i + e + p, x);
    ParameterCallsOnlyAppend(c + i + e + p + x, f);
    ParameterCallsOnlyAppend(c + i + e + p + x + f, g);
    BatchRunsPlan(useIso, iso, shutter, gainNumerator, cached, oracle, at, s);
    RunKeepsFlags(BatchPlan(useIso, iso, shutter, gainNumerator, cached), oracle, at, s);
  }

  /** RunStoresLastWrite for a write located in the tail of a plan. */
  lemma TailStoresLastWrite(pre: seq<Step>, tail: seq<Step>, j: nat, oracle: seq<Reply>, at: nat, s: DevState)
    requires j < |tail| && tail[j].call.SetParam?
    requires forall i :: j < i < |tail| ==> !Writes(tail[i].call, Key(tail[j].call.port, tail[j].call.param.Id()))
    requires AllOk(oracle, at, |pre + tail|)
    ensures var k, f := Key(tail[j].call.port, tail[j].call.param.Id()), Run(pre + tail, oracle, at, s).final;
      k in f.store && f.store[k] == tail[j].call.param
  {
    var plan := pre + tail;
    assert plan[|pre| + j] == tail[j];
    forall i | |pre| + j < i < |plan|
      ensures !Writes(plan[i].call, Key(tail[j].call.port, tail[j].call.param.Id()))
    {
      assert plan[i] == tail[i - |pre|];
    }
    RunStoresLastWrite(plan, oracle, at, s, |pre| + j);
  }

  /** The stores of the batch's capture settings after any successful prefix. */
  lemma CaptureSettingsStored(pre: seq<Step>, shutter: uint32, range: FpsRange, gainNumerator: int32,
                              oracle: seq<Reply>, at: nat, s: DevState)
    requires AllOk(oracle, at, |pre| + 5)
    ensures var store := Run(pre + ExposureTimePlan(shutter) + FrameRatePlan(range) + GainPlan(gainNumerator), oracle, at, s).final.store;
      var shutterKey, rangeKey, gainKey := Key(ControlPort, ShutterSpeedId), Key(CapturePort, FpsRangeId), Key(ControlPort, AnalogGainId);
      shutterKey in store && store[shutterKey] == ShutterSpeed(shutter) &&
      rangeKey in store && store[rangeKey] == FpsRangeParam(range) &&
      gainKey in store && store[gainKey] == AnalogGain(Rational(gainNumerator, 65536))
  {
    var x, f, g := ExposureTimePlan(shutter), FrameRatePlan(range), GainPlan(gainNumerator);
    var tail := [x[0], x[1], f[0], f[1], g[0]];
    assert pre + x + f + g == pre + tail by {
      assert x + f + g == tail;
      assert pre + x + f + g == pre + (x + f + g);
    }
    TailStoresLastWrite(pre, tail, 0, oracle, at, s);
    TailStoresLastWrite(pre, tail, 2, oracle, at, s);
    TailStoresLastWrite(pre, tail, 4, oracle, at, s);
  }

  /**
   * After a successful batch the control port holds the requested shutter
   * speed and the analog gain over 65536, and the capture port the frame-rate
   * range chosen for the shutter speed.
   */
  lemma BatchStoresRequested(useIso: bool, iso: uint32, shutter: uint32, gainNumerator: int32, cached: FpsRange,
                             oracle: seq<Reply>, at: nat, s: DevState)
    requires Batch(useIso, iso, shutter, gainNumerator, cached, oracle, at, s).outcome == Done
    ensures var store := Batch(useIso, iso, shutter, gainNumerator, cached, oracle, at, s).final.store;
      var shutterKey, rangeKey, gainKey := Key(ControlPort, ShutterSpeedId), Key(CapturePort, FpsRangeId), Key(ControlPort, AnalogGainId);
      shutterKey in store && store[shutterKey] == ShutterSpeed(shutter) &&
      rangeKey in store && store[rangeKey] == FpsRangeParam(FrameRateRange(shutter, cached)) &&
      gainKey in store && store[gainKey] == AnalogGain(Rational(gainNumerator, 65536))
  {
    var pre := ColourPlan() + IsoPlan(useIso, iso) + ExposureControlsPlan() + PortOptionsPlan();
    BatchStopsAtFirstFailure(useIso, iso, shutter, gainNumerator, cached, oracle, at, s);
    BatchRunsPlan(useIso, iso, shutter, gainNumerator, cached, oracle, at, s);
    CaptureSettingsStored(pre, shutter, FrameRateRange(shutter, cached), gainNumerator, oracle, at, s);
  }

  /** The batch ends at the first section that fails, with no warning from the sections it did not reach. */
  lemma BatchStops(useIso: bool, iso: uint32, shutter: uint32, gainNumerator: int32, cached: FpsRange,
                   oracle: seq<Reply>, at: nat, s: DevState)
    ensures var colour := Then(Start(s), ColourPlan(), oracle, at);
      colour.outcome.Failed? ==> ImageSettingsRun(useIso, iso, oracle, at, s) == colour
    ensures var withIso := Then(Then(Start(s), ColourPlan(), oracle, at), IsoPlan(useIso, iso), oracle, at);
      withIso.outcome.Failed? ==> ImageSettingsRun(useIso, iso, oracle, at, s) == withIso
    ensures var image := ImageSettingsRun(useIso, iso, oracle, at, s);
      image.outcome.Failed? ==>
        Batch(useIso, iso, shutter, gainNumerator, cached, oracle, at, s) == image &&
        BatchWarnings(useIso, iso, shutter, cached, oracle, at, s) == []
    ensures var ports := PortOptionsRun(useIso, iso, oracle, at, s);
      ports.outcome.Failed? ==>
        Batch(useIso, iso, shutter, gainNumerator, cached, oracle, at, s) == ports &&
        BatchWarnings(useIso, iso, shutter, cached, oracle, at, s) == []
    ensures var exposure := ExposureTimeRun(useIso, iso, shutter, oracle, at, s);
      exposure.outcome.Failed? ==>
        Batch(useIso, iso, shutter, gainNumerator, cached, oracle, at, s) == exposure &&
        BatchWarnings(useIso, iso, shutter, cached, oracle, at, s) == []
    ensures var rate := FrameRateRun(useIso, iso, shutter, cached, oracle, at, s);
      rate.outcome.Failed? ==>
        Batch(useIso, iso, shutter, gainNumerator, cached, oracle, at, s) == rate &&
        BatchWarnings(useIso, iso, shutter, cached, oracle, at, s) ==
          ShutterWarning(shutter, PortOptionsRun(useIso, iso, oracle, at, s), oracle, at)
  {
    var rate := FrameRateRun(useIso, iso, shutter, cached, oracle, at, s);
    if rate.outcome.Failed? {
      var warnings := ShutterWarning(shutter, PortOptionsRun(useIso, iso, oracle, at, s), oracle, at);
      assert warnings + [] == warnings;
    }
  }

  // ---------------------------------------------------------------------------
  // Sensor discovery, camera configuration, capture-port format
  // ---------------------------------------------------------------------------

  const DefaultWidth: uint32 := 2592
  const DefaultHeight: uint32 := 1944
  const DefaultName: seq<char> := "OV5647"

  datatype Sensor = Sensor(width: uint32, height: uint32, name: seq<char>)

  datatype Discovery = Discovery(calls: seq<Call>, final: DevState, result: Result<Sensor>)

  /**
   * get_sensor_info(): create the camera-info component (its status is not
   * looked at), probe the camera's control port with an undersized query; on
   * success keep the OV5647 defaults, otherwise read the full camera table from
   * the info component and take the entry of the selected camera. The info
   * component is destroyed on the two paths that do not throw.
   */
  function Discover(cameraNum: int32, nameSize: nat, oracle: seq<Reply>, at: nat, s: DevState): (d: Discovery)
    requires nameSize >= 1
  {
    var created := if ReplyAt(oracle, at).ok then Apply(s, CreateInfoComponent) else s;
    var probe := GetParam(ControlPort, CameraInfoId, true);
    if ReplyAt(oracle, at + 1).ok then
      var destroyed := if ReplyAt(oracle, at + 2).ok then Apply(created, DestroyInfoComponent) else created;
      Discovery([CreateInfoComponent, probe, DestroyInfoComponent], destroyed,
                Ok(Sensor(DefaultWidth, DefaultHeight, CString.StrNCpy(DefaultName, nameSize))))
    else
      var query := [CreateInfoComponent, probe, GetParam(InfoControlPort, CameraInfoId, false)];
      var full := ReplyAt(oracle, at + 2);
      if !full.ok then Discovery(query, created, Err(FailedToGetCameraParameters))
      else if full.info.numCameras <= ToUint32(cameraNum) then Discovery(query, created, Err(CameraNumberNotFound))
      else
        var entry := full.info.cameras[cameraNum];
        var destroyed := if ReplyAt(oracle, at + 3).ok then Apply(created, DestroyInfoComponent) else created;
        Discovery(query + [DestroyInfoComponent], destroyed,
                  Ok(Sensor(entry.maxWidth, entry.maxHeight, CString.BoundedCopy(entry.cameraName, nameSize))))
  }

  /**
   * What discovery reports: the defaults when the undersized probe succeeds;
   * otherwise the full query's failure, a camera index beyond the table, or the
   * selected entry with a terminated name; the info component is destroyed
   * exactly on the paths that report a sensor.
   */
  lemma DiscoverOutcomes(cameraNum: int32, nameSize: nat, oracle: seq<Reply>, at: nat, s: DevState)
    requires nameSize >= 1
    ensures var d := Discover(cameraNum, nameSize, oracle, at, s);
      (ReplyAt(oracle, at + 1).ok ==> d.result == Ok(Sensor(DefaultWidth, DefaultHeight, CString.StrNCpy(DefaultName, nameSize)))) &&
      (d.result == Err(FailedToGetCameraParameters) <==> !ReplyAt(oracle, at + 1).ok && !ReplyAt(oracle, at + 2).ok) &&
      (d.result == Err(CameraNumberNotFound) <==>
        !ReplyAt(oracle, at + 1).ok && ReplyAt(oracle, at + 2).ok &&
        ReplyAt(oracle, at + 2).info.numCameras <= ToUint32(cameraNum))
    ensures var d := Discover(cameraNum, nameSize, oracle, at, s);
      d.result.Ok? && !ReplyAt(oracle, at + 1).ok ==>
        var info := ReplyAt(oracle, at + 2).info;
        0 <= cameraNum < info.numCameras &&
        d.result.value.width == info.cameras[cameraNum].maxWidth &&
        d.result.value.height == info.cameras[cameraNum].maxHeight &&
        |d.result.value.name| == nameSize && d.result.value.name[nameSize - 1] == CString.NUL
    ensures var d := Discover(cameraNum, nameSize, oracle, at, s);
      (DestroyInfoComponent in d.calls <==> d.result.Ok?) &&
      |d.calls| == if d.result.Ok? && !ReplyAt(oracle, at + 1).ok then 4 else 3
  {
  }

  /**
   * A discovered name is always a terminated string of the buffer's size: the
   * camera table's name cut to nameSize - 1 characters, or the default name.
   */
  lemma DiscoveredNameIsTerminated(cameraNum: int32, nameSize: nat, oracle: seq<Reply>, at: nat, s: DevState)
    requires nameSize >= 1
    requires Discover(cameraNum, nameSize, oracle, at, s).result.Ok?
    ensures var name := Discover(cameraNum, nameSize, oracle, at, s).result.value.name;
      |name| == nameSize &&
      if ReplyAt(oracle, at + 1).ok then
        (nameSize > |DefaultName| ==> CString.Contents(name) == DefaultName)
      else
        var entry := ReplyAt(oracle, at + 2).info.cameras[cameraNum];
        CString.Length(name) < nameSize &&
        CString.Contents(name) == CString.Contents(entry.cameraName)[..CString.Min(CString.Length(entry.cameraName), nameSize - 1)]
  {
    if ReplyAt(oracle, at + 1).ok {
      CString.StrNCpyCopiesString(DefaultName, nameSize);
      CString.LengthIsFirstNul(DefaultName, |DefaultName|);
    } else {
      var entry := ReplyAt(oracle, at + 2).info.cameras[cameraNum];
      CString.BoundedCopyCopiesString(entry.cameraName, nameSize);
    }
  }

  /** MMAL_PARAMETER_CAMERA_CONFIG_T as the constructor fills it for a sensor of the given size. */
  function CameraConfigFor(width: uint32, height: uint32): CameraConfig {
    CameraConfig(
      maxStillsW := width, maxStillsH := height, stillsYuv422 := 0, oneShotStills := 1,
      maxPreviewVideoW := 1024, maxPreviewVideoH := 768, numPreviewVideoFrames := 1,
      stillsCaptureCircularBufferHeight := 0, fastPreviewResume := 0,
      useStcTimestamp := TimestampResetStc)
  }

  /** The capture-port format set_capture_port_format() commits for a frame of the given size. */
  function CaptureFormat(width: uint32, height: uint32): Format {
    Format(Opaque, 0, VideoFormat(width, height, Rect(0, 0, ToInt32(width), ToInt32(height)), Rational(0, 1), Rational(1, 1)))
  }

  /**
   * The crop of the capture format covers the whole frame from the origin when
   * the size fits a signed 32-bit value; a larger size is cast to a negative one.
   */
  lemma CaptureCropCoversFrame(width: uint32, height: uint32)
    ensures var crop := CaptureFormat(width, height).video.crop;
      crop.x == 0 && crop.y == 0 &&
      (width < 0x8000_0000 ==> crop.width == width) &&
      (0x8000_0000 <= width ==> crop.width == width - 0x1_0000_0000 < 0) &&
      (height < 0x8000_0000 ==> crop.height == height) &&
      (0x8000_0000 <= height ==> crop.height == height - 0x1_0000_0000 < 0)
  {
  }

  /** The camera configuration for the discovered size, then the capture format commit. */
  function ConfigPlan(width: uint32, height: uint32): seq<Step> {
    [ Step(SetParam(ControlPort, CameraConfigParam(CameraConfigFor(width, height))), FailedToSetCameraConfig),
      Step(CommitFormat(CapturePort, CaptureFormat(width, height)), CapturePortFormatNotSet) ]
  }

  /** The read of the capture port's frame-rate range that ends the constructor. */
  function RangePlan(): seq<Step> {
    [ Step(GetParam(CapturePort, FpsRangeId, false), FailedToGetFpsRange) ]
  }

  /** The plan after the camera selection: sensor mode 0, then enabling the control port. */
  function ControlSetupPlan(): seq<Step> {
    [ Step(SetParam(ControlPort, CustomSensorConfig(0)), CouldNotSetSensorMode),
      Step(EnablePort(ControlPort), CouldNotEnableControlPort) ]
  }

  function SelectPlan(cameraNum: int32): seq<Step> {
    [ Step(SetParam(ControlPort, CameraNum(cameraNum)), CouldNotSelectCamera) ]
  }

  /** The controller's own fields that construction writes. */
  datatype Fields = Fields(width: uint32, height: uint32, cameraName: seq<char>, fpsLow: Rational, fpsHigh: Rational, captureFormat: Format)

  /** What (part of) construction did: the calls issued, the device state, the controller's fields, the outcome. */
  datatype Construction = Construction(calls: seq<Call>, final: DevState, fields: Fields, outcome: Outcome)

  /** A stage of construction after the stages before it, unless one of those failed. */
  function After(prev: Construction, stage: Construction): Construction {
    if prev.outcome.Failed? then prev
    else Construction(prev.calls + stage.calls, stage.final, stage.fields, stage.outcome)
  }

  /** Selecting the camera, then insisting that the component has output ports. */
  function SelectStage(cameraNum: int32, outputNum: nat, oracle: seq<Reply>, at: nat, s: DevState, f: Fields): Construction {
    var select := Run(SelectPlan(cameraNum), oracle, at, s);
    var outcome := if select.outcome.Failed? then select.outcome else if outputNum == 0 then Failed(NoOutputPorts) else Done;
    Construction(select.calls, select.final, f, outcome)
  }

  /** Sensor mode 0, then enabling the control port. */
  function SetupStage(oracle: seq<Reply>, at: nat, s: DevState, f: Fields): Construction {
    var setup := Run(ControlSetupPlan(), oracle, at, s);
    Construction(setup.calls, setup.final, f, setup.outcome)
  }

  /** Sensor discovery; the name buffer holds the default name even when discovery fails. */
  function DiscoverStage(cameraNum: int32, nameSize: nat, oracle: seq<Reply>, at: nat, s: DevState, f: Fields): Construction
    requires nameSize >= 1
  {
    var d := Discover(cameraNum, nameSize, oracle, at, s);
    match d.result
    case Err(e) => Construction(d.calls, d.final, f.(cameraName := CString.StrNCpy(DefaultName, nameSize)), Failed(e))
    case Ok(sensor) => Construction(d.calls, d.final, f.(width := sensor.width, height := sensor.height, cameraName := sensor.name), Done)
  }

  /**
   * The camera configuration and the capture format for the discovered size;
   * once the configuration is accepted the format record is edited, even when
   * its commit then fails.
   */
  function ConfigStage(oracle: seq<Reply>, at: nat, s: DevState, f: Fields): Construction {
    var config := Run(ConfigPlan(f.width, f.height), oracle, at, s);
    var formatted := if ReplyAt(oracle, at).ok then f.(captureFormat := CaptureFormat(f.width, f.height)) else f;
    Construction(config.calls, config.final, formatted, config.outcome)
  }

  /** The capture port's frame-rate range, cached only when it was read. */
  function RangeStage(oracle: seq<Reply>, at: nat, s: DevState, f: Fields): Construction {
    var read := Run(RangePlan(), oracle, at, s);
    var range := ReplyAt(oracle, at).fps;
    var cached := if read.outcome.Done? then f.(fpsLow := range.low, fpsHigh := range.high) else f;
    Construction(read.calls, read.final, cached, read.outcome)
  }

  /** Continuing a construction that has not failed appends the stage's calls to those made so far. */
  lemma AfterContinues(t0: seq<Call>, prev: Construction, stage: Construction)
    requires prev.outcome == Done
    ensures After(prev, stage) == Construction(prev.calls + stage.calls, stage.final, stage.fields, stage.outcome)
    ensures t0 + After(prev, stage).calls == (t0 + prev.calls) + stage.calls
  {
    assert t0 + (prev.calls + stage.calls) == (t0 + prev.calls) + stage.calls;
  }

  /**
   * The constructor body: select the camera, insist on output ports, set
   * sensor mode 0, enable the control port, discover the sensor, commit the
   * camera configuration and the capture format, and cache the capture port's
   * frame-rate range; the first failure ends construction.
   */
  function Construct(cameraNum: int32, nameSize: nat, outputNum: nat, oracle: seq<Reply>, at: nat, s: DevState, f: Fields): Construction
    requires nameSize >= 1
  {
    ThenReadRange(Configured(cameraNum, nameSize, outputNum, oracle, at, s, f), oracle, at)
  }

  /** Construction up to the camera selection and the output-port check. */
  function Selected(cameraNum: int32, outputNum: nat, oracle: seq<Reply>, at: nat, s: DevState, f: Fields): Construction {
    ThenSelect(Construction([], s, f, Done), cameraNum, outputNum, oracle, at)
  }

  /** Construction up to enabling the control port. */
  function SetUp(cameraNum: int32, outputNum: nat, oracle: seq<Reply>, at: nat, s: DevState, f: Fields): Construction {
    ThenSetUp(Selected(cameraNum, outputNum, oracle, at, s, f), oracle, at)
  }

  /** Construction up to sensor discovery. */
  function Discovered(cameraNum: int32, nameSize: nat, outputNum: nat, oracle: seq<Reply>, at: nat, s: DevState, f: Fields): Construction
    requires nameSize >= 1
  {
    ThenDiscover(SetUp(cameraNum, outputNum, oracle, at, s, f), cameraNum, nameSize, oracle, at)
  }

  /** Construction up to the capture format commit. */
  function Configured(cameraNum: int32, nameSize: nat, outputNum: nat, oracle: seq<Reply>, at: nat, s: DevState, f: Fields): Construction
    requires nameSize >= 1
  {
    ThenConfigure(Discovered(cameraNum, nameSize, outputNum, oracle, at, s, f), oracle, at)
  }

  /** Each stage after the construction `prev` begun at position `at` of the oracle. */
  function ThenSelect(prev: Construction, cameraNum: int32, outputNum: nat, oracle: seq<Reply>, at: nat): Construction {
    After(prev, SelectStage(cameraNum, outputNum, oracle, at + |prev.calls|, prev.final, prev.fields))
  }

  function ThenSetUp(prev: Construction, oracle: seq<Reply>, at: nat): Construction {
    After(prev, SetupStage(oracle, at + |prev.calls|, prev.final, prev.fields))
  }

  function ThenDiscover(prev: Construction, cameraNum: int32, nameSize: nat, oracle: seq<Reply>, at: nat): Construction
    requires nameSize >= 1
  {
    After(prev, DiscoverStage(cameraNum, nameSize, oracle, at + |prev.calls|, prev.final, prev.fields))
  }

  function ThenConfigure(prev: Construction, oracle: seq<Reply>, at: nat): Construction {
    After(prev, ConfigStage(oracle, at + |prev.calls|, prev.final, prev.fields))
  }

  function ThenReadRange(prev: Construction, oracle: seq<Reply>, at: nat): Construction {
    After(prev, RangeStage(oracle, at + |prev.calls|, prev.final, prev.fields))
  }

  /** Construction ends at the first stage that fails. */
  lemma ConstructStops(cameraNum: int32, nameSize: nat, outputNum: nat, oracle: seq<Reply>, at: nat, s: DevState, f: Fields)
    requires nameSize >= 1
    ensures var selected := Selected(cameraNum, outputNum, oracle, at, s, f);
      selected.outcome.Failed? ==> Construct(cameraNum, nameSize, outputNum, oracle, at, s, f) == selected
    ensures var setUp := SetUp(cameraNum, outputNum, oracle, at, s, f);
      setUp.outcome.Failed? ==> Construct(cameraNum, nameSize, outputNum, oracle, at, s, f) == setUp
    ensures var discovered := Discovered(cameraNum, nameSize, outputNum, oracle, at, s, f);
      discovered.outcome.Failed? ==> Construct(cameraNum, nameSize, outputNum, oracle, at, s, f) == discovered
    ensures var configured := Configured(cameraNum, nameSize, outputNum, oracle, at, s, f);
      configured.outcome.Failed? ==> Construct(cameraNum, nameSize, outputNum, oracle, at, s, f) == configured
  {
  }

  /** A component without output ports fails construction right after the camera selection. */
  lemma ConstructWithoutOutputPorts(cameraNum: int32, nameSize: nat, oracle: seq<Reply>, at: nat, s: DevState, f: Fields)
    requires nameSize >= 1
    ensures var c := Construct(cameraNum, nameSize, 0, oracle, at, s, f);
      c.outcome.Failed? && c.calls == [SetParam(ControlPort, CameraNum(cameraNum))] && c.fields == f &&
      (c.outcome == Failed(NoOutputPorts) <==> ReplyAt(oracle, at).ok)
  {
    ConstructStops(cameraNum, nameSize, 0, oracle, at, s, f);
    RunSingle(SelectPlan(cameraNum)[0], oracle, at, s);
    assert [] + [SetParam(ControlPort, CameraNum(cameraNum))] == [SetParam(ControlPort, CameraNum(cameraNum))];
  }

  /** Discovery leaves the port enable flags as they were. */
  lemma DiscoverKeepsPorts(cameraNum: int32, nameSize: nat, oracle: seq<Reply>, at: nat, s: DevState)
    requires nameSize >= 1
    ensures var d := Discover(cameraNum, nameSize, oracle, at, s);
      d.final.controlEnabled == s.controlEnabled && d.final.captureEnabled == s.captureEnabled
  {
  }

  /**
   * Construction up to discovery, when complete, has enabled the control port
   * and found the OV5647 default size when the undersized probe (its fifth
   * call) succeeded, and otherwise the selected entry of the camera table read
   * by its sixth call.
   */
  lemma DiscoveredDone(cameraNum: int32, nameSize: nat, outputNum: nat, oracle: seq<Reply>, at: nat, s: DevState, f: Fields)
    requires nameSize >= 1
    requires Discovered(cameraNum, nameSize, outputNum, oracle, at, s, f).outcome == Done
    ensures var d := Discovered(cameraNum, nameSize, outputNum, oracle, at, s, f);
      d.final.controlEnabled &&
      (ReplyAt(oracle, at + 4).ok ==> d.fields.width == DefaultWidth && d.fields.height == DefaultHeight) &&
      (!ReplyAt(oracle, at + 4).ok ==>
        var info := ReplyAt(oracle, at + 5).info;
        0 <= cameraNum < info.numCameras &&
        d.fields.width == info.cameras[cameraNum].maxWidth && d.fields.height == info.cameras[cameraNum].maxHeight)
  {
    var selected := Selected(cameraNum, outputNum, oracle, at, s, f);
    var setUp := SetUp(cameraNum, outputNum, oracle, at, s, f);
    assert selected.outcome == Done && setUp.outcome == Done;
    RunSingle(SelectPlan(cameraNum)[0], oracle, at, s);
    RunTwo(ControlSetupPlan()[0], ControlSetupPlan()[1], oracle, at + 1, selected.final);
    assert |setUp.calls| == 3 && setUp.final.controlEnabled;
    DiscoverOutcomes(cameraNum, nameSize, oracle, at + 3, setUp.final);
    DiscoverKeepsPorts(cameraNum, nameSize, oracle, at + 3, setUp.final);
  }

  /**
   * The end of construction, when complete, has committed the camera
   * configuration and the capture format for the size found so far, recorded
   * that format, cached the range read by its last call, and left the control
   * port as it was.
   */
  lemma FinishDone(prev: Construction, oracle: seq<Reply>, at: nat)
    requires prev.outcome == Done
    requires ThenReadRange(ThenConfigure(prev, oracle, at), oracle, at).outcome == Done
    ensures var c := ThenReadRange(ThenConfigure(prev, oracle, at), oracle, at);
      var w, h := prev.fields.width, prev.fields.height;
      var configKey := Key(ControlPort, CameraConfigId);
      c.fields.width == w && c.fields.height == h &&
      c.final.controlEnabled == prev.final.controlEnabled &&
      configKey in c.final.store && c.final.store[configKey] == CameraConfigParam(CameraConfigFor(w, h)) &&
      CapturePort in c.final.committed && c.final.committed[CapturePort] == CaptureFormat(w, h) &&
      c.fields.captureFormat == CaptureFormat(w, h) &&
      0 < |c.calls| && c.fields.fpsLow == ReplyAt(oracle, at + |c.calls| - 1).fps.low &&
      c.fields.fpsHigh == ReplyAt(oracle, at + |c.calls| - 1).fps.high
  {
    var configured := ThenConfigure(prev, oracle, at);
    assert configured.outcome == Done;
    var plan := ConfigPlan(prev.fields.width, prev.fields.height);
    RunTwo(plan[0], plan[1], oracle, at + |prev.calls|, prev.final);
    assert |configured.calls| == |prev.calls| + 2;
    RunSingle(RangePlan()[0], oracle, at + |configured.calls|, configured.final);
  }

  /**
   * A completed construction leaves the control port enabled, the camera
   * configuration for the discovered size on the control port, the capture
   * format for that size committed and recorded, and the frame-rate range read
   * by its last call cached; the size is the OV5647 default when the
   * undersized probe (the fifth call) succeeds, and otherwise the selected
   * entry of the camera table read by the sixth.
   */
  lemma ConstructDone(cameraNum: int32, nameSize: nat, outputNum: nat, oracle: seq<Reply>, at: nat, s: DevState, f: Fields)
    requires nameSize >= 1
    requires Construct(cameraNum, nameSize, outputNum, oracle, at, s, f).outcome == Done
    ensures var c := Construct(cameraNum, nameSize, outputNum, oracle, at, s, f);
      var w, h := c.fields.width, c.fields.height;
      var configKey := Key(ControlPort, CameraConfigId);
      c.final.controlEnabled &&
      configKey in c.final.store && c.final.store[configKey] == CameraConfigParam(CameraConfigFor(w, h)) &&
      CapturePort in c.final.committed && c.final.committed[CapturePort] == CaptureFormat(w, h) &&
      c.fields.captureFormat == CaptureFormat(w, h) &&
      0 < |c.calls| && c.fields.fpsLow == ReplyAt(oracle, at + |c.calls| - 1).fps.low &&
      c.fields.fpsHigh == ReplyAt(oracle, at + |c.calls| - 1).fps.high
    ensures var c := Construct(cameraNum, nameSize, outputNum, oracle, at, s, f);
      (ReplyAt(oracle, at + 4).ok ==> c.fields.width == DefaultWidth && c.fields.height == DefaultHeight) &&
      (!ReplyAt(oracle, at + 4).ok ==>
        var info := ReplyAt(oracle, at + 5).info;
        0 <= cameraNum < info.numCameras &&
        c.fields.width == info.cameras[cameraNum].maxWidth && c.fields.height == info.cameras[cameraNum].maxHeight)
  {
    ConstructStops(cameraNum, nameSize, outputNum, oracle, at, s, f);
    var discovered := Discovered(cameraNum, nameSize, outputNum, oracle, at, s, f);
    assert discovered.outcome == Done;
    DiscoveredDone(cameraNum, nameSize, outputNum, oracle, at, s, f);
    FinishDone(discovered, oracle, at);
  }

  // ---------------------------------------------------------------------------
  // The controller
  // ---------------------------------------------------------------------------

  /** MMALCamera: owns the camera component and the settings the driver writes before a capture. */
  class Camera {
    const component: Component
    const cameraNum: int32
    /** sizeof cameraName */
    const nameSize: nat
    /** Whether the build sets ISO (USE_ISO). */
    const useIso: bool
    var width: uint32
    var height: uint32
    var cameraName: seq<char>
    var fpsLow: Rational
    var fpsHigh: Rational
    /** Set by the driver before set_camera_parameters, in microseconds. */
    var shutterSpeed: uint32
    /** static_cast<int32_t>(gain * 65536), computed by the driver from the floating-point gain. */
    var gainNumerator: int32
    var iso: uint32

    ghost predicate Valid()
      reads this
    {
      nameSize >= 1 && |cameraName| == nameSize
    }

    function Snapshot(): Fields
      reads this, component
    {
      Fields(width, height, cameraName, fpsLow, fpsHigh, component.captureFormat)
    }

    /** The member initialisers: bind the camera component and the camera index. */
    constructor (n: int32, component: Component, nameSize: nat, useIso: bool)
      requires nameSize >= 1
      ensures Valid()
      ensures this.component == component && cameraNum == n && this.nameSize == nameSize && this.useIso == useIso
    {
      this.component := component;
      cameraNum := n;
      this.nameSize := nameSize;
      this.useIso := useIso;
      width, height := 0, 0;
      cameraName := seq(nameSize, _ => CString.NUL);
      fpsLow, fpsHigh := Rational(0, 0), Rational(0, 0);
      shutterSpeed, gainNumerator, iso := 0, 0, 0;
    }

    /** The component has issued t0 and then the calls of c, and the device and the controller hold c's results. */
    ghost predicate Built(t0: seq<Call>, c: Construction)
      reads this, component
    {
      component.trace == t0 + c.calls && component.State() == c.final && Snapshot() == c.fields
    }

    /** The constructor body: brings the component to a configured state or fails. */
    method Initialize() returns (r: Outcome)
      requires Valid()
      modifies this`width, this`height, this`cameraName, this`fpsLow, this`fpsHigh, component
      ensures Valid()
      ensures var c := Construct(cameraNum, nameSize, component.outputNum, component.oracle,
                                 |old(component.trace)|, old(component.State()), old(Snapshot()));
        Built(old(component.trace), c) && r == c.outcome
      ensures component.bufferSize == old(component.bufferSize)
    {
      ghost var o, t0, s0, f0 := component.oracle, component.trace, component.State(), Snapshot();
      assert t0 + [] == t0;
      r := SelectCamera(t0, Construction([], s0, f0, Done));
      if r.Failed? {
        ConstructStops(cameraNum, nameSize, component.outputNum, o, |t0|, s0, f0);
        return;
      }
      r := SetUpControlPort(t0, Selected(cameraNum, component.outputNum, o, |t0|, s0, f0));
      if r.Failed? {
        ConstructStops(cameraNum, nameSize, component.outputNum, o, |t0|, s0, f0);
        return;
      }
      r := DiscoverSensor(t0, SetUp(cameraNum, component.outputNum, o, |t0|, s0, f0));
      if r.Failed? {
        ConstructStops(cameraNum, nameSize, component.outputNum, o, |t0|, s0, f0);
        return;
      }
      r := Configure(t0, Discovered(cameraNum, nameSize, component.outputNum, o, |t0|, s0, f0));
      if r.Failed? {
        ConstructStops(cameraNum, nameSize, component.outputNum, o, |t0|, s0, f0);
        return;
      }
      r := CacheFrameRateRange(t0, Configured(cameraNum, nameSize, component.outputNum, o, |t0|, s0, f0));
    }

    /** Construction: select the camera, then insist on output ports. */
    method SelectCamera(ghost t0: seq<Call>, ghost prev: Construction) returns (r: Outcome)
      requires Built(t0, prev) && prev.outcome == Done
      modifies component
      ensures var c := ThenSelect(prev, cameraNum, component.outputNum, component.oracle, |t0|);
        Built(t0, c) && r == c.outcome
      ensures component.bufferSize == old(component.bufferSize)
    {
      AfterContinues(t0, prev, SelectStage(cameraNum, component.outputNum, component.oracle, |t0| + |prev.calls|, prev.final, prev.fields));
      RunSingle(SelectPlan(cameraNum)[0], component.oracle, |component.trace|, component.State());
      var rep := component.Issue(SetParam(ControlPort, CameraNum(cameraNum)));
      if !rep.ok {
        return Failed(CouldNotSelectCamera);
      }
      if component.outputNum == 0 {
        return Failed(NoOutputPorts);
      }
      return Done;
    }

    /** Construction: sensor mode 0, then enabling the control port with its callback. */
    method SetUpControlPort(ghost t0: seq<Call>, ghost prev: Construction) returns (r: Outcome)
      requires Built(t0, prev) && prev.outcome == Done
      modifies component
      ensures var c := ThenSetUp(prev, component.oracle, |t0|);
        Built(t0, c) && r == c.outcome
      ensures component.bufferSize == old(component.bufferSize)
    {
      AfterContinues(t0, prev, SetupStage(component.oracle, |t0| + |prev.calls|, prev.final, prev.fields));
      RunTwo(ControlSetupPlan()[0], ControlSetupPlan()[1], component.oracle, |component.trace|, component.State());
      var rep := component.Issue(SetParam(ControlPort, CustomSensorConfig(0)));
      if !rep.ok {
        return Failed(CouldNotSetSensorMode);
      }
      rep := component.Issue(EnablePort(ControlPort));
      if !rep.ok {
        return Failed(CouldNotEnableControlPort);
      }
      return Done;
    }

    /** Construction: get_sensor_info(), which fills in the size and the name. */
    method DiscoverSensor(ghost t0: seq<Call>, ghost prev: Construction) returns (r: Outcome)
      requires Valid() && Built(t0, prev) && prev.outcome == Done
      modifies this`width, this`height, this`cameraName, component
      ensures Valid()
      ensures var c := ThenDiscover(prev, cameraNum, nameSize, component.oracle, |t0|);
        Built(t0, c) && r == c.outcome
      ensures component.bufferSize == old(component.bufferSize)
    {
      AfterContinues(t0, prev, DiscoverStage(cameraNum, nameSize, component.oracle, |t0| + |prev.calls|, prev.final, prev.fields));
      var found := GetSensorInfo();
      if found.Err? {
        return Failed(found.error);
      }
      return Done;
    }

    /** Construction: commit the camera configuration for the discovered size, then the capture format. */
    method Configure(ghost t0: seq<Call>, ghost prev: Construction) returns (r: Outcome)
      requires Built(t0, prev) && prev.outcome == Done
      modifies component
      ensures var c := ThenConfigure(prev, component.oracle, |t0|);
        Built(t0, c) && r == c.outcome
      ensures component.bufferSize == old(component.bufferSize)
    {
      ghost var o, at := component.oracle, |component.trace|;
      ghost var plan := ConfigPlan(width, height);
      AfterContinues(t0, prev, ConfigStage(o, at, prev.final, prev.fields));
      RunTwo(plan[0], plan[1], o, at, prev.final);
      var rep := component.Issue(SetParam(ControlPort, CameraConfigParam(CameraConfigFor(width, height))));
      if !rep.ok {
        return Failed(FailedToSetCameraConfig);
      }
      RunSingle(plan[1], o, at + 1, component.State());
      r := SetCapturePortFormat();
    }

    /** Construction: read the capture port's frame-rate range and cache it. */
    method CacheFrameRateRange(ghost t0: seq<Call>, ghost prev: Construction) returns (r: Outcome)
      requires Built(t0, prev) && prev.outcome == Done
      modifies this`fpsLow, this`fpsHigh, component
      ensures var c := ThenReadRange(prev, component.oracle, |t0|);
        Built(t0, c) && r == c.outcome
      ensures component.bufferSize == old(component.bufferSize)
    {
      AfterContinues(t0, prev, RangeStage(component.oracle, |component.trace|, prev.final, prev.fields));
      RunSingle(RangePlan()[0], component.oracle, |component.trace|, prev.final);
      var rep := component.Issue(GetParam(CapturePort, FpsRangeId, false));
      if !rep.ok {
        return Failed(FailedToGetFpsRange);
      }
      fpsLow := rep.fps.low;
      fpsHigh := rep.fps.high;
      return Done;
    }

    /** The destructor: disables the capture port if enabled, then the control port if enabled. */
    method Destroy() returns (r: Outcome)
      modifies component
      ensures var ran := Run(TeardownPlan(old(component.captureEnabled), old(component.controlEnabled)),
                             component.oracle, |old(component.trace)|, old(component.State()));
        component.trace == old(component.trace) + ran.calls && component.State() == ran.final && r == ran.outcome
      ensures component.captureFormat == old(component.captureFormat) && component.bufferSize == old(component.bufferSize)
    {
      ghost var capture := Step(DisablePort(CapturePort), FailedToDisableCapturePort);
      ghost var control := Step(DisablePort(ControlPort), FailedToDisableControlPort);
      ghost var o, at, s := component.oracle, |component.trace|, component.State();
      if component.captureEnabled && component.controlEnabled {
        assert TeardownPlan(true, true) == [capture, control];
        RunTwo(capture, control, o, at, s);
      } else if component.captureEnabled {
        assert TeardownPlan(true, false) == [capture];
        RunSingle(capture, o, at, s);
      } else if component.controlEnabled {
        assert TeardownPlan(false, true) == [control];
        RunSingle(control, o, at, s);
      } else {
        assert TeardownPlan(false, false) == [];
        assert component.trace + [] == component.trace;
      }
      if component.captureEnabled {
        var rep := component.Issue(DisablePort(CapturePort));
        if !rep.ok {
          return Failed(FailedToDisableCapturePort);
        }
      }
      if component.controlEnabled {
        var rep := component.Issue(DisablePort(ControlPort));
        if !rep.ok {
          return Failed(FailedToDisableControlPort);
        }
      }
      return Done;
    }

    /** capture(): starts an exposure. */
    method Capture() returns (r: Outcome)
      modifies component
      ensures var ran := Run(CapturePlan(), component.oracle, |old(component.trace)|, old(component.State()));
        component.trace == old(component.trace) + ran.calls && component.State() == ran.final && r == ran.outcome
      ensures component.captureFormat == old(component.captureFormat) && component.bufferSize == old(component.bufferSize)
    {
      var rep := component.Issue(EnableComponent);
      if !rep.ok {
        return Failed(ComponentNotEnabled);
      }
      rep := component.Issue(SetParam(CapturePort, CaptureParam(true)));
      if !rep.ok {
        return Failed(FailedToStartCapture);
      }
      return Done;
    }

    /** abort(): stops an exposure. */
    method Abort() returns (r: Outcome)
      modifies component
      ensures var ran := Run(AbortPlan(), component.oracle, |old(component.trace)|, old(component.State()));
        component.trace == old(component.trace) + ran.calls && component.State() == ran.final && r == ran.outcome
      ensures component.captureFormat == old(component.captureFormat) && component.bufferSize == old(component.bufferSize)
    {
      var rep := component.Issue(SetParam(CapturePort, CaptureParam(false)));
      if !rep.ok {
        return Failed(FailedToAbortCapture);
      }
      rep := component.Issue(DisableComponent);
      if !rep.ok {
        return Failed(ComponentNotDisabled);
      }
      return Done;
    }

    /** get_shutter_speed(): reads the shutter speed back from the control port. */
    method GetShutterSpeed() returns (r: Result<uint32>)
      modifies component
      ensures var ran := Run([Step(GetParam(ControlPort, ShutterSpeedId, false), FailedToGetShutterSpeed)],
                             component.oracle, |old(component.trace)|, old(component.State()));
        component.trace == old(component.trace) + ran.calls && component.State() == ran.final &&
        (r.Ok? <==> ran.outcome.Done?) && (r.Err? ==> r.error == ran.outcome.error)
      ensures r.Ok? ==> r.value == ReplyAt(component.oracle, |old(component.trace)|).word
      ensures component.captureFormat == old(component.captureFormat) && component.bufferSize == old(component.bufferSize)
    {
      var rep := component.Issue(GetParam(ControlPort, ShutterSpeedId, false));
      if !rep.ok {
        return Err(FailedToGetShutterSpeed);
      }
      return Ok(rep.word);
    }

    /** set_capture_port_format(): edits the capture port's format record in place, then commits it. */
    method SetCapturePortFormat() returns (r: Outcome)
      modifies component
      ensures component.captureFormat == CaptureFormat(width, height)
      ensures var ran := Run([Step(CommitFormat(CapturePort, CaptureFormat(width, height)), CapturePortFormatNotSet)],
                             component.oracle, |old(component.trace)|, old(component.State()));
        component.trace == old(component.trace) + ran.calls && component.State() == ran.final && r == ran.outcome
      ensures component.bufferSize == old(component.bufferSize)
    {
      var format := component.captureFormat;
      format := format.(encoding := Opaque, encodingVariant := 0);
      if !component.rgbOrderFixed {
        if format.encoding == Rgb24 {
          format := format.(encoding := Bgr24);
        } else if format.encoding == Bgr24 {
          format := format.(encoding := Rgb24);
        }
      }
      format := format.(encodingVariant := 0);
      format := format.(video := format.video.(width := width, height := height));
      format := format.(video := format.video.(crop := Rect(0, 0, ToInt32(width), ToInt32(height))));
      format := format.(video := format.video.(frameRate := Rational(0, 1), par := Rational(1, 1)));
      component.captureFormat := format;
      var rep := component.Issue(CommitFormat(CapturePort, component.captureFormat));
      if !rep.ok {
        return Failed(CapturePortFormatNotSet);
      }
      return Done;
    }

    /** get_sensor_info(): fills in width, height and cameraName. */
    method GetSensorInfo() returns (r: Result<Sensor>)
      requires Valid()
      modifies this`width, this`height, this`cameraName, component
      ensures Valid()
      ensures r == Discover(cameraNum, nameSize, component.oracle, |old(component.trace)|, old(component.State())).result
      ensures component.trace == old(component.trace) +
        Discover(cameraNum, nameSize, component.oracle, |old(component.trace)|, old(component.State())).calls
      ensures component.State() == Discover(cameraNum, nameSize, component.oracle, |old(component.trace)|, old(component.State())).final
      ensures r.Ok? ==> width == r.value.width && height == r.value.height && cameraName == r.value.name
      ensures r.Err? ==> width == old(width) && height == old(height) && cameraName == CString.StrNCpy(DefaultName, nameSize)
      ensures component.captureFormat == old(component.captureFormat) && component.bufferSize == old(component.bufferSize)
    {
      ghost var o, t0, s0 := component.oracle, component.trace, component.State();
      ghost var probeCall := GetParam(ControlPort, CameraInfoId, true);
      ghost var query := [CreateInfoComponent, probeCall, GetParam(InfoControlPort, CameraInfoId, false)];
      var created := component.Issue(CreateInfoComponent);
      ghost var s1 := component.State();
      cameraName := CString.StrNCpy(DefaultName, nameSize);
      var probe := component.Issue(GetParam(ControlPort, CameraInfoId, true));
      if !probe.ok {
        var full := component.Issue(GetParam(InfoControlPort, CameraInfoId, false));
        assert component.trace == t0 + query;
        if !full.ok {
          assert Discover(cameraNum, nameSize, o, |t0|, s0) == Discovery(query, s1, Err(FailedToGetCameraParameters));
          return Err(FailedToGetCameraParameters);
        }
        if full.info.numCameras <= ToUint32(cameraNum) {
          assert Discover(cameraNum, nameSize, o, |t0|, s0) == Discovery(query, s1, Err(CameraNumberNotFound));
          return Err(CameraNumberNotFound);
        }
        var entry := full.info.cameras[cameraNum];
        width := entry.maxWidth;
        height := entry.maxHeight;
        cameraName := CString.BoundedCopy(entry.cameraName, nameSize);
        var destroyed := component.Issue(DestroyInfoComponent);
        assert component.trace == t0 + (query + [DestroyInfoComponent]);
        assert Discover(cameraNum, nameSize, o, |t0|, s0) ==
          Discovery(query + [DestroyInfoComponent], component.State(), Ok(Sensor(width, height, cameraName)));
      } else {
        width := DefaultWidth;
        height := DefaultHeight;
        var destroyed := component.Issue(DestroyInfoComponent);
        assert component.trace == t0 + [CreateInfoComponent, probeCall, DestroyInfoComponent];
        assert Discover(cameraNum, nameSize, o, |t0|, s0) ==
          Discovery([CreateInfoComponent, probeCall, DestroyInfoComponent], component.State(), Ok(Sensor(width, height, cameraName)));
      }
      r := Ok(Sensor(width, height, cameraName));
    }

    /** The component has issued t0 and then the calls of ran, and is in ran's final state. */
    ghost predicate Reached(t0: seq<Call>, ran: Ran)
      reads component
    {
      component.trace == t0 + ran.calls && component.State() == ran.final
    }

    /** The colour controls of set_camera_parameters(): AWB, saturation, digital gain. */
    method SetColour(ghost t0: seq<Call>, ghost prev: Ran) returns (r: Outcome, ghost next: Ran)
      requires Reached(t0, prev) && prev.outcome == Done
      modifies component
      ensures next == Then(prev, ColourPlan(), component.oracle, |t0|)
      ensures Reached(t0, next) && r == next.outcome
      ensures component.captureFormat == old(component.captureFormat) && component.bufferSize == old(component.bufferSize)
    {
      ThenContinues(t0, prev, ColourPlan(), component.oracle);
      next := Then(prev, ColourPlan(), component.oracle, |t0|);
      var rep := component.Issue(SetParam(ControlPort, AwbModeParam(AwbAuto)));
      if !rep.ok {
        return Failed(FailedToSetAwbMode), next;
      }
      rep := component.Issue(SetParam(ControlPort, Saturation(Rational(10, 0))));
      if !rep.ok {
        return Failed(FailedToSetSaturation), next;
      }
      rep := component.Issue(SetParam(ControlPort, DigitalGain(Rational(1, 1))));
      if !rep.ok {
        return Failed(FailedToSetDigitalGain), next;
      }
      return Done, next;
    }

    /** The ISO write of set_camera_parameters(), issued only in builds that set ISO. */
    method SetIso(ghost t0: seq<Call>, ghost prev: Ran) returns (r: Outcome, ghost next: Ran)
      requires Reached(t0, prev) && prev.outcome == Done
      modifies component
      ensures next == Then(prev, IsoPlan(useIso, iso), component.oracle, |t0|)
      ensures Reached(t0, next) && r == next.outcome
      ensures component.captureFormat == old(component.captureFormat) && component.bufferSize == old(component.bufferSize)
    {
      ThenContinues(t0, prev, IsoPlan(useIso, iso), component.oracle);
      RunSingle(Step(SetParam(ControlPort, Iso(iso)), FailedToSetIso), component.oracle, |component.trace|, component.State());
      next := Then(prev, IsoPlan(useIso, iso), component.oracle, |t0|);
      if useIso {
        var rep := component.Issue(SetParam(ControlPort, Iso(iso)));
        if !rep.ok {
          return Failed(FailedToSetIso), next;
        }
      } else {
        assert t0 + prev.calls + [] == t0 + prev.calls;
      }
      return Done, next;
    }

    /** The exposure controls of set_camera_parameters(): brightness, exposure mode off, input crop. */
    method SetExposureControls(ghost t0: seq<Call>, ghost prev: Ran) returns (r: Outcome, ghost next: Ran)
      requires Reached(t0, prev) && prev.outcome == Done
      modifies component
      ensures next == Then(prev, ExposureControlsPlan(), component.oracle, |t0|)
      ensures Reached(t0, next) && r == next.outcome
      ensures component.captureFormat == old(component.captureFormat) && component.bufferSize == old(component.bufferSize)
    {
      ThenContinues(t0, prev, ExposureControlsPlan(), component.oracle);
      next := Then(prev, ExposureControlsPlan(), component.oracle, |t0|);
      var rep := component.Issue(SetParam(ControlPort, Brightness(Rational(50, 100))));
      if !rep.ok {
        return Failed(FailedToSetBrightness), next;
      }
      rep := component.Issue(SetParam(ControlPort, ExposureModeParam(ExposureOff)));
      if !rep.ok {
        return Failed(FailedToSetExposureMode), next;
      }
      rep := component.Issue(SetParam(ControlPort, InputCrop(Rect(0, 0, 0x1000, 0x1000))));
      if !rep.ok {
        return Failed(FailedToSetRoi), next;
      }
      return Done, next;
    }

    /** The port options of set_camera_parameters(): zero copy, raw capture, statistics pass. */
    method SetPortOptions(ghost t0: seq<Call>, ghost prev: Ran) returns (r: Outcome, ghost next: Ran)
      requires Reached(t0, prev) && prev.outcome == Done
      modifies component
      ensures next == Then(prev, PortOptionsPlan(), component.oracle, |t0|)
      ensures Reached(t0, next) && r == next.outcome
      ensures component.captureFormat == old(component.captureFormat) && component.bufferSize == old(component.bufferSize)
    {
      ThenContinues(t0, prev, PortOptionsPlan(), component.oracle);
      next := Then(prev, PortOptionsPlan(), component.oracle, |t0|);
      var rep := component.Issue(SetParam(VideoPort, ZeroCopy(true)));
      if !rep.ok {
        return Failed(FailedToSetZeroCopy), next;
      }
      rep := component.Issue(SetParam(CapturePort, EnableRawCapture(true)));
      if !rep.ok {
        return Failed(FailedToSetRawCapture), next;
      }
      rep := component.Issue(SetParam(ControlPort, CaptureStatsPass(1)));
      if !rep.ok {
        return Failed(FailedToSetStatsPass), next;
      }
      return Done, next;
    }

    /**
     * The exposure time of set_camera_parameters(): write the shutter speed,
     * read it back, and warn when the value read lies outside the tolerance.
     */
    method SetShutterSpeed(ghost t0: seq<Call>, ghost prev: Ran) returns (r: Outcome, warnings: seq<Warning>, ghost next: Ran)
      requires Reached(t0, prev) && prev.outcome == Done
      modifies component
      ensures next == Then(prev, ExposureTimePlan(shutterSpeed), component.oracle, |t0|)
      ensures Reached(t0, next) && r == next.outcome
      ensures warnings == ShutterWarning(shutterSpeed, prev, component.oracle, |t0|)
      ensures component.captureFormat == old(component.captureFormat) && component.bufferSize == old(component.bufferSize)
    {
      ThenContinues(t0, prev, ExposureTimePlan(shutterSpeed), component.oracle);
      next := Then(prev, ExposureTimePlan(shutterSpeed), component.oracle, |t0|);
      warnings := [];
      var rep := component.Issue(SetParam(ControlPort, ShutterSpeed(shutterSpeed)));
      if !rep.ok {
        return Failed(FailedToSetShutterSpeed), warnings, next;
      }
      var actual := GetShutterSpeed();
      if actual.Err? {
        return Failed(actual.error), warnings, next;
      }
      if OutOfTolerance(shutterSpeed, actual.value) {
        warnings := [ShutterSpeedMismatch(shutterSpeed, actual.value)];
      }
      return Done, warnings, next;
    }

    /**
     * The exposure ranges of set_camera_parameters(): choose the frame-rate
     * range for the shutter speed, write it to the capture port, read it back,
     * and warn when the range read differs from the one written.
     */
    method SetFrameRateRange(ghost t0: seq<Call>, ghost prev: Ran) returns (r: Outcome, warnings: seq<Warning>, ghost next: Ran)
      requires Reached(t0, prev) && prev.outcome == Done
      modifies component
      ensures var range := FrameRateRange(shutterSpeed, FpsRange(fpsLow, fpsHigh));
        next == Then(prev, FrameRatePlan(range), component.oracle, |t0|) &&
        warnings == RangeWarning(range, prev, component.oracle, |t0|)
      ensures Reached(t0, next) && r == next.outcome
      ensures component.captureFormat == old(component.captureFormat) && component.bufferSize == old(component.bufferSize)
    {
      ghost var range := FrameRateRange(shutterSpeed, FpsRange(fpsLow, fpsHigh));
      ThenContinues(t0, prev, FrameRatePlan(range), component.oracle);
      next := Then(prev, FrameRatePlan(range), component.oracle, |t0|);
      warnings := [];
      var low, high;
      if shutterSpeed > LongExposureLimit {
        low, high := Rational(5, 1000), Rational(166, 1000);
      } else if shutterSpeed > ShortExposureLimit {
        low, high := Rational(167, 1000), Rational(999, 1000);
      } else {
        low, high := fpsLow, fpsHigh;
      }
      assert FpsRange(low, high) == range;
      ghost var plan := FrameRatePlan(range);
      assert plan == [plan[0], plan[1]];
      RunTwo(plan[0], plan[1], component.oracle, |t0| + |prev.calls|, prev.final);
      var rep := component.Issue(SetParam(CapturePort, FpsRangeParam(FpsRange(low, high))));
      if !rep.ok {
        return Failed(FailedToSetFpsRange), warnings, next;
      }
      rep := component.Issue(GetParam(CapturePort, FpsRangeId, false));
      if !rep.ok {
        return Failed(FailedToGetFpsRange), warnings, next;
      }
      if rep.fps.low.num != low.num || rep.fps.low.den != low.den ||
         rep.fps.high.num != high.num || rep.fps.high.den != high.den {
        warnings := [FpsRangeMismatch(FpsRange(low, high), rep.fps)];
      }
      return Done, warnings, next;
    }

    /** The analog gain of set_camera_parameters(): gain * 65536 over 65536. */
    method SetAnalogGain(ghost t0: seq<Call>, ghost prev: Ran) returns (r: Outcome, ghost next: Ran)
      requires Reached(t0, prev) && prev.outcome == Done
      modifies component
      ensures next == Then(prev, GainPlan(gainNumerator), component.oracle, |t0|)
      ensures Reached(t0, next) && r == next.outcome
      ensures component.captureFormat == old(component.captureFormat) && component.bufferSize == old(component.bufferSize)
    {
      ThenContinues(t0, prev, GainPlan(gainNumerator), component.oracle);
      RunSingle(GainPlan(gainNumerator)[0], component.oracle, |component.trace|, component.State());
      next := Then(prev, GainPlan(gainNumerator), component.oracle, |t0|);
      var rep := component.Issue(SetParam(ControlPort, AnalogGain(Rational(gainNumerator, 65536))));
      if !rep.ok {
        return Failed(FailedToSetAnalogGain), next;
      }
      return Done, next;
    }

    /**
     * set_camera_parameters(): the ordered exposure-parameter batch. The
     * capture buffer size is reset to its recommended value between the image
     * settings and the capture settings; the two read-back checks only warn.
     */
    method SetCameraParameters() returns (r: Outcome, warnings: seq<Warning>)
      modifies component
      ensures var ran := old(Batch(useIso, iso, shutterSpeed, gainNumerator, FpsRange(fpsLow, fpsHigh),
                                   component.oracle, |component.trace|, component.State()));
        component.trace == old(component.trace) + ran.calls && component.State() == ran.final && r == ran.outcome
      ensures component.bufferSize ==
        if old(ImageSettingsRun(useIso, iso, component.oracle, |component.trace|, component.State())).outcome.Done?
        then component.bufferSizeRecommended else old(component.bufferSize)
      ensures warnings == old(BatchWarnings(useIso, iso, shutterSpeed, FpsRange(fpsLow, fpsHigh),
                                            component.oracle, |component.trace|, component.State()))
      ensures component.captureFormat == old(component.captureFormat)
    {
      ghost var o, t0, s0 := component.oracle, component.trace, component.State();
      ghost var cur := Start(s0);
      assert t0 + [] == t0;
      warnings := [];
      r, cur := SetColour(t0, cur);
      if r.Failed? {
        BatchStops(useIso, iso, shutterSpeed, gainNumerator, FpsRange(fpsLow, fpsHigh), o, |t0|, s0);
        return;
      }
      r, cur := SetIso(t0, cur);
      if r.Failed? {
        BatchStops(useIso, iso, shutterSpeed, gainNumerator, FpsRange(fpsLow, fpsHigh), o, |t0|, s0);
        return;
      }
      r, cur := SetExposureControls(t0, cur);
      assert cur == ImageSettingsRun(useIso, iso, o, |t0|, s0);
      if r.Failed? {
        BatchStops(useIso, iso, shutterSpeed, gainNumerator, FpsRange(fpsLow, fpsHigh), o, |t0|, s0);
        return;
      }
      component.bufferSize := component.bufferSizeRecommended;
      r, cur := SetPortOptions(t0, cur);
      assert cur == PortOptionsRun(useIso, iso, o, |t0|, s0);
      if r.Failed? {
        BatchStops(useIso, iso, shutterSpeed, gainNumerator, FpsRange(fpsLow, fpsHigh), o, |t0|, s0);
        return;
      }
      var shutterWarnings, rangeWarnings;
      r, shutterWarnings, cur := SetShutterSpeed(t0, cur);
      assert cur == ExposureTimeRun(useIso, iso, shutterSpeed, o, |t0|, s0);
      if r.Failed? {
        BatchStops(useIso, iso, shutterSpeed, gainNumerator, FpsRange(fpsLow, fpsHigh), o, |t0|, s0);
        return;
      }
      r, rangeWarnings, cur := SetFrameRateRange(t0, cur);
      assert cur == FrameRateRun(useIso, iso, shutterSpeed, FpsRange(fpsLow, fpsHigh), o, |t0|, s0);
      warnings := shutterWarnings + rangeWarnings;
      if r.Failed? {
        BatchStops(useIso, iso, shutterSpeed, gainNumerator, FpsRange(fpsLow, fpsHigh), o, |t0|, s0);
        return;
      }
      r, cur := SetAnalogGain(t0, cur);
    }
  }
}
