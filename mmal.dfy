/**
 * An abstract model of the MMAL (Multi-Media Abstraction Layer) library as the
 * Raspberry Pi camera controller uses it. The library's own code is not part of
 * this model: each library call is an abstract, fallible operation on a small
 * device state (port and component enable flags, a parameter store, committed
 * port formats, the liveness of the camera-info component). Whether a call
 * succeeds, and what a parameter read fills in, is decided by a status oracle:
 * a sequence of replies supplied up front, consumed one per call.
 */
module Mmal {

  type uint32 = x: int | 0 <= x < 0x1_0000_0000
  type int32 = x: int | -0x8000_0000 <= x < 0x8000_0000

  /** static_cast<int32_t> of a 32-bit unsigned value: two's-complement reinterpretation. */
  function ToInt32(x: uint32): (r: int32)
    ensures (x - r) % 0x1_0000_0000 == 0
  {
    if x < 0x8000_0000 then x else x - 0x1_0000_0000
  }

  /** static_cast<uint32_t> of a 32-bit signed value. */
  function ToUint32(x: int32): (r: uint32)
    ensures (r - x) % 0x1_0000_0000 == 0
  {
    if 0 <= x then x else x + 0x1_0000_0000
  }

  /** MMAL_RATIONAL_T */
  datatype Rational = Rational(num: int32, den: int32)

  /** MMAL_RECT_T */
  datatype Rect = Rect(x: int32, y: int32, width: int32, height: int32)

  /** MMAL_PARAMETER_FPS_RANGE_T without its header. */
  datatype FpsRange = FpsRange(low: Rational, high: Rational)

  datatype Encoding = Opaque | Rgb24 | Bgr24 | OtherEncoding(fourcc: uint32)

  /** The video part of MMAL_ES_FORMAT_T that the controller fills in. */
  datatype VideoFormat = VideoFormat(width: uint32, height: uint32, crop: Rect, frameRate: Rational, par: Rational)

  /** MMAL_ES_FORMAT_T, reduced to the fields the controller touches. */
  datatype Format = Format(encoding: Encoding, encodingVariant: uint32, video: VideoFormat)

  datatype AwbMode = AwbOff | AwbAuto
  datatype ExposureMode = ExposureOff | ExposureAuto
  datatype TimestampMode = TimestampZero | TimestampRawStc | TimestampResetStc

  /** MMAL_PARAMETER_CAMERA_CONFIG_T without its header. */
  datatype CameraConfig = CameraConfig(
    maxStillsW: uint32,
    maxStillsH: uint32,
    stillsYuv422: uint32,
    oneShotStills: uint32,
    maxPreviewVideoW: uint32,
    maxPreviewVideoH: uint32,
    numPreviewVideoFrames: uint32,
    stillsCaptureCircularBufferHeight: uint32,
    fastPreviewResume: uint32,
    useStcTimestamp: TimestampMode)

  /** One entry of MMAL_PARAMETER_CAMERA_INFO_T's camera table. */
  datatype CameraEntry = CameraEntry(maxWidth: uint32, maxHeight: uint32, cameraName: seq<char>)

  /** MMAL_PARAMETER_CAMERA_INFO_MAX_CAMERAS: the fixed size of the camera table. */
  const MaxCameras: nat := 4

  datatype CameraInfoRecord = CameraInfoRecord(numCameras: uint32, cameras: seq<CameraEntry>)

  /** A camera-info reply: the firmware never reports more cameras than its table holds. */
  type CameraInfo = c: CameraInfoRecord | c.numCameras <= |c.cameras| <= MaxCameras
    witness CameraInfoRecord(0, [])

  datatype ParamId =
    | CameraNumId | CustomSensorConfigId | CameraConfigId | AwbModeId | SaturationId
    | DigitalGainId | IsoId | BrightnessId | ExposureModeId | InputCropId | ZeroCopyId
    | EnableRawCaptureId | CaptureStatsPassId | ShutterSpeedId | FpsRangeId | AnalogGainId
    | CaptureId | CameraInfoId

  /** A parameter record as written by mmal_port_parameter_set and its typed variants. */
  datatype Param =
    | CameraNum(index: int32)
    | CustomSensorConfig(mode: uint32)
    | CameraConfigParam(config: CameraConfig)
    | AwbModeParam(awb: AwbMode)
    | Saturation(saturation: Rational)
    | DigitalGain(digitalGain: Rational)
    | Iso(iso: uint32)
    | Brightness(brightness: Rational)
    | ExposureModeParam(exposure: ExposureMode)
    | InputCrop(rect: Rect)
    | ZeroCopy(zeroCopy: bool)
    | EnableRawCapture(raw: bool)
    | CaptureStatsPass(pass: uint32)
    | ShutterSpeed(micros: uint32)
    | FpsRangeParam(range: FpsRange)
    | AnalogGain(analogGain: Rational)
    | CaptureParam(capture: bool)
  {
    function Id(): ParamId {
      match this
      case CameraNum(_) => CameraNumId
      case CustomSensorConfig(_) => CustomSensorConfigId
      case CameraConfigParam(_) => CameraConfigId
      case AwbModeParam(_) => AwbModeId
      case Saturation(_) => SaturationId
      case DigitalGain(_) => DigitalGainId
      case Iso(_) => IsoId
      case Brightness(_) => BrightnessId
      case ExposureModeParam(_) => ExposureModeId
      case InputCrop(_) => InputCropId
      case ZeroCopy(_) => ZeroCopyId
      case EnableRawCapture(_) => EnableRawCaptureId
      case CaptureStatsPass(_) => CaptureStatsPassId
      case ShutterSpeed(_) => ShutterSpeedId
      case FpsRangeParam(_) => FpsRangeId
      case AnalogGain(_) => AnalogGainId
      case CaptureParam(_) => CaptureId
    }
  }

  /**
   * The ports the controller addresses: the camera's control port, its video
   * and still-capture output ports and the control port of the transient
   * camera-info component.
   */
  datatype Port = ControlPort | VideoPort | CapturePort | InfoControlPort

  datatype Key = Key(port: Port, id: ParamId)

  /** One call into the library. */
  datatype Call =
    | SetParam(port: Port, param: Param)
    | GetParam(port: Port, id: ParamId, undersized: bool)
    | EnablePort(port: Port)
    | DisablePort(port: Port)
    | EnableComponent
    | DisableComponent
    | CommitFormat(port: Port, format: Format)
    | CreateInfoComponent
    | DestroyInfoComponent

  /**
   * The library's answer to one call: its status and, for a parameter read, the
   * value it fills in (`word` for a uint32 read, `fps` for the frame-rate range,
   * `info` for the camera table).
   */
  datatype Reply = Reply(ok: bool, word: uint32, fps: FpsRange, info: CameraInfo)

  /** What a call gets once the oracle is exhausted: a failure. */
  const NoReply: Reply := Reply(false, 0, FpsRange(Rational(0, 0), Rational(0, 0)), CameraInfoRecord(0, []))

  function ReplyAt(oracle: seq<Reply>, i: nat): Reply {
    if i < |oracle| then oracle[i] else NoReply
  }

  /** The observable device state that library calls change. */
  datatype DevState = DevState(
    controlEnabled: bool,
    captureEnabled: bool,
    componentEnabled: bool,
    infoLive: bool,
    store: map<Key, Param>,
    committed: map<Port, Format>)

  /** The effect of one successful call; a failed call changes nothing. */
  function Apply(s: DevState, c: Call): DevState {
    match c
    case SetParam(port, p) => s.(store := s.store[Key(port, p.Id()) := p])
    case GetParam(_, _, _) => s
    case EnablePort(port) =>
      if port == ControlPort then s.(controlEnabled := true)
      else if port == CapturePort then s.(captureEnabled := true)
      else s
    case DisablePort(port) =>
      if port == ControlPort then s.(controlEnabled := false)
      else if port == CapturePort then s.(captureEnabled := false)
      else s
    case EnableComponent => s.(componentEnabled := true)
    case DisableComponent => s.(componentEnabled := false)
    case CommitFormat(port, f) => s.(committed := s.committed[port := f])
    case CreateInfoComponent => s.(infoLive := true)
    case DestroyInfoComponent => s.(infoLive := false)
  }

  /**
   * MMAL_COMPONENT_T of the camera, with the port fields the controller reads
   * and writes directly (the capture port's format record and buffer size).
   */
  class Component {
    var controlEnabled: bool
    var captureEnabled: bool
    var componentEnabled: bool
    var infoLive: bool
    var store: map<Key, Param>
    var committed: map<Port, Format>
    /** output[MMAL_CAMERA_CAPTURE_PORT]->format, edited in place before a commit. */
    var captureFormat: Format
    /**
     * The buffer size the parameter batch resets, written through
     * port[MMAL_CAMERA_CAPTURE_PORT] (the combined port array, not the output array).
     */
    var bufferSize: uint32
    const bufferSizeRecommended: uint32
    const outputNum: nat
    /** What mmal_util_rgb_order_fixed reports for the capture port. */
    const rgbOrderFixed: bool
    /** The status oracle: the reply to the i-th call is ReplyAt(oracle, i). */
    const oracle: seq<Reply>
    /** Every call issued so far, in order. */
    var trace: seq<Call>

    function State(): DevState
      reads this
    {
      DevState(controlEnabled, captureEnabled, componentEnabled, infoLive, store, committed)
    }

    constructor (outputNum: nat, bufferSizeRecommended: uint32, rgbOrderFixed: bool, format: Format, oracle: seq<Reply>)
      ensures State() == DevState(false, false, false, false, map[], map[])
      ensures this.outputNum == outputNum && this.bufferSizeRecommended == bufferSizeRecommended
      ensures this.rgbOrderFixed == rgbOrderFixed && this.oracle == oracle
      ensures captureFormat == format && bufferSize == 0 && trace == []
    {
      this.outputNum := outputNum;
      this.bufferSizeRecommended := bufferSizeRecommended;
      this.rgbOrderFixed := rgbOrderFixed;
      this.oracle := oracle;
      controlEnabled, captureEnabled, componentEnabled, infoLive := false, false, false, false;
      store, committed := map[], map[];
      captureFormat, bufferSize := format, 0;
      trace := [];
    }

    /** Issues one library call: records it, takes the oracle's reply and applies the call's effect if it succeeded. */
    method Issue(c: Call) returns (r: Reply)
      modifies this
      ensures r == ReplyAt(oracle, |old(trace)|)
      ensures trace == old(trace) + [c]
      ensures State() == if r.ok then Apply(old(State()), c) else old(State())
      ensures captureFormat == old(captureFormat) && bufferSize == old(bufferSize)
    {
      r := ReplyAt(oracle, |trace|);
      trace := trace + [c];
      if r.ok {
        match c {
          case SetParam(port, p) =>
            store := store[Key(port, p.Id()) := p];
          case GetParam(_, _, _) =>
          case EnablePort(port) =>
            if port == ControlPort {
              controlEnabled := true;
            } else if port == CapturePort {
              captureEnabled := true;
            }
          case DisablePort(port) =>
            if port == ControlPort {
              controlEnabled := false;
            } else if port == CapturePort {
              captureEnabled := false;
            }
          case EnableComponent =>
            componentEnabled := true;
          case DisableComponent =>
            componentEnabled := false;
          case CommitFormat(port, f) =>
            committed := committed[port := f];
          case CreateInfoComponent =>
            infoLive := true;
          case DestroyInfoComponent =>
            infoLive := false;
        }
      }
    }
  }
}
