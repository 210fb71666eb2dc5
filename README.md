# MMALCamera controller model

This project models `MMALCamera` from the Raspberry Pi camera driver for INDI
(`indi-rpicam/mmalcamera.cpp`). It is the controller that drives the camera
component of the MMAL library. The model covers:

- construction and teardown;
- start and abort of an exposure;
- the ordered exposure-parameter batch with its two read-back checks;
- the capture-port format record;
- sensor discovery through the camera-info component.

The MMAL library itself is not part of this model. Module `Mmal` (`mmal.dfy`)
replaces it with an abstract device, the `Component` class, which holds:

- the enable flags of the control port, the capture port and the whole component;
- the liveness of the camera-info component;
- a parameter store keyed by port and parameter;
- the committed port formats;
- the capture port's format record and buffer size, which the controller edits in place.

Every library call goes through `Component.Issue`. It appends the call to a
trace and takes its reply from a status oracle, a sequence of replies supplied
up front and consumed one per call; an exhausted oracle answers with a
failure. It then applies the call's effect only if the reply is a success. A
reply also carries what a parameter read fills in: a 32-bit word, a
frame-rate range or the camera table. A read-back can therefore differ from
what was written.

A thrown `MMALException` becomes a `Failed` outcome (or an `Err` result) that
ends the current operation. Each straight run of "call, throw if it failed" in
the source is specified by `Run` over a plan of steps; a step is a call plus
the error thrown when it fails. Each method of the `Camera` class
(`mmalcamera.dfy`) is proved to leave the trace, the device state, the
controller's fields and its outcome exactly as its specification function
says. The properties the source promises are then proved as lemmas about
those functions. `CString` (`cstring.dfy`) models the fixed-size name buffer:
the C string it holds, `strncpy`, and the copy that forces the last byte to NUL.

Behaviour of the code that a reader might not expect, and that the model
follows:

- `abort` does not disable the component when the stop request fails.
- The destructor stops at the first port it fails to disable.
- The camera-info component is not destroyed on the two paths of
  `get_sensor_info` that throw.
- The status of creating the camera-info component is never examined.
- The undersized probe goes to the camera's own control port, not the info component's.
- Saturation is written as the rational 10/0.
- The buffer-size reset writes through `component->port[MMAL_CAMERA_CAPTURE_PORT]`,
  i.e. the combined port array, where every other capture-port access uses
  `output[MMAL_CAMERA_CAPTURE_PORT]`. The model keeps it as a separate field
  of the component that only this write touches.

## Model

| member | source | states |
|---|---|---|
| MmalCamera.Camera.constructor | indi-rpicam/mmalcamera.cpp:32-32 | the member initialisers bind the camera component and the camera index |
| MmalCamera.Camera.Initialize | indi-rpicam/mmalcamera.cpp:32-80 | the constructor body leaves trace, device state, fields and outcome as `Construct` says: select, output-port check, sensor mode, control port, discovery, configuration, format, frame-rate range, stopping at the first failure |
| MmalCamera.Camera.SelectCamera | indi-rpicam/mmalcamera.cpp:36-39 | selects the camera, then fails with "no output ports" when the component has none |
| MmalCamera.Camera.SetUpControlPort | indi-rpicam/mmalcamera.cpp:41-45 | sets sensor mode 0, then enables the control port, failing at the first refused call |
| MmalCamera.Camera.DiscoverSensor | indi-rpicam/mmalcamera.cpp:47-47 | runs sensor discovery as a construction stage, keeping the name buffer well formed |
| MmalCamera.Camera.Configure | indi-rpicam/mmalcamera.cpp:49-69 | commits the camera configuration for the discovered size, then the capture format |
| MmalCamera.Camera.CacheFrameRateRange | indi-rpicam/mmalcamera.cpp:71-77 | reads the capture port's frame-rate range and caches it only when the read succeeds |
| MmalCamera.ConstructWithoutOutputPorts | indi-rpicam/mmalcamera.cpp:36-39 | with no output ports construction fails after issuing only the camera selection; the error is "no output ports" exactly when the selection succeeded |
| MmalCamera.ConstructStops | indi-rpicam/mmalcamera.cpp:36-77 | construction ends at the first stage that fails |
| MmalCamera.DiscoveredDone | indi-rpicam/mmalcamera.cpp:36-47 | once discovery completes the control port is enabled and the size is the default or the selected camera-table entry |
| MmalCamera.FinishDone | indi-rpicam/mmalcamera.cpp:49-77 | a completed end of construction stores the configuration and commits and records the format for the discovered size, caches the range its last call read, and keeps the control port's flag |
| MmalCamera.ConstructDone | indi-rpicam/mmalcamera.cpp:32-80 | a completed construction leaves the control port enabled, the configuration (maximum stills size = discovered size, 1024x768 preview, one-shot stills) and the capture format for the discovered size committed, and the read range cached |
| MmalCamera.Camera.Destroy | indi-rpicam/mmalcamera.cpp:82-95 | disables the capture port if enabled, then the control port if enabled, stopping at the first failure |
| MmalCamera.TeardownTouchesOnlyEnabledPorts | indi-rpicam/mmalcamera.cpp:82-95 | a port is disabled iff it was enabled (the control port only after the capture port succeeded); on success both are disabled and nothing else changes |
| MmalCamera.Camera.Capture | indi-rpicam/mmalcamera.cpp:103-117 | enables the component, then sets CAPTURE = 1 on the capture port |
| MmalCamera.CaptureEffect | indi-rpicam/mmalcamera.cpp:103-117 | a failed enable skips the capture request; success iff both calls succeed, leaving the component enabled and CAPTURE = 1 |
| MmalCamera.Camera.Abort | indi-rpicam/mmalcamera.cpp:119-129 | sets CAPTURE = 0, then disables the component |
| MmalCamera.AbortEffect | indi-rpicam/mmalcamera.cpp:119-129 | a failed stop request leaves the component as it was (enabled if it was); success leaves it disabled with CAPTURE = 0 |
| MmalCamera.AbortUndoesCapture | indi-rpicam/mmalcamera.cpp:103-129 | a successful capture then a successful abort restore the device except for the disabled component and CAPTURE = 0 |
| MmalCamera.Camera.SetCameraParameters | indi-rpicam/mmalcamera.cpp:131-200 | trace, state and outcome are those of the whole batch; the buffer size is reset to the recommended size exactly when the image settings succeeded; the warnings are those of the two read-back checks, the shutter one by the intended tolerance check (see Findings) |
| MmalCamera.Camera.SetColour | indi-rpicam/mmalcamera.cpp:133-138 | AWB auto, saturation 10/0, digital gain 1/1, in order, stopping at the first failure |
| MmalCamera.Camera.SetIso | indi-rpicam/mmalcamera.cpp:140-143 | the ISO write, issued only in builds that set ISO |
| MmalCamera.Camera.SetExposureControls | indi-rpicam/mmalcamera.cpp:145-151 | brightness 50/100, exposure mode off, crop (0, 0, 0x1000, 0x1000) |
| MmalCamera.Camera.SetPortOptions | indi-rpicam/mmalcamera.cpp:156-161 | zero copy on the video port, raw capture on the capture port, one statistics pass |
| MmalCamera.Camera.SetShutterSpeed | indi-rpicam/mmalcamera.cpp:163-169 | writes and reads back the shutter speed; a read-back more than 100000 us from the request (the intended check, see Findings) yields a warning, never a failure |
| MmalCamera.Camera.SetFrameRateRange | indi-rpicam/mmalcamera.cpp:171-193 | chooses the range by the three tiers, writes and reads it back; a differing read-back yields a warning only |
| MmalCamera.Camera.SetAnalogGain | indi-rpicam/mmalcamera.cpp:195-197 | writes the analog gain with denominator 65536 |
| MmalCamera.FrameRateRange | indi-rpicam/mmalcamera.cpp:171-184 | above 6000000 us {5/1000, 166/1000}; above 1000000 us {167/1000, 999/1000}; otherwise the cached range |
| MmalCamera.FixedRangesSlowDownWithExposure | indi-rpicam/mmalcamera.cpp:171-184 | past one second the chosen range is a proper range below 1 fps, and a longer exposure never gets a faster one |
| MmalCamera.BatchRunsPlan | indi-rpicam/mmalcamera.cpp:131-200 | running the batch section by section is running its whole ordered plan |
| MmalCamera.BatchStopsAtFirstFailure | indi-rpicam/mmalcamera.cpp:131-200 | the batch issues the plan's calls in order, succeeds iff every status succeeds, and otherwise ends at the first failing call with its error |
| MmalCamera.BatchIgnoresReadBacks | indi-rpicam/mmalcamera.cpp:163-193 | the shutter and range read-back values never change the calls, state or outcome of the batch |
| MmalCamera.BatchChangesOnlyParameters | indi-rpicam/mmalcamera.cpp:131-200 | the batch leaves the enable flags, the info component and the committed formats unchanged |
| MmalCamera.BatchStoresRequested | indi-rpicam/mmalcamera.cpp:163-197 | after a successful batch the store holds the requested shutter speed, the chosen frame-rate range and the gain over 65536 |
| MmalCamera.BatchStops | indi-rpicam/mmalcamera.cpp:131-200 | the batch ends at the first section that fails, with no warning from sections it did not reach |
| MmalCamera.OutOfTolerance | indi-rpicam/mmalcamera.cpp:167-167 | the intended check: the read-back lies more than 100000 us from the request |
| MmalCamera.AsWrittenAgreesAwayFromWrap | indi-rpicam/mmalcamera.cpp:167-167 | the 32-bit check as written agrees with the intended one when neither bound wraps |
| MmalCamera.AsWrittenWarnsForEveryShortExposure | indi-rpicam/mmalcamera.cpp:167-167 | below 100000 us the check as written reports every in-tolerance read-back |
| MmalCamera.AsWrittenExactReadBackWarns | indi-rpicam/mmalcamera.cpp:167-167 | a 10000 us exposure read back exactly is reported as a mismatch |
| MmalCamera.Camera.GetShutterSpeed | indi-rpicam/mmalcamera.cpp:202-207 | reads the shutter speed from the control port, or fails |
| MmalCamera.Camera.SetCapturePortFormat | indi-rpicam/mmalcamera.cpp:212-241 | the format record becomes OPAQUE, variant 0, the discovered size, crop (0, 0, w, h), frame rate 0/1, aspect 1/1 whatever the RGB order (the swap never fires), and is committed |
| MmalCamera.Camera.GetSensorInfo | indi-rpicam/mmalcamera.cpp:251-287 | trace, state and result are those of `Discover`; width, height and name hold the sensor found, or the default name on failure |
| MmalCamera.DiscoverOutcomes | indi-rpicam/mmalcamera.cpp:257-286 | probe success gives 2592x1944 "OV5647"; otherwise a failed query or num_cameras <= cameraNum fail, else the entry's size and a NUL-terminated name; the info component is destroyed exactly on the non-throwing paths |
| MmalCamera.DiscoveredNameIsTerminated | indi-rpicam/mmalcamera.cpp:260-278 | the name is a buffer-sized terminated string: the table's name cut to size - 1, or "OV5647" when it fits |
| MmalCamera.DiscoverKeepsPorts | indi-rpicam/mmalcamera.cpp:251-287 | discovery leaves the port enable flags unchanged |
| MmalCamera.RunShape | indi-rpicam/mmalcamera.cpp:36-197 | every "call, throw if failed" sequence issues a prefix of its plan and stops at the first failure |
| MmalCamera.RunDependsOnlyOnStatus | indi-rpicam/mmalcamera.cpp:36-197 | only the statuses of the replies decide what such a sequence issues |
| CString.StrNCpyCopiesString | indi-rpicam/mmalcamera.cpp:260-260 | strncpy copies the source string cut to the buffer, terminated when shorter |
| CString.BoundedCopyCopiesString | indi-rpicam/mmalcamera.cpp:277-278 | strncpy then forcing the last byte to 0 always gives a terminated string of at most size - 1 characters |
| MmalCamera.CaptureCropCoversFrame | indi-rpicam/mmalcamera.cpp:231-234 | the crop starts at the origin and equals the frame size when it fits int32; a larger size becomes the negative two's-complement value |
| Mmal.ToInt32 | indi-rpicam/mmalcamera.cpp:233-234 | `static_cast<int32_t>`: the int32 value congruent to the input modulo 2^32 |
| Mmal.ToUint32 | indi-rpicam/mmalcamera.cpp:273 | `static_cast<uint32_t>` of the camera index: the uint32 value congruent to the input modulo 2^32 |

## Left out

- The MMAL library (parameter get/set, port enable and disable, component
  create, destroy, enable and disable, format commit, the RGB-order query): each
  call is an abstract, fallible operation on the device state of module `Mmal`.
- The floating-point conversion `static_cast<int32_t>(gain * 65536)`: the
  controller's `gainNumerator` field holds the converted value.
- The `fprintf` diagnostics. The two read-back checks return their messages
  as `Warning` values instead of printing them.
- The asynchronous control-port callback that `enable_port_with_callback`
  registers. It lives in the base class, which is not part of this model. The
  model also assumes that it fails exactly when enabling the port fails.
- `USE_ISO` is a compile-time switch; it is the boolean `useIso` fixed when
  the controller is created.
- The header sizes, ids and firmware version semantics of the parameter
  records. The undersized probe is only a call whose reply decides the path.
- `mmalcamera.h`, `mmalexception.h` and the encoder files are not part of this
  model. `shutterSpeed` is taken as a 32-bit unsigned value. If the header
  declares it `int`, the comparison with the unsigned read-back converts the
  bound to unsigned and wraps the same way.
- `capture()` always returns 0 when it does not throw; the model returns `Done`.
- MmalCamera.Camera.Initialize: the C++ constructor is split into the
  `constructor` (the member initialisers) and `Initialize` (the body), because
  a Dafny constructor cannot report an error. Its stages are the methods
  `SelectCamera` to `CacheFrameRateRange`.
- MmalCamera.Camera.Destroy: a destructor that throws terminates a C++11
  program. The model instead returns the failure and stops there.
- MmalCamera.Camera.SetCameraParameters: the batch is issued through one
  method per section of the source, each proved against the section's plan.
  The whole method is proved against the composed batch.
- MmalCamera.Camera.SetShutterSpeed: the batch decides the shutter warning
  by the intended check `OutOfTolerance`, not by the 32-bit check the source
  makes (see Findings). Below 100000 us the source also warns for a read-back
  within tolerance, and the model does not. Only the warnings differ: calls,
  state and outcome do not depend on the check.
- MmalCamera.Camera.GetSensorInfo: three replies on which the source would
  misbehave are assumed away. A camera-info reply never counts more cameras
  than its four-entry table holds (`Mmal.CameraInfo`); the source guards the
  table index only by `num_cameras` and would read past the table. A camera
  name is read up to its first NUL or the end of the field
  (`CString.Length`); `strncpy` would read past an unterminated field. A
  failed `mmal_component_create` is followed by an ordinary query on the info
  component's control port; the source would then use an unset pointer.
- The info component leaked on the throwing paths of `get_sensor_info` is only
  visible as `infoLive` remaining set; memory is not modelled.

## Findings

| source | as written | input that shows it | evidently intended | confidence | as-written member | corrected member |
|---|---|---|---|---|---|---|
| indi-rpicam/mmalcamera.cpp:167 | `shutter_speed - 100000` is computed in 32-bit unsigned arithmetic (or converted to unsigned for the comparison), so for exposures below 100000 us the lower bound wraps to nearly 2^32 | requested 10000 us, read back 10000 us: reported as a mismatch | warn only when the read-back lies more than 100000 us from the request | not executed | MmalCamera.OutOfToleranceAsWritten (AsWrittenExactReadBackWarns, AsWrittenWarnsForEveryShortExposure) | MmalCamera.OutOfTolerance |
