# PointGrey camera control layer

A Dafny model of the control layer of the LImA PointGrey camera driver, in the early revision where most of the camera is still stubbed. The model has five parts.

- **`Camera`** (`PointGreyCamera`, camera.dfy) holds a frame-count target, a status from `Ready / Exposure / Readout / Latency / Fault`, and an acquired-frame counter. Its constructor sets the initial values.
  - `setNbFrames` stores the target as given. The getters read fields.
  - `prepareAcq`, `startAcq`, `stopAcq` and `reset` do nothing yet.
  - The property setters accept a value and store nothing. The property getters leave the caller's variable as it was.
- **`Interface`** (`PointGreyInterface`, interface.dfy) is the hardware interface. It does four things:
  - it owns the detector-info and sync control objects;
  - it publishes them, with the camera's buffer, as a three-entry capability list;
  - it forwards the acquisition calls;
  - it maps the camera status onto the framework's `(det, acq, det_mask)` record. `reset` stops the acquisition and then forces the status to `Ready`.
- **`DetInfoCtrlObj`** (`PointGreyDetInfo`, detinfo.dfy) converts between the framework's image type and the camera's video mode. The conversion is partial and one-to-one: `Bpp8 ↔ Y8` and `Bpp16 ↔ Y16`. Any other value is ignored.
- **`VideoCtrlObj`** (`PointGreyVideo`, video.dfy) holds a live flag.
  - Switching live on sets the camera's frame target to 0 (the framework's value for no frame limit) and starts the acquisition.
  - Switching live off stops the acquisition.
  - It appends `Y8, Y16` to the caller's list of supported modes.
- **`SyncCtrlObj`** (`PointGreySync`, sync.dfy) accepts every trigger mode. It passes the trigger mode, the latency time and the frame count straight to the camera.

## How the model is built

The camera is a class with the source's fields. It also has a ghost `log`: every request that could affect the camera is appended to it, in the order the requests were made. The object invariant `Camera.Valid()` says that the camera's state is `Replay` of that log from the constructor's initial state.

Each mutating method states its whole new state and the requests it appends. For example, `VideoCtrlObj.SetLive(true)` appends `SetNbFrames(0)` and then `StartAcq`. `Interface.Reset` appends `StopAcq` and then `ForceStatus(Ready)`. The inductive lemmas about `Replay` then say what any sequence of calls can and cannot change:
- nothing ever writes the image number;
- the frame target is the last value set;
- the status is the last status forced;
- the video mode is the last mode set.

Types:
- The source's `int` is `int32`. Values are stored as given, so no wrap-around arises.
- `double` values (latency time, gain) are `real`. They are only passed along, never computed with.
- The framework's enumerations are defined in LImA, outside this driver. Each datatype keeps the values the code names, plus a few others so that the code's "any other value" branches can be reached.
- `det_mask` is a bitwise OR of distinct flags, modelled as a set of flags.

In this revision:
- `prepareAcq` does not reset the frame counter;
- no status transitions happen;
- the only status write is the forced `Ready` in `Interface::reset`.

The camera constructor's parameters also differ between files: src/PointGreyCamera.cpp takes `(camera_ip, packet_size)`, while include/PointGreyCamera.h declares `(camera_serial, packet_size, packet_delay)`. The model follows the .cpp.

## Model

| member | source | states |
|---|---|---|
| `PointGreyCamera.Camera.constructor` | src/PointGreyCamera.cpp:17-24 | The new camera has frame target 1, status Ready, image number 0, exposure time 1.0, latency time 0.0 and timeout 600000 ms. It stores the given IP and has an empty request log. |
| `PointGreyCamera.Camera.PrepareAcq` | src/PointGreyCamera.cpp:93-96 | Changes no field. It only records the request. |
| `PointGreyCamera.Camera.StartAcq` | src/PointGreyCamera.cpp:101-104 | Changes no field. It only records the request. |
| `PointGreyCamera.Camera.StopAcq` | src/PointGreyCamera.cpp:109-112 | Changes no field. It only records the request. |
| `PointGreyCamera.Camera.Reset` | src/PointGreyCamera.cpp:418-421 | Changes no field. It only records the request. |
| `PointGreyCamera.Camera.SetNbFrames` | src/PointGreyCamera.cpp:243-248 | Stores the target verbatim, with no validation. Every other field is unchanged. |
| `PointGreyCamera.Camera.GetNbFrames` | src/PointGreyCamera.cpp:253-258 | Returns the stored target. If no target was ever set, that is 1. |
| `PointGreyCamera.Camera.GetNbHwAcquiredFrames` | src/PointGreyCamera.cpp:263-267 | Returns the image-number field. Under the invariant that is always 0. |
| `PointGreyCamera.Camera.GetStatus` | src/PointGreyCamera.cpp:272-277 | Returns the stored status and changes nothing. If no status was ever forced, that is Ready. |
| `PointGreyCamera.Camera.ForceStatus` | include/PointGreyCamera.h:140 | Forced `_setStatus`: assigns the status and leaves every other field unchanged. |
| `PointGreyCamera.Camera.IsBinningAvailable` | src/PointGreyCamera.cpp:355-359 | Always returns false. |
| `PointGreyCamera.Camera.GetVideoMode` | src/PointGreyDetInfoCtrlObj.cpp:72-73 | Returns the camera's current video mode. |
| `PointGreyCamera.Camera.SetVideoMode` | src/PointGreyDetInfoCtrlObj.cpp:111 | Makes the given mode the camera's video mode. Every other field is unchanged. |
| `PointGreyCamera.Camera.SetTrigMode` | src/PointGreyCamera.cpp:170-174 | Accepts the mode, stores nothing and leaves the state unchanged. |
| `PointGreyCamera.Camera.GetTrigMode` | src/PointGreyCamera.cpp:179-183 | Does not write the output parameter, so the caller's value comes back. |
| `PointGreyCamera.Camera.SetLatTime` | src/PointGreyCamera.cpp:207-211 | Accepts the latency time, stores nothing and leaves the state unchanged. |
| `PointGreyCamera.Camera.GetLatTime` | src/PointGreyCamera.cpp:216-220 | Does not write the output parameter, so the caller's value comes back. |
| `PointGreyCamera.Camera.SetGain` | src/PointGreyCamera.cpp:391-395 | Accepts the gain, stores nothing and leaves the state unchanged. |
| `PointGreyCamera.Camera.GetGain` | src/PointGreyCamera.cpp:400-404 | Does not write the output parameter, so the caller's value comes back. |
| `PointGreyCamera.Camera.GetDetectorImageSize` | src/PointGreyCamera.cpp:117-121 | Does not write the output parameter, so the caller's value comes back. |
| `PointGreyCamera.ReplayKeepsUnwrittenFields` | src/PointGreyCamera.cpp:263-267 | For every sequence of requests, the image number, exposure time, latency time and timeout keep their values. |
| `PointGreyCamera.FrameTargetUnwritten` | src/PointGreyCamera.cpp:17-18 | If no SetNbFrames request is made, the frame target keeps its value. |
| `PointGreyCamera.FrameTargetLastWrite` | src/PointGreyCamera.cpp:243-258 | After any requests, the frame target equals the value of the last SetNbFrames. |
| `PointGreyCamera.StatusUnforced` | src/PointGreyCamera.cpp:19 | If no status is forced, the status keeps its value. |
| `PointGreyCamera.StatusLastForced` | include/PointGreyCamera.h:140 | After any requests, the status is the last status forced. |
| `PointGreyCamera.StatusStaysReady` | src/PointGreyInterface.cpp:73-79 | If every forced status is Ready (the only one this revision forces), a camera that starts Ready stays Ready. |
| `PointGreyCamera.VideoModeLastSet` | src/PointGreyVideoCtrlObj.cpp:55-60 | The video mode is the last mode set. If none was set, it is the initial mode. |
| `PointGreyInterface.HwStatusOf` | src/PointGreyInterface.cpp:116-138 | `det_mask` is always Exposure, Readout and Latency. `acq` is Running exactly for those three statuses, Ready exactly for Ready, and Fault exactly for Fault. `det` is DetFault exactly for Fault. |
| `PointGreyInterface.DetStatusRecoversStatus` | src/PointGreyInterface.cpp:118-136 | The reported `det` alone identifies the camera status, going through the independent inverse table `CameraStatusOf`. |
| `PointGreyInterface.DetStatusInjective` | src/PointGreyInterface.cpp:116-137 | Distinct camera statuses give distinct `det` values. |
| `PointGreyInterface.DetStatusInMask` | src/PointGreyInterface.cpp:118-138 | The reported `det` is one of the masked flags exactly when the acquisition is running. |
| `PointGreyInterface.Interface.constructor` | src/PointGreyInterface.cpp:37-49 | Builds the detector-info and sync objects on the same camera. The capability list becomes exactly [det-info, sync, camera buffer], in that order. |
| `PointGreyInterface.Interface.GetCapList` | src/PointGreyInterface.cpp:64-68 | Returns a list equal to the stored one, with those three entries in that order. The stored list is left unchanged. |
| `PointGreyInterface.Interface.Reset` | src/PointGreyInterface.cpp:73-79 | For either reset level, calls stopAcq and then forces Ready. The frame target and every other field are unchanged. |
| `PointGreyInterface.Interface.PrepareAcq` | src/PointGreyInterface.cpp:84-88 | Forwards to the camera, so the camera state is unchanged. |
| `PointGreyInterface.Interface.StartAcq` | src/PointGreyInterface.cpp:93-97 | Forwards to the camera, so the camera state is unchanged. |
| `PointGreyInterface.Interface.StopAcq` | src/PointGreyInterface.cpp:102-106 | Forwards to the camera, so the camera state is unchanged. |
| `PointGreyInterface.Interface.GetStatus` | src/PointGreyInterface.cpp:111-140 | Returns the mapping of the camera's status. While only Ready has ever been forced, that is DetIdle with AcqReady. |
| `PointGreyInterface.Interface.GetNbHwAcquiredFrames` | src/PointGreyInterface.cpp:145-151 | Returns the camera's acquired-frame count unchanged, which is 0. |
| `PointGreyDetInfo.TranslationsInverse` | src/PointGreyDetInfoCtrlObj.cpp:75-111 | The image-type→mode and mode→image-type conversions are mutually inverse, in both directions. |
| `PointGreyDetInfo.TranslationDomains` | src/PointGreyDetInfoCtrlObj.cpp:75-110 | Exactly Bpp8 and Bpp16 can be set. Exactly Y8 and Y16 can be reported. |
| `PointGreyDetInfo.DetInfoCtrlObj.constructor` | src/PointGreyDetInfoCtrlObj.cpp:32-36 | Keeps a reference to the given camera. |
| `PointGreyDetInfo.DetInfoCtrlObj.GetMaxImageSize` | src/PointGreyDetInfoCtrlObj.cpp:41-45 | Returns what the camera's size query returns, which is the caller's value unchanged. |
| `PointGreyDetInfo.DetInfoCtrlObj.GetDetectorImageSize` | src/PointGreyDetInfoCtrlObj.cpp:50-54 | Same query as GetMaxImageSize, so the two return the same size. |
| `PointGreyDetInfo.DetInfoCtrlObj.GetDefImageType` | src/PointGreyDetInfoCtrlObj.cpp:59-63 | Always returns Bpp16. |
| `PointGreyDetInfo.DetInfoCtrlObj.GetCurrImageType` | src/PointGreyDetInfoCtrlObj.cpp:68-88 | Maps Y8 to Bpp8 and Y16 to Bpp16. For any other mode, the output keeps the caller's value. |
| `PointGreyDetInfo.DetInfoCtrlObj.SetCurrImageType` | src/PointGreyDetInfoCtrlObj.cpp:93-112 | For Bpp8 or Bpp16, sets the camera to Y8 or Y16, after which the camera reports the type just set. For any other type there is no camera call and the camera is unchanged. |
| `PointGreySync.CheckTrigMode` | src/PointGreySyncCtrlObj.cpp:42-46 | Accepts every trigger mode. |
| `PointGreySync.SyncCtrlObj.constructor` | src/PointGreySyncCtrlObj.cpp:33-37 | Keeps a reference to the given camera. |
| `PointGreySync.SyncCtrlObj.SetTrigMode` | src/PointGreySyncCtrlObj.cpp:51-57 | Never raises InvalidValue. Forwards the mode unchanged to the camera. |
| `PointGreySync.SyncCtrlObj.GetTrigMode` | src/PointGreySyncCtrlObj.cpp:62-65 | Returns the camera's answer, which is the caller's value. |
| `PointGreySync.SyncCtrlObj.SetLatTime` | src/PointGreySyncCtrlObj.cpp:89-92 | Forwards the latency time to the camera with no unit conversion. |
| `PointGreySync.SyncCtrlObj.GetLatTime` | src/PointGreySyncCtrlObj.cpp:97-100 | Returns the camera's answer with no unit conversion. |
| `PointGreySync.SyncCtrlObj.SetNbHwFrames` | src/PointGreySyncCtrlObj.cpp:105-108 | Makes `n` the camera's frame target. Every other field is unchanged. |
| `PointGreySync.SyncCtrlObj.GetNbHwFrames` | src/PointGreySyncCtrlObj.cpp:113-116 | Returns the camera's frame target: the last count set, or 1 if none was. |
| `PointGreyVideo.VideoCtrlObj.constructor` | src/PointGreyVideoCtrlObj.cpp:32-38 | Starts with live off and registers itself as the camera's video object. |
| `PointGreyVideo.VideoCtrlObj.GetSupportedVideoMode` | src/PointGreyVideoCtrlObj.cpp:41-46 | Appends Y8 and then Y16 to the caller's list. The list keeps its old elements and grows by exactly 2. |
| `PointGreyVideo.SupportedModesTranslate` | src/PointGreyVideoCtrlObj.cpp:41-46 | A mode is offered for live video exactly when the detector-info object can report it as an image type. |
| `PointGreyVideo.VideoCtrlObj.GetVideoMode` | src/PointGreyVideoCtrlObj.cpp:48-53 | Returns the camera's video mode unchanged. |
| `PointGreyVideo.VideoCtrlObj.SetVideoMode` | src/PointGreyVideoCtrlObj.cpp:55-60 | Hands the mode to the camera unchanged. |
| `PointGreyVideo.VideoCtrlObj.GetLive` | src/PointGreyVideoCtrlObj.cpp:62-67 | Returns the live flag. |
| `PointGreyVideo.VideoCtrlObj.SetLive` | src/PointGreyVideoCtrlObj.cpp:69-80 | Afterwards `live == b`. If `b` is true, it sets the frame target to 0 and then starts the acquisition. If `b` is false, it only stops the acquisition and the frame target is unchanged. |
| `PointGreyVideo.VideoCtrlObj.GetGain` | src/PointGreyVideoCtrlObj.cpp:82-87 | Returns the camera's answer, which is the caller's value. |
| `PointGreyVideo.VideoCtrlObj.SetGain` | src/PointGreyVideoCtrlObj.cpp:89-94 | Hands the gain to the camera unchanged. |

## Left out

- Camera construction as written never returns normally. Line 42 of src/PointGreyCamera.cpp throws when `nCameras > 0`, that is, when a camera is found. Lines 59-62 throw whatever `GetCameraInfo` returns, because no `if` guards them. The model instead assumes a successful construction with the initializer-list values of lines 17-24.
- The rest of the constructor's device work is not modelled: bus enumeration, connection, camera information and the printed banner (src/PointGreyCamera.cpp:28-79). It is foreign SDK I/O.
- Nothing in the driver's files sets the video mode initially, and `Camera::getVideoMode` is neither declared nor defined there. Its initial value is therefore a constructor parameter.
- The destructors. They only free memory.
- The acquisition thread, its mutex and condition variable, the non-forced (sticky-fault) case of `_setStatus`, image-settings application and the 16-bit register fix-up. They are declared in include/PointGreyCamera.h:129-158, but their bodies are not part of this model.
- The bodies of `Camera::getVideoMode` / `setVideoMode` are not part of this model. The video mode is a plain field they read and write.
- The camera's logging-only stubs not used by a modelled adapter call: ROI, binning, image type, exposure time and its ranges, frame rate, timeout, auto gain, packet delays, detector type and model. They store nothing, so there is nothing to state beyond "no effect".
- Exposure-time conversion (×1E3 / ×1E-3) and the valid-range query in the sync object. This is floating-point scaling of values the stubbed camera never writes.
- Pixel size (a float constant placeholder), detector type and model queries, and max-image-size callback registration in the detector-info object. They delegate to stubs or to framework types.
- The buffer control object behind `getBufferCtrlObj`. The capability list holds a tag for the camera's buffer, not the framework object.
- The `DEB_*` logging macros.
- test/PgTest.cpp and test/pgtest.py drive real hardware and are not modelled.
