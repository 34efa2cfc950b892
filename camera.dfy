/** The PointGrey camera object (src/PointGreyCamera.cpp). In this revision it
    keeps a frame-count target, a status and an acquired-frame counter; the
    acquisition calls and most property accessors do nothing yet.

    Every request that could affect the camera is appended to a ghost `log`,
    and the object invariant says that the camera's state is the replay of that
    log from the state the constructor sets up. The lemmas about `Replay` then
    say what any sequence of calls can and cannot change. */
module PointGreyCamera {
  import opened PointGreyTypes

  /** DEFAULT_TIME_OUT, in milliseconds (10 minutes). */
  const DefaultTimeOut: int32 := 600000

  /** A request made to the camera by its owner or by a control object. */
  datatype Request =
    | PrepareAcq
    | StartAcq
    | StopAcq
    | Reset
    | SetNbFrames(frames: int32)
    | ForceStatus(forced: Status)
    | SetVideoMode(mode: VideoMode)
    | SetTrigMode(trigMode: TrigMode)
    | SetLatTime(lat: real)
    | SetGain(gain: real)

  /** The camera's fields as one value. */
  datatype CameraState = CameraState(
    nbFrames: int32,
    status: Status,
    imageNumber: int32,
    videoMode: VideoMode,
    expTime: real,
    latTime: real,
    timeout: int32)

  /** The state the constructor sets up, for a given initial video mode. */
  function InitialState(mode: VideoMode): CameraState {
    CameraState(1, Ready, 0, mode, 1.0, 0.0, DefaultTimeOut)
  }

  /** The effect of one request: only the frame target, the forced status and
      the video mode are ever written; every other request leaves the state as
      it was. */
  function Apply(s: CameraState, r: Request): CameraState {
    match r
    case SetNbFrames(n) => s.(nbFrames := n)
    case ForceStatus(st) => s.(status := st)
    case SetVideoMode(m) => s.(videoMode := m)
    case _ => s
  }

  /** The state reached from `s` by the requests `ops`, in order. */
  function Replay(s: CameraState, ops: seq<Request>): CameraState {
    if |ops| == 0 then s else Apply(Replay(s, ops[..|ops| - 1]), ops[|ops| - 1])
  }

  lemma ReplayAppend(s: CameraState, ops: seq<Request>, r: Request)
    ensures Replay(s, ops + [r]) == Apply(Replay(s, ops), r)
  {
    assert (ops + [r])[..|ops|] == ops;
  }

  /** No request writes the image number, the exposure time, the latency time
      or the timeout: whatever the calls, they keep their values. */
  lemma {:induction false} ReplayKeepsUnwrittenFields(s: CameraState, ops: seq<Request>)
    ensures Replay(s, ops).imageNumber == s.imageNumber
    ensures Replay(s, ops).expTime == s.expTime
    ensures Replay(s, ops).latTime == s.latTime
    ensures Replay(s, ops).timeout == s.timeout
  {
    if |ops| > 0 {
      ReplayKeepsUnwrittenFields(s, ops[..|ops| - 1]);
    }
  }

  /** Without a SetNbFrames request the frame target stays what it was. */
  lemma {:induction false} FrameTargetUnwritten(s: CameraState, ops: seq<Request>)
    requires forall j :: 0 <= j < |ops| ==> !ops[j].SetNbFrames?
    ensures Replay(s, ops).nbFrames == s.nbFrames
  {
    if |ops| > 0 {
      FrameTargetUnwritten(s, ops[..|ops| - 1]);
    }
  }

  /** The frame target is the value of the last SetNbFrames request, stored
      verbatim. */
  lemma {:induction false} FrameTargetLastWrite(s: CameraState, ops: seq<Request>, i: nat)
    requires i < |ops| && ops[i].SetNbFrames?
    requires forall j :: i < j < |ops| ==> !ops[j].SetNbFrames?
    ensures Replay(s, ops).nbFrames == ops[i].frames
  {
    if i < |ops| - 1 {
      FrameTargetLastWrite(s, ops[..|ops| - 1], i);
    }
  }

  /** Without a forced status the status stays what it was. */
  lemma {:induction false} StatusUnforced(s: CameraState, ops: seq<Request>)
    requires forall j :: 0 <= j < |ops| ==> !ops[j].ForceStatus?
    ensures Replay(s, ops).status == s.status
  {
    if |ops| > 0 {
      StatusUnforced(s, ops[..|ops| - 1]);
    }
  }

  /** The status is the last one forced. */
  lemma {:induction false} StatusLastForced(s: CameraState, ops: seq<Request>, i: nat)
    requires i < |ops| && ops[i].ForceStatus?
    requires forall j :: i < j < |ops| ==> !ops[j].ForceStatus?
    ensures Replay(s, ops).status == ops[i].forced
  {
    if i < |ops| - 1 {
      StatusLastForced(s, ops[..|ops| - 1], i);
    }
  }

  /** When every forced status is Ready (the only one the hardware interface
      forces), a camera that starts Ready is Ready after any calls. */
  lemma {:induction false} StatusStaysReady(s: CameraState, ops: seq<Request>)
    requires s.status == Ready
    requires forall j :: 0 <= j < |ops| && ops[j].ForceStatus? ==> ops[j].forced == Ready
    ensures Replay(s, ops).status == Ready
  {
    if |ops| > 0 {
      StatusStaysReady(s, ops[..|ops| - 1]);
    }
  }

  /** The video mode is the one last set, or the initial one if none was. */
  lemma {:induction false} VideoModeLastSet(s: CameraState, ops: seq<Request>)
    ensures (forall j :: 0 <= j < |ops| ==> !ops[j].SetVideoMode?) ==>
              Replay(s, ops).videoMode == s.videoMode
    ensures forall i :: 0 <= i < |ops| && ops[i].SetVideoMode? &&
                        (forall j :: i < j < |ops| ==> !ops[j].SetVideoMode?) ==>
              Replay(s, ops).videoMode == ops[i].mode
  {
    if |ops| > 0 {
      VideoModeLastSet(s, ops[..|ops| - 1]);
      assert forall j :: 0 <= j < |ops| - 1 ==> ops[..|ops| - 1][j] == ops[j];
    }
  }

  class Camera {
    const cameraIp: string
    var nbFrames: int32
    var status: Status
    var imageNumber: int32
    /** Stands for the device's pixel format behind getVideoMode/setVideoMode,
        whose bodies are not part of this model. */
    var videoMode: VideoMode
    var expTime: real
    var latTime: real
    var timeout: int32
    /** Back-link set by the video control object (m_video). */
    var video: object?

    ghost const initialMode: VideoMode
    ghost var log: seq<Request>

    function State(): CameraState
      reads this
    {
      CameraState(nbFrames, status, imageNumber, videoMode, expTime, latTime, timeout)
    }

    /** The state is the replay of every request made since construction. */
    ghost predicate Valid()
      reads this
    {
      State() == Replay(InitialState(initialMode), log)
    }

    /** A successful construction with the initializer-list values; the device
        connection is not modelled. `packetSize` is unused, as in the source.
        Nothing in the driver sets the video mode, so its value `mode` is given. */
    constructor (cameraIp: string, packetSize: int32, mode: VideoMode)
      ensures Valid() && log == [] && video == null && this.cameraIp == cameraIp
      ensures nbFrames == 1 && status == Ready && imageNumber == 0
      ensures expTime == 1.0 && latTime == 0.0 && timeout == DefaultTimeOut
      ensures videoMode == mode
    {
      this.cameraIp := cameraIp;
      nbFrames := 1;
      status := Ready;
      imageNumber := 0;
      videoMode := mode;
      expTime := 1.0;
      latTime := 0.0;
      timeout := DefaultTimeOut;
      video := null;
      initialMode := mode;
      log := [];
    }

    ghost method Record(r: Request)
      requires State() == Apply(Replay(InitialState(initialMode), log), r)
      modifies this`log
      ensures Valid() && log == old(log) + [r]
    {
      ReplayAppend(InitialState(initialMode), log, r);
      log := log + [r];
    }

    method PrepareAcq()
      requires Valid()
      modifies this`log
      ensures Valid() && State() == old(State())
      ensures log == old(log) + [Request.PrepareAcq]
    {
      Record(Request.PrepareAcq);
    }

    method StartAcq()
      requires Valid()
      modifies this`log
      ensures Valid() && State() == old(State())
      ensures log == old(log) + [Request.StartAcq]
    {
      Record(Request.StartAcq);
    }

    method StopAcq()
      requires Valid()
      modifies this`log
      ensures Valid() && State() == old(State())
      ensures log == old(log) + [Request.StopAcq]
    {
      Record(Request.StopAcq);
    }

    method Reset()
      requires Valid()
      modifies this`log
      ensures Valid() && State() == old(State())
      ensures log == old(log) + [Request.Reset]
    {
      Record(Request.Reset);
    }

    /** Stores the target as given, without any check. */
    method SetNbFrames(n: int32)
      requires Valid()
      modifies this`nbFrames, this`log
      ensures Valid() && nbFrames == n
      ensures State() == old(State()).(nbFrames := n)
      ensures log == old(log) + [Request.SetNbFrames(n)]
    {
      nbFrames := n;
      Record(Request.SetNbFrames(n));
    }

    /** The stored target; 1 unless some SetNbFrames request has been made. */
    method GetNbFrames() returns (n: int32)
      requires Valid()
      ensures n == nbFrames
      ensures (forall j :: 0 <= j < |log| ==> !log[j].SetNbFrames?) ==> n == 1
    {
      n := nbFrames;
      if forall j :: 0 <= j < |log| ==> !log[j].SetNbFrames? {
        FrameTargetUnwritten(InitialState(initialMode), log);
      }
    }

    /** The image-number field, which no call of this revision advances. */
    method GetNbHwAcquiredFrames() returns (n: int32)
      requires Valid()
      ensures n == imageNumber && n == 0
    {
      ReplayKeepsUnwrittenFields(InitialState(initialMode), log);
      n := imageNumber;
    }

    /** The stored status; Ready unless some status has been forced. */
    method GetStatus() returns (s: Status)
      requires Valid()
      ensures s == status
      ensures (forall j :: 0 <= j < |log| ==> !log[j].ForceStatus?) ==> s == Ready
    {
      s := status;
      if forall j :: 0 <= j < |log| ==> !log[j].ForceStatus? {
        StatusUnforced(InitialState(initialMode), log);
      }
    }

    /** The forced branch of _setStatus: a plain assignment. */
    method ForceStatus(s: Status)
      requires Valid()
      modifies this`status, this`log
      ensures Valid() && status == s
      ensures State() == old(State()).(status := s)
      ensures log == old(log) + [Request.ForceStatus(s)]
    {
      status := s;
      Record(Request.ForceStatus(s));
    }

    /** isBinnigAvailable in the source. */
    method IsBinningAvailable() returns (available: bool)
      ensures !available
    {
      available := false;
    }

    method GetVideoMode() returns (mode: VideoMode)
      ensures mode == videoMode
    {
      mode := videoMode;
    }

    method SetVideoMode(mode: VideoMode)
      requires Valid()
      modifies this`videoMode, this`log
      ensures Valid() && videoMode == mode
      ensures State() == old(State()).(videoMode := mode)
      ensures log == old(log) + [Request.SetVideoMode(mode)]
    {
      videoMode := mode;
      Record(Request.SetVideoMode(mode));
    }

    /** Accepts the mode and stores nothing. */
    method SetTrigMode(mode: TrigMode)
      requires Valid()
      modifies this`log
      ensures Valid() && State() == old(State())
      ensures log == old(log) + [Request.SetTrigMode(mode)]
    {
      Record(Request.SetTrigMode(mode));
    }

    /** Writes nothing into the caller's variable, which keeps `current`. */
    method GetTrigMode(current: TrigMode) returns (mode: TrigMode)
      ensures mode == current
    {
      mode := current;
    }

    /** Accepts the latency time and stores nothing. */
    method SetLatTime(lat: real)
      requires Valid()
      modifies this`log
      ensures Valid() && State() == old(State())
      ensures log == old(log) + [Request.SetLatTime(lat)]
    {
      Record(Request.SetLatTime(lat));
    }

    /** Writes nothing into the caller's variable, which keeps `current`. */
    method GetLatTime(current: real) returns (lat: real)
      ensures lat == current
    {
      lat := current;
    }

    /** Accepts the gain and stores nothing. */
    method SetGain(gain: real)
      requires Valid()
      modifies this`log
      ensures Valid() && State() == old(State())
      ensures log == old(log) + [Request.SetGain(gain)]
    {
      Record(Request.SetGain(gain));
    }

    /** Writes nothing into the caller's variable, which keeps `current`. */
    method GetGain(current: real) returns (gain: real)
      ensures gain == current
    {
      gain := current;
    }

    /** Writes nothing into the caller's variable, which keeps `current`. */
    method GetDetectorImageSize(current: Size) returns (size: Size)
      ensures size == current
    {
      size := current;
    }
  }
}
