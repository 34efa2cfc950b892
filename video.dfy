/** The video control object (src/PointGreyVideoCtrlObj.cpp): a live flag that
    starts (with no frame limit) or stops the acquisition, the list of supported modes, and
    video mode and gain handed to and from the camera. */
module PointGreyVideo {
  import opened PointGreyTypes
  import opened PointGreyCamera
  import opened PointGreyDetInfo

  /** The modes this camera offers for live video, in the order it lists them. */
  const SupportedModes: seq<VideoMode> := [Y8, Y16]

  /** Every mode offered for live video is one the detector-information object
      can report as an image type, and no other mode is. */
  lemma SupportedModesTranslate(mode: VideoMode)
    ensures mode in SupportedModes <==> ImageTypeOf(mode).Some?
  {
  }

  /** The caller's mode list, which getSupportedVideoMode appends to. */
  class VideoModeList {
    var modes: seq<VideoMode>

    constructor (modes: seq<VideoMode>)
      ensures this.modes == modes
    {
      this.modes := modes;
    }

    method PushBack(mode: VideoMode)
      modifies this
      ensures modes == old(modes) + [mode]
    {
      modes := modes + [mode];
    }
  }

  class VideoCtrlObj {
    const cam: Camera
    var live: bool

    /** Starts with live off and registers itself with the camera. */
    constructor (cam: Camera)
      modifies cam`video
      ensures this.cam == cam && !live && cam.video == this
    {
      this.cam := cam;
      live := false;
      new;
      cam.video := this;
    }

    /** Appends Y8 and then Y16 to the caller's list, keeping what was there. */
    method GetSupportedVideoMode(list: VideoModeList)
      modifies list
      ensures list.modes == old(list.modes) + SupportedModes
      ensures |list.modes| == |old(list.modes)| + 2
      ensures list.modes[..|old(list.modes)|] == old(list.modes)
      ensures list.modes[|old(list.modes)|] == Y8 && list.modes[|old(list.modes)| + 1] == Y16
    {
      list.PushBack(Y8);
      list.PushBack(Y16);
    }

    method GetVideoMode() returns (mode: VideoMode)
      ensures mode == cam.videoMode
    {
      mode := cam.GetVideoMode();
    }

    method SetVideoMode(mode: VideoMode)
      requires cam.Valid()
      modifies cam`videoMode, cam`log
      ensures cam.Valid() && cam.videoMode == mode
      ensures cam.State() == old(cam.State()).(videoMode := mode)
      ensures cam.log == old(cam.log) + [Request.SetVideoMode(mode)]
    {
      cam.SetVideoMode(mode);
    }

    method GetLive() returns (b: bool)
      ensures b == live
    {
      b := live;
    }

    /** Switching live on first makes the camera's frame target 0 (the
        framework's value for no frame limit) and then starts the acquisition;
        switching it off only stops the acquisition and leaves the frame target
        alone. */
    method SetLive(b: bool)
      requires cam.Valid()
      modifies this, cam`nbFrames, cam`log
      ensures cam.Valid() && live == b
      ensures b ==> cam.State() == old(cam.State()).(nbFrames := 0) &&
                    cam.log == old(cam.log) + [Request.SetNbFrames(0), Request.StartAcq]
      ensures !b ==> cam.State() == old(cam.State()) &&
                     cam.log == old(cam.log) + [Request.StopAcq]
    {
      live := b;
      if b {
        cam.SetNbFrames(0);
        cam.StartAcq();
      } else {
        cam.StopAcq();
      }
    }

    /** The camera writes nothing, so the caller's variable keeps `current`. */
    method GetGain(current: real) returns (gain: real)
      ensures gain == current
    {
      gain := cam.GetGain(current);
    }

    method SetGain(gain: real)
      requires cam.Valid()
      modifies cam`log
      ensures cam.Valid() && cam.State() == old(cam.State())
      ensures cam.log == old(cam.log) + [Request.SetGain(gain)]
    {
      cam.SetGain(gain);
    }
  }
}
