/** The synchronisation control object (src/PointGreySyncCtrlObj.cpp): trigger
    mode, latency time and frame count, each handed to the camera as it is. */
module PointGreySync {
  import opened PointGreyTypes
  import opened PointGreyCamera

  /** Every trigger mode is accepted. */
  function CheckTrigMode(mode: TrigMode): (accepted: bool)
    ensures accepted
  {
    true
  }

  class SyncCtrlObj {
    const cam: Camera

    constructor (cam: Camera)
      ensures this.cam == cam
    {
      this.cam := cam;
    }

    /** Raises InvalidValue for a rejected mode, which never happens; the mode
        reaches the camera unchanged. */
    method SetTrigMode(mode: TrigMode) returns (res: Outcome)
      requires cam.Valid()
      modifies cam`log
      ensures cam.Valid() && res == Pass
      ensures cam.State() == old(cam.State())
      ensures cam.log == old(cam.log) + [Request.SetTrigMode(mode)]
    {
      if !CheckTrigMode(mode) {
        return Fail(InvalidValue);
      }
      cam.SetTrigMode(mode);
      res := Pass;
    }

    method GetTrigMode(current: TrigMode) returns (mode: TrigMode)
      ensures mode == current
    {
      mode := cam.GetTrigMode(current);
    }

    /** The latency time reaches the camera with no change of unit. */
    method SetLatTime(lat: real)
      requires cam.Valid()
      modifies cam`log
      ensures cam.Valid() && cam.State() == old(cam.State())
      ensures cam.log == old(cam.log) + [Request.SetLatTime(lat)]
    {
      cam.SetLatTime(lat);
    }

    method GetLatTime(current: real) returns (lat: real)
      ensures lat == current
    {
      lat := cam.GetLatTime(current);
    }

    /** The frame count becomes the camera's frame target. */
    method SetNbHwFrames(n: int32)
      requires cam.Valid()
      modifies cam`nbFrames, cam`log
      ensures cam.Valid() && cam.nbFrames == n
      ensures cam.State() == old(cam.State()).(nbFrames := n)
      ensures cam.log == old(cam.log) + [Request.SetNbFrames(n)]
    {
      cam.SetNbFrames(n);
    }

    /** The camera's frame target: the last count set, or 1 if none was. */
    method GetNbHwFrames() returns (n: int32)
      requires cam.Valid()
      ensures n == cam.nbFrames
      ensures forall i :: (0 <= i < |cam.log| && cam.log[i].SetNbFrames? &&
                           (forall j :: i < j < |cam.log| ==> !cam.log[j].SetNbFrames?)) ==>
                n == cam.log[i].frames
      ensures (forall j :: 0 <= j < |cam.log| ==> !cam.log[j].SetNbFrames?) ==> n == 1
    {
      n := cam.GetNbFrames();
      forall i | 0 <= i < |cam.log| && cam.log[i].SetNbFrames? &&
                 (forall j :: i < j < |cam.log| ==> !cam.log[j].SetNbFrames?)
        ensures n == cam.log[i].frames
      {
        FrameTargetLastWrite(InitialState(cam.initialMode), cam.log, i);
      }
    }
  }
}
