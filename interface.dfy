/** The hardware interface (src/PointGreyInterface.cpp): the object the
    framework talks to. It owns the detector-information and synchronisation
    control objects, publishes them with the camera's buffer as its capability
    list, forwards the acquisition calls, and translates the camera status into
    the framework's status record. */
module PointGreyInterface {
  import opened PointGreyTypes
  import opened PointGreyCamera
  import opened PointGreyDetInfo
  import opened PointGreySync

  /** The framework's status record: detector status, acquisition status and
      the mask of detector flags that are meaningful. */
  datatype StatusType = StatusType(det: DetStatus, acq: AcqStatus, detMask: set<DetStatus>)

  /** A capability published to the framework. */
  datatype HwCap =
    | DetInfoCap(detInfo: DetInfoCtrlObj)
    | SyncCap(sync: SyncCtrlObj)
    | BufferCap(owner: Camera)  // the camera's own buffer control object

  datatype ResetLevel = SoftReset | HardReset

  /** DetExposure|DetReadout|DetLatency. */
  const StatusMask: set<DetStatus> := {DetExposure, DetReadout, DetLatency}

  /** The framework status for a camera status. The mask never depends on the
      camera; the acquisition is running exactly in the three busy states, ready
      exactly when the camera is Ready, and faulty exactly on Fault. */
  function HwStatusOf(s: Status): (r: StatusType)
    ensures r.detMask == StatusMask
    ensures r.acq == AcqRunning <==> s == Exposure || s == Readout || s == Latency
    ensures r.acq == AcqReady <==> s == Ready
    ensures r.acq == AcqFault <==> s == Fault
    ensures r.det == DetFault <==> s == Fault
  {
    match s
    case Ready => StatusType(DetIdle, AcqReady, StatusMask)
    case Exposure => StatusType(DetExposure, AcqRunning, StatusMask)
    case Readout => StatusType(DetReadout, AcqRunning, StatusMask)
    case Latency => StatusType(DetLatency, AcqRunning, StatusMask)
    case Fault => StatusType(DetFault, AcqFault, StatusMask)
  }

  /** The camera status a detector status comes from; an independent statement
      of which detector status each camera status is reported as. */
  function CameraStatusOf(det: DetStatus): Option<Status> {
    match det
    case DetIdle => Some(Ready)
    case DetExposure => Some(Exposure)
    case DetReadout => Some(Readout)
    case DetLatency => Some(Latency)
    case DetFault => Some(Fault)
  }

  /** The detector status alone recovers the camera status, so distinct camera
      statuses are reported with distinct detector statuses. */
  lemma DetStatusRecoversStatus(s: Status)
    ensures CameraStatusOf(HwStatusOf(s).det) == Some(s)
  {
  }

  lemma DetStatusInjective(s1: Status, s2: Status)
    ensures HwStatusOf(s1).det == HwStatusOf(s2).det ==> s1 == s2
  {
    DetStatusRecoversStatus(s1);
    DetStatusRecoversStatus(s2);
  }

  /** The reported detector status is never outside the mask except for the
      idle and fault states. */
  lemma DetStatusInMask(s: Status)
    ensures HwStatusOf(s).det in StatusMask <==> HwStatusOf(s).acq == AcqRunning
  {
  }

  class Interface {
    const cam: Camera
    const detInfo: DetInfoCtrlObj
    const sync: SyncCtrlObj
    var capList: seq<HwCap>

    /** Both control objects wrap this interface's camera, and the capability
        list is detector information, synchronisation, buffer, in that order. */
    ghost predicate Valid()
      reads this
    {
      && detInfo.cam == cam
      && sync.cam == cam
      && capList == [DetInfoCap(detInfo), SyncCap(sync), BufferCap(cam)]
    }

    constructor (cam: Camera)
      ensures Valid() && this.cam == cam
      ensures fresh(detInfo) && fresh(sync)
    {
      this.cam := cam;
      detInfo := new DetInfoCtrlObj(cam);
      sync := new SyncCtrlObj(cam);
      capList := [];
      new;
      capList := capList + [DetInfoCap(detInfo)];
      capList := capList + [SyncCap(sync)];
      capList := capList + [BufferCap(cam)];
    }

    /** A copy of the capability list; the stored list is not touched. */
    method GetCapList() returns (caps: seq<HwCap>)
      requires Valid()
      ensures caps == capList
      ensures |caps| == 3
      ensures caps[0] == DetInfoCap(detInfo) && caps[1] == SyncCap(sync) && caps[2] == BufferCap(cam)
    {
      caps := capList;
    }

    /** Whatever the level: stop the acquisition, then force the camera Ready. */
    method Reset(level: ResetLevel)
      requires cam.Valid()
      modifies cam`status, cam`log
      ensures cam.Valid() && cam.status == Ready
      ensures cam.State() == old(cam.State()).(status := Ready)
      ensures cam.log == old(cam.log) + [Request.StopAcq, Request.ForceStatus(Ready)]
    {
      StopAcq();
      cam.ForceStatus(Ready);
    }

    method PrepareAcq()
      requires cam.Valid()
      modifies cam`log
      ensures cam.Valid() && cam.State() == old(cam.State())
      ensures cam.log == old(cam.log) + [Request.PrepareAcq]
    {
      cam.PrepareAcq();
    }

    method StartAcq()
      requires cam.Valid()
      modifies cam`log
      ensures cam.Valid() && cam.State() == old(cam.State())
      ensures cam.log == old(cam.log) + [Request.StartAcq]
    {
      cam.StartAcq();
    }

    method StopAcq()
      requires cam.Valid()
      modifies cam`log
      ensures cam.Valid() && cam.State() == old(cam.State())
      ensures cam.log == old(cam.log) + [Request.StopAcq]
    {
      cam.StopAcq();
    }

    /** The camera status as the framework sees it; while no status other than
        Ready has been forced, that is idle and ready. */
    method GetStatus() returns (st: StatusType)
      requires cam.Valid()
      ensures st == HwStatusOf(cam.status)
      ensures (forall j :: 0 <= j < |cam.log| && cam.log[j].ForceStatus? ==> cam.log[j].forced == Ready) ==>
                st.det == DetIdle && st.acq == AcqReady
    {
      var s := cam.GetStatus();
      st := HwStatusOf(s);
      if forall j :: 0 <= j < |cam.log| && cam.log[j].ForceStatus? ==> cam.log[j].forced == Ready {
        StatusStaysReady(InitialState(cam.initialMode), cam.log);
      }
    }

    /** The camera's acquired-frame count, which stays 0 in this revision. */
    method GetNbHwAcquiredFrames() returns (n: int32)
      requires cam.Valid()
      ensures n == cam.imageNumber && n == 0
    {
      n := cam.GetNbHwAcquiredFrames();
    }
  }
}
