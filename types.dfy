/** Value types shared by the PointGrey camera and its control objects. The
    framework's enumerations are defined in LImA, outside this driver; each one
    keeps the values the camera code names, and a few others so that the
    "every other value" branches of the code are reachable. */
module PointGreyTypes {

  /** The source's `int` (32 bits). */
  newtype int32 = x: int | -0x8000_0000 <= x < 0x8000_0000

  datatype Option<T> = None | Some(value: T)

  /** The framework's hardware error kinds that this code raises. */
  datatype HwError = InvalidValue

  /** Result of a call that either succeeds or raises a hardware error. */
  datatype Outcome = Pass | Fail(error: HwError)

  /** Camera::Status: the five states of the acquisition state machine. */
  datatype Status = Ready | Exposure | Readout | Latency | Fault

  /** Pixel depth of the frames handed to the framework. */
  datatype ImageType = Bpp8 | Bpp8S | Bpp10 | Bpp10S | Bpp12 | Bpp12S | Bpp14 | Bpp14S
                     | Bpp16 | Bpp16S | Bpp32 | Bpp32S

  /** Pixel format of the live-video path. */
  datatype VideoMode = Y8 | Y16 | Y32 | Y64 | RGB555 | RGB565 | RGB24 | RGB32
                     | BGR24 | BGR32 | BAYER_RG8 | BAYER_RG16 | I420 | YUV411 | YUV422 | YUV444

  /** Trigger modes of the framework's synchronisation interface. */
  datatype TrigMode = IntTrig | IntTrigMult | ExtTrigSingle | ExtTrigMult | ExtGate
                    | ExtStartStop | ExtTrigReadout

  /** Detector-level status flags; a mask of them is a set. */
  datatype DetStatus = DetIdle | DetFault | DetExposure | DetReadout | DetLatency

  /** Acquisition-level status reported to the framework. */
  datatype AcqStatus = AcqReady | AcqRunning | AcqFault

  /** Width and height of an image, in pixels. */
  datatype Size = Size(width: int32, height: int32)
}
