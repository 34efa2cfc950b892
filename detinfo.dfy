/** The detector-information control object (src/PointGreyDetInfoCtrlObj.cpp):
    it reports the camera's image type by translating the camera's video mode,
    and sets it by translating back. Only Y8 and Y16 (Bpp8 and Bpp16) are
    translated; every other value is ignored. */
module PointGreyDetInfo {
  import opened PointGreyTypes
  import opened PointGreyCamera

  /** The image type a video mode stands for, if it has one. */
  function ImageTypeOf(mode: VideoMode): Option<ImageType> {
    match mode
    case Y8 => Some(Bpp8)
    case Y16 => Some(Bpp16)
    case _ => None
  }

  /** The video mode an image type is set through, if it has one. */
  function VideoModeOf(t: ImageType): Option<VideoMode> {
    match t
    case Bpp8 => Some(Y8)
    case Bpp16 => Some(Y16)
    case _ => None
  }

  /** The two translations are inverse to each other on the pairs they do
      translate, in both directions. */
  lemma TranslationsInverse(t: ImageType, mode: VideoMode)
    ensures VideoModeOf(t) == Some(mode) <==> ImageTypeOf(mode) == Some(t)
  {
  }

  /** Exactly Bpp8 and Bpp16 are settable, and exactly Y8 and Y16 are
      reportable. */
  lemma TranslationDomains(t: ImageType, mode: VideoMode)
    ensures VideoModeOf(t).Some? <==> t == Bpp8 || t == Bpp16
    ensures ImageTypeOf(mode).Some? <==> mode == Y8 || mode == Y16
  {
  }

  class DetInfoCtrlObj {
    const cam: Camera

    constructor (cam: Camera)
      ensures this.cam == cam
    {
      this.cam := cam;
    }

    /** Both size queries ask the camera the same question. */
    method GetMaxImageSize(current: Size) returns (size: Size)
      ensures size == current
    {
      size := cam.GetDetectorImageSize(current);
    }

    method GetDetectorImageSize(current: Size) returns (size: Size)
      ensures size == current
    {
      size := cam.GetDetectorImageSize(current);
    }

    /** The default image type does not depend on the camera. */
    method GetDefImageType() returns (t: ImageType)
      ensures t == Bpp16
    {
      t := Bpp16;
    }

    /** For Y8 and Y16 the matching type; for any other mode the caller's
        variable is left as it was (`current`). */
    method GetCurrImageType(current: ImageType) returns (t: ImageType)
      ensures cam.videoMode == Y8 ==> t == Bpp8
      ensures cam.videoMode == Y16 ==> t == Bpp16
      ensures cam.videoMode != Y8 && cam.videoMode != Y16 ==> t == current
      ensures ImageTypeOf(cam.videoMode).Some? ==> ImageTypeOf(cam.videoMode) == Some(t)
    {
      var mode := cam.GetVideoMode();
      match mode {
        case Y8 =>
          t := Bpp8;
        case Y16 =>
          t := Bpp16;
        case _ =>
          t := current;
      }
    }

    /** Bpp8 and Bpp16 set the camera to Y8 and Y16, after which the camera
        reports the type just set; any other type makes no camera call. */
    method SetCurrImageType(t: ImageType)
      requires cam.Valid()
      modifies cam`videoMode, cam`log
      ensures cam.Valid()
      ensures t == Bpp8 ==> cam.videoMode == Y8
      ensures t == Bpp16 ==> cam.videoMode == Y16
      ensures VideoModeOf(t).Some? ==>
                cam.State() == old(cam.State()).(videoMode := VideoModeOf(t).value) &&
                cam.log == old(cam.log) + [Request.SetVideoMode(VideoModeOf(t).value)] &&
                ImageTypeOf(cam.videoMode) == Some(t)
      ensures VideoModeOf(t).None? ==> cam.State() == old(cam.State()) && cam.log == old(cam.log)
    {
      var mode: VideoMode;
      match t {
        case Bpp8 =>
          mode := Y8;
        case Bpp16 =>
          mode := Y16;
        case _ =>
          return;
      }
      cam.SetVideoMode(mode);
    }
  }
}
