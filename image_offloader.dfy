/** The ImageOffloader component: it keeps the selected transformation, the
    camera texture and the text of its two labels, and on every camera frame
    converts the latest camera image into the texture. */
module Offloader {
  import Transformations
  import opened Camera

  /** What a label shows: nothing written yet, or a value rendered as text. */
  datatype Label<T> = Unset | Shown(value: T)

  /** How one UpdateCameraImage call ends: no image could be acquired (an
      early return), the info label is missing (a null dereference throws
      before the conversion starts), the conversion returned, or the
      conversion threw (the exception leaves the method after the image has
      been disposed). */
  datatype UpdateOutcome = NoImage | InfoLabelMissing | Converted | ConvertThrew

  /** A texture that UpdateCameraImage keeps for an image: one that exists and
      has the image's width and height. Its raw data then holds exactly the
      image's pixels in its format. */
  predicate Fits(texture: Texture?, info: ImageInfo): (r: bool)
    ensures r ==>
      && texture != null
      && texture.RawDataLength() == info.width * info.height * BytesPerPixel(texture.format)
  {
    texture != null && texture.width == info.width && texture.height == info.height
  }

  class ImageOffloader {
    const cameraManager: CameraManager
    /** Whether a transformation button is wired up (m_TransformationButton). */
    const hasTransformationButton: bool
    /** Whether the info label is wired up (m_ImageInfo). */
    const hasInfoLabel: bool

    /** m_Transformation. */
    var transformation: Transformations.Transformation
    /** The transformation whose name the button's label shows. */
    var buttonLabel: Label<Transformations.Transformation>
    /** The image whose width, height, plane count, timestamp and format the
        info label shows. */
    var infoLabel: Label<ImageInfo>
    /** m_CameraTexture. */
    var cameraTexture: Texture?

    /** Every texture this component holds was allocated by it, as RGBA32. */
    ghost predicate Valid()
      reads this
    {
      cameraTexture != null ==> cameraTexture.format == RGBA32
    }

    constructor (cameraManager: CameraManager, hasTransformationButton: bool, hasInfoLabel: bool)
      ensures Valid()
      ensures this.cameraManager == cameraManager
      ensures this.hasTransformationButton == hasTransformationButton && this.hasInfoLabel == hasInfoLabel
      ensures transformation == Transformations.Initial
      ensures buttonLabel == Unset && infoLabel == Unset && cameraTexture == null
    {
      this.cameraManager := cameraManager;
      this.hasTransformationButton := hasTransformationButton;
      this.hasInfoLabel := hasInfoLabel;
      transformation := Transformations.Initial;
      buttonLabel := Unset;
      infoLabel := Unset;
      cameraTexture := null;
    }

    /** Selects the next transformation and, when there is a button, shows it
        on the button. The texture and the info label are left alone. */
    method CycleTransformation()
      modifies this`transformation, this`buttonLabel
      ensures transformation == Transformations.Next(old(transformation))
      ensures buttonLabel == if hasTransformationButton then Shown(transformation) else old(buttonLabel)
      ensures cameraTexture == old(cameraTexture) && infoLabel == old(infoLabel)
    {
      transformation := Transformations.Next(transformation);
      if hasTransformationButton {
        buttonLabel := Shown(transformation);
      }
    }

    /** The part of a frame update from the choice of format to the call of
        Convert: the texture is kept if it fits the image and replaced by a new
        RGBA32 texture of the image's size if not, and the image is converted
        once, with the current transformation, into a buffer of the texture's
        raw-data length. The handle is neither released nor otherwise touched. */
    method ConvertIntoTexture(image: CpuImage) returns (threw: bool)
      requires Valid()
      requires image.Held() && image.conversions == []
      modifies this`cameraTexture, image`conversions
      ensures Valid()
      ensures Fits(cameraTexture, image.info)
      ensures Fits(old(cameraTexture), image.info) ==> cameraTexture == old(cameraTexture)
      ensures !Fits(old(cameraTexture), image.info) ==> fresh(cameraTexture)
      ensures image.conversions == [ConvertCall(ConversionParams(image.info, RGBA32, transformation), cameraTexture.RawDataLength())]
      ensures cameraTexture.RawDataLength() == image.info.width * image.info.height * 4
    {
      var format := RGBA32;
      if !Fits(cameraTexture, image.info) {
        cameraTexture := new Texture(image.info.width, image.info.height, format);
      }
      var request := ConversionParams(image.info, format, transformation);
      var rawLength := cameraTexture.RawDataLength();
      threw := image.Convert(request, rawLength);
    }

    /** Handles one camera frame, as the component is written. When no image
        can be acquired nothing changes. When an image is acquired it is the
        one the camera manager handed out. Without an info label the write to
        it throws before the try block, so the image is left held and
        unconverted. Otherwise the info label shows the image, the image is
        converted into the texture, and it is disposed exactly once, whether
        or not the conversion threw. The acquired handle is returned as a
        ghost so that the contract can speak about it. */
    method UpdateCameraImage() returns (outcome: UpdateOutcome, ghost image: CpuImage?)
      requires Valid()
      modifies this`cameraTexture, this`infoLabel, cameraManager`handedOut
      ensures Valid()
      ensures transformation == old(transformation)
      ensures outcome == NoImage <==> image == null
      ensures image == null ==>
        && cameraManager.handedOut == old(cameraManager.handedOut)
        && cameraTexture == old(cameraTexture) && infoLabel == old(infoLabel)
      ensures image != null ==> fresh(image) && cameraManager.handedOut == old(cameraManager.handedOut) + [image]
      ensures image != null && !hasInfoLabel ==>
        && outcome == InfoLabelMissing
        && cameraTexture == old(cameraTexture) && infoLabel == old(infoLabel)
        && image.conversions == [] && image.disposals == 0
      ensures image != null && hasInfoLabel ==>
        && (outcome == Converted || outcome == ConvertThrew)
        && infoLabel == Shown(image.info)
        && Fits(cameraTexture, image.info)
        && (Fits(old(cameraTexture), image.info) ==> cameraTexture == old(cameraTexture))
        && (!Fits(old(cameraTexture), image.info) ==> fresh(cameraTexture))
        && image.conversions == [ConvertCall(ConversionParams(image.info, RGBA32, transformation), cameraTexture.RawDataLength())]
        && cameraTexture.RawDataLength() == image.info.width * image.info.height * 4
        && image.disposals == 1
    {
      var acquired := cameraManager.TryAcquireLatestCpuImage();
      image := acquired;
      if acquired == null {
        return NoImage, image;
      }
      if !hasInfoLabel {
        // m_ImageInfo.text throws on a null label; the try block is not reached.
        return InfoLabelMissing, image;
      }
      infoLabel := Shown(acquired.info);

      // try { Convert } finally { Dispose }: Dispose runs on both outcomes.
      var threw := ConvertIntoTexture(acquired);
      acquired.Dispose();
      outcome := if threw then ConvertThrew else Converted;
    }

    /** UpdateCameraImage with the try block opened right after the image is
        acquired, so that the finally clause covers the write to the info
        label as well: the acquired image is disposed exactly once on every
        path that acquires one. */
    method UpdateCameraImageReleasing() returns (outcome: UpdateOutcome, ghost image: CpuImage?)
      requires Valid()
      modifies this`cameraTexture, this`infoLabel, cameraManager`handedOut
      ensures Valid()
      ensures transformation == old(transformation)
      ensures outcome == NoImage <==> image == null
      ensures image == null ==>
        && cameraManager.handedOut == old(cameraManager.handedOut)
        && cameraTexture == old(cameraTexture) && infoLabel == old(infoLabel)
      ensures image != null ==>
        && fresh(image) && cameraManager.handedOut == old(cameraManager.handedOut) + [image]
        && image.disposals == 1
      ensures image != null && !hasInfoLabel ==>
        && outcome == InfoLabelMissing
        && cameraTexture == old(cameraTexture) && infoLabel == old(infoLabel)
        && image.conversions == []
      ensures image != null && hasInfoLabel ==>
        && (outcome == Converted || outcome == ConvertThrew)
        && infoLabel == Shown(image.info)
        && Fits(cameraTexture, image.info)
        && (Fits(old(cameraTexture), image.info) ==> cameraTexture == old(cameraTexture))
        && (!Fits(old(cameraTexture), image.info) ==> fresh(cameraTexture))
        && image.conversions == [ConvertCall(ConversionParams(image.info, RGBA32, transformation), cameraTexture.RawDataLength())]
        && cameraTexture.RawDataLength() == image.info.width * image.info.height * 4
    {
      var acquired := cameraManager.TryAcquireLatestCpuImage();
      image := acquired;
      if acquired == null {
        return NoImage, image;
      }
      // try { label; Convert } finally { Dispose }
      if !hasInfoLabel {
        outcome := InfoLabelMissing;
      } else {
        infoLabel := Shown(acquired.info);
        var threw := ConvertIntoTexture(acquired);
        outcome := if threw then ConvertThrew else Converted;
      }
      acquired.Dispose();
    }
  }

  /** A freshly created component with a button, after two presses, selects
      None and its button shows None; no frame has touched its texture or its
      info label. */
  method CycleTwiceFromStart(cameraManager: CameraManager) returns (offloader: ImageOffloader)
    ensures fresh(offloader)
    ensures offloader.transformation == Transformations.None
    ensures offloader.buttonLabel == Shown(Transformations.None)
    ensures offloader.cameraTexture == null && offloader.infoLabel == Unset
  {
    offloader := new ImageOffloader(cameraManager, true, true);
    offloader.CycleTransformation();
    assert offloader.transformation == Transformations.MirrorBoth;
    offloader.CycleTransformation();
  }

  /** A component whose info label is not wired up leaks the image of the
      first frame: the camera manager handed it out and it is still held
      after UpdateCameraImage has returned. */
  method MissingInfoLabelLeaks(cameraManager: CameraManager) returns (ghost image: CpuImage?)
    modifies cameraManager`handedOut
    ensures image != null ==>
      && cameraManager.handedOut == old(cameraManager.handedOut) + [image]
      && image.Held()
  {
    var offloader := new ImageOffloader(cameraManager, true, false);
    var outcome;
    outcome, image := offloader.UpdateCameraImage();
  }
}
