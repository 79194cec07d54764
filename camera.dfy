/** The parts of the AR camera framework and of the texture API that
    ImageOffloader relies on, kept to what the component observes of them.
    Acquiring a frame and converting it are foreign operations: both may fail,
    and which way they go is left open (nondeterministic) here. */
module Camera {
  import opened Transformations

  /** The destination pixel layouts ImageOffloader asks for: only RGBA32. */
  datatype TextureFormat = RGBA32

  function BytesPerPixel(f: TextureFormat): nat {
    match f
    case RGBA32 => 4
  }

  /** What a native camera image reports about itself. The source format is a
      framework enum, kept as its numeric code. */
  datatype ImageInfo = ImageInfo(width: nat, height: nat, planeCount: nat, timestamp: real, format: int)

  /** The arguments of XRCpuImage.ConversionParams(image, format, transformation):
      the whole image, converted to the given format under the given mirroring. */
  datatype ConversionParams = ConversionParams(input: ImageInfo, outputFormat: TextureFormat, transformation: Transformation)

  /** One call of XRCpuImage.Convert: its parameters and the length of the
      destination buffer it was handed. */
  datatype ConvertCall = ConvertCall(request: ConversionParams, destinationLength: int)

  /** A native camera image: a handle to a resource that must be released by
      Dispose exactly once. It records how often it has been released and which
      conversions were asked of it; the pixels themselves are not modelled. */
  class CpuImage {
    const info: ImageInfo
    var disposals: nat
    var conversions: seq<ConvertCall>

    constructor (info: ImageInfo)
      ensures this.info == info
      ensures disposals == 0 && conversions == []
    {
      this.info := info;
      disposals := 0;
      conversions := [];
    }

    /** A handle that has not been released yet. */
    predicate Held()
      reads this
    {
      disposals == 0
    }

    /** XRCpuImage.Convert: converts into a destination buffer of the given
        length. It may only be called on a handle that is still held; it may
        throw, which the result reports. */
    method Convert(request: ConversionParams, destinationLength: int) returns (threw: bool)
      requires Held()
      modifies this`conversions
      ensures conversions == old(conversions) + [ConvertCall(request, destinationLength)]
    {
      conversions := conversions + [ConvertCall(request, destinationLength)];
      threw := *;
    }

    /** XRCpuImage.Dispose: releases the native resource. */
    method Dispose()
      modifies this`disposals
      ensures disposals == old(disposals) + 1
    {
      disposals := disposals + 1;
    }
  }

  /** A Texture2D, as far as ImageOffloader uses it: its size and format fix the
      length of its raw data buffer. */
  class Texture {
    const width: nat
    const height: nat
    const format: TextureFormat

    constructor (width: nat, height: nat, format: TextureFormat)
      ensures this.width == width && this.height == height && this.format == format
    {
      this.width := width;
      this.height := height;
      this.format := format;
    }

    /** Length of GetRawTextureData for a texture without mipmaps: one RGBA32
        texture holds four bytes for each of its pixels. */
    function RawDataLength(): (n: nat)
      ensures format == RGBA32 ==> n == width * height * 4
    {
      width * height * BytesPerPixel(format)
    }
  }

  /** The ARCameraManager that hands out the latest camera image. It keeps,
      as a ghost, every handle it has handed out, so that what a caller does
      with an acquired handle can be stated about that very handle. */
  class CameraManager {
    ghost var handedOut: seq<CpuImage>

    constructor ()
      ensures handedOut == []
    {
      handedOut := [];
    }

    /** TryAcquireLatestCpuImage: either fails (null) and hands out nothing, or
        hands out a new, held handle on which nothing has been converted yet. */
    method TryAcquireLatestCpuImage() returns (image: CpuImage?)
      modifies this`handedOut
      ensures image == null ==> handedOut == old(handedOut)
      ensures image != null ==>
        && fresh(image) && image.Held() && image.conversions == []
        && handedOut == old(handedOut) + [image]
    {
      var acquired: bool := *;
      if acquired {
        var info: ImageInfo := *;
        image := new CpuImage(info);
        handedOut := handedOut + [image];
      } else {
        image := null;
      }
    }
  }
}
