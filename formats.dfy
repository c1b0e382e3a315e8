/** The format resolver: the fixed table that turns a ROS 2 `sensor_msgs/msg/Image`
    encoding string and the image dimensions into an image-format descriptor. */
module Formats {
  import opened Prelude

  datatype ColorModel = L | RGB | RGBA | BGR | BGRA

  datatype ChannelDatatype = U8 | I8 | U16 | I16 | I32 | F32

  datatype PixelFormat = YUY2 | NV12

  /** The three shapes a descriptor is built in; exactly one is populated. */
  datatype Layout =
    | ColorLayout(model: ColorModel, channel: ChannelDatatype)
    | PackedLayout(pixelFormat: PixelFormat)
    | DepthLayout(channel: ChannelDatatype)

  /** An image-format descriptor: the dimensions plus one layout. */
  datatype ImageFormat = ImageFormat(width: u32, height: u32, layout: Layout) {

    /** The descriptor's optional colour model: present only for the colour shape. */
    function ColorModelOf(): Option<ColorModel> {
      if layout.ColorLayout? then Some(layout.model) else None
    }

    /** The descriptor's optional channel datatype (absent for packed formats). */
    function ChannelDatatypeOf(): Option<ChannelDatatype> {
      if layout.PackedLayout? then None else Some(layout.channel)
    }
  }

  /** `[width, height]`, in that order. */
  type Dimensions = d: seq<u32> | |d| == 2 witness [0, 0]

  /** A frame is classified as depth exactly when its descriptor has no colour model. */
  predicate IsDepthFormat(f: ImageFormat) {
    f.ColorModelOf().None?
  }

  function FromColorModel(dimensions: Dimensions, model: ColorModel, channel: ChannelDatatype): ImageFormat {
    ImageFormat(dimensions[0], dimensions[1], ColorLayout(model, channel))
  }

  function FromPixelFormat(dimensions: Dimensions, pixelFormat: PixelFormat): ImageFormat {
    ImageFormat(dimensions[0], dimensions[1], PackedLayout(pixelFormat))
  }

  function Depth(dimensions: Dimensions, channel: ChannelDatatype): ImageFormat {
    ImageFormat(dimensions[0], dimensions[1], DepthLayout(channel))
  }

  datatype FormatError = UnsupportedImageFormat(encoding: string) {
    function Message(): string {
      "Unsupported image format: " + encoding
    }
  }

  /** The encoding vocabulary written out as data: each supported string with the
      layout of its descriptor. The resolver is proved to agree with it. */
  const EncodingTable: map<string, Layout> := map[
    "rgb8" := ColorLayout(RGB, U8),
    "rgba8" := ColorLayout(RGBA, U8),
    "rgb16" := ColorLayout(RGB, U16),
    "rgba16" := ColorLayout(RGBA, U16),
    "bgr8" := ColorLayout(BGR, U8),
    "bgra8" := ColorLayout(BGRA, U8),
    "bgr16" := ColorLayout(BGR, U16),
    "bgra16" := ColorLayout(BGRA, U16),
    "mono8" := ColorLayout(L, U8),
    "mono16" := ColorLayout(L, U16),
    "yuyv" := PackedLayout(YUY2),
    "yuv422_yuy2" := PackedLayout(YUY2),
    "nv12" := PackedLayout(NV12),
    "8UC1" := DepthLayout(U8),
    "8SC1" := DepthLayout(I8),
    "16UC1" := DepthLayout(U16),
    "16SC1" := DepthLayout(I16),
    "32SC1" := DepthLayout(I32),
    "32FC1" := DepthLayout(F32)
  ]

  /** Resolves an encoding string, matched exactly and case-sensitively. */
  function DecodeImageFormat(encoding: string, dimensions: Dimensions): (r: Result<ImageFormat, FormatError>)
    ensures r.Success? <==> encoding in EncodingTable
    ensures r.Success? ==> r.value == ImageFormat(dimensions[0], dimensions[1], EncodingTable[encoding])
    ensures r.Failure? ==> r.error == UnsupportedImageFormat(encoding)
  {
    match encoding
    case "rgb8" => Success(FromColorModel(dimensions, RGB, U8))
    case "rgba8" => Success(FromColorModel(dimensions, RGBA, U8))
    case "rgb16" => Success(FromColorModel(dimensions, RGB, U16))
    case "rgba16" => Success(FromColorModel(dimensions, RGBA, U16))
    case "bgr8" => Success(FromColorModel(dimensions, BGR, U8))
    case "bgra8" => Success(FromColorModel(dimensions, BGRA, U8))
    case "bgr16" => Success(FromColorModel(dimensions, BGR, U16))
    case "bgra16" => Success(FromColorModel(dimensions, BGRA, U16))
    case "mono8" => Success(FromColorModel(dimensions, L, U8))
    case "mono16" => Success(FromColorModel(dimensions, L, U16))
    case "yuyv" | "yuv422_yuy2" => Success(FromPixelFormat(dimensions, YUY2))
    case "nv12" => Success(FromPixelFormat(dimensions, NV12))
    case "8UC1" => Success(Depth(dimensions, U8))
    case "8SC1" => Success(Depth(dimensions, I8))
    case "16UC1" => Success(Depth(dimensions, U16))
    case "16SC1" => Success(Depth(dimensions, I16))
    case "32SC1" => Success(Depth(dimensions, I32))
    case "32FC1" => Success(Depth(dimensions, F32))
    case _ => Failure(UnsupportedImageFormat(encoding))
  }

  /** Matching is exact: changing the case or dropping the string makes it unsupported. */
  lemma MatchingIsCaseSensitive(dimensions: Dimensions)
    ensures DecodeImageFormat("RGB8", dimensions) == Failure(UnsupportedImageFormat("RGB8"))
    ensures DecodeImageFormat("Mono8", dimensions) == Failure(UnsupportedImageFormat("Mono8"))
    ensures DecodeImageFormat("32fc1", dimensions) == Failure(UnsupportedImageFormat("32fc1"))
    ensures DecodeImageFormat("", dimensions) == Failure(UnsupportedImageFormat(""))
  {
  }

  /** Which resolved frames count as depth: the six depth encodings and also the
      three packed encodings, whose descriptors carry no colour model either. */
  lemma DepthClassification(encoding: string, dimensions: Dimensions)
    requires DecodeImageFormat(encoding, dimensions).Success?
    ensures IsDepthFormat(DecodeImageFormat(encoding, dimensions).value) <==>
      encoding in {"yuyv", "yuv422_yuy2", "nv12", "8UC1", "8SC1", "16UC1", "16SC1", "32SC1", "32FC1"}
  {
  }

  /** Width 4, height 2: `rgb8` is 8-bit RGB and `32FC1` is a float depth image. */
  lemma ResolvesExamples()
    ensures DecodeImageFormat("rgb8", [4, 2]) == Success(ImageFormat(4, 2, ColorLayout(RGB, U8)))
    ensures var f := DecodeImageFormat("32FC1", [4, 2]).value;
      f.ChannelDatatypeOf() == Some(F32) && f.ColorModelOf() == None && f.width == 4 && f.height == 2
  {
  }
}
