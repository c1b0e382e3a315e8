/** The `sensor_msgs/msg/Image` message parser: it accumulates decoded frames into
    seven row-aligned collections and turns them into an image chunk and a metadata chunk. */
module ImageParser {
  import opened Prelude
  import opened Formats
  import opened Chunks
  import opened Context

  /** The archetype every metadata component is tagged with. */
  const ArchetypeName: string := "sensor_msgs.msg.Image"

  /** The timeline the sensor timestamp of each frame is recorded on. */
  const TimestampTimeline: string := "timestamp"

  /** One decoded message; `stampNanos` is its header stamp in nanoseconds since the epoch. */
  datatype Frame = Frame(
    stampNanos: int,
    height: u32,
    width: u32,
    encoding: string,
    isBigendian: bool,
    step: u32,
    data: seq<u8>)

  datatype PluginError =
    | DecodeFailed
    | FormatFailed(cause: FormatError)
    | ChunkFailed

  /** The name the plugin registry routes channels by. The plugin's doc comment calls it a
      `CompressedImage` plugin, but the name it routes by is the uncompressed image schema. */
  function Name(): (name: string)
    ensures name == "sensor_msgs/msg/Image"
  {
    "sensor_msgs/msg/Image"
  }

  /** The dimensions a frame's format is resolved with: width first. */
  function FrameDimensions(f: Frame): Dimensions {
    [f.width, f.height]
  }

  /** A frame whose encoding is in the resolver's table. */
  predicate Accepts(f: Frame) {
    f.encoding in EncodingTable
  }

  /** The descriptor the resolver gives an accepted frame. */
  function FormatOf(f: Frame): ImageFormat
    requires Accepts(f)
  {
    ImageFormat(f.width, f.height, EncodingTable[f.encoding])
  }

  /** A frame is accepted exactly when the resolver succeeds on it, and then it yields `FormatOf`. */
  lemma FormatOfResolves(f: Frame)
    ensures DecodeImageFormat(f.encoding, FrameDimensions(f)).Success? <==> Accepts(f)
    ensures Accepts(f) ==> DecodeImageFormat(f.encoding, FrameDimensions(f)) == Success(FormatOf(f))
  {
  }

  predicate AllAccepted(frames: seq<Frame>) {
    forall i :: 0 <= i < |frames| ==> Accepts(frames[i])
  }

  /** The endianness flag as the `u32` the metadata column stores. */
  function EndianFlag(isBigendian: bool): u32 {
    if isBigendian then 1 else 0
  }

  function DataOf(f: Frame): seq<u8> { f.data }
  function HeightOf(f: Frame): u32 { f.height }
  function WidthOf(f: Frame): u32 { f.width }
  function EncodingOf(f: Frame): string { f.encoding }
  function EndianFlagOf(f: Frame): u32 { EndianFlag(f.isBigendian) }
  function StepOf(f: Frame): u32 { f.step }

  /** One field of every frame, in frame order: what a column holds after those frames. */
  function Project<T>(frames: seq<Frame>, field: Frame -> T): (column: seq<T>)
    ensures |column| == |frames|
  {
    if frames == [] then []
    else Project(frames[..|frames| - 1], field) + [field(frames[|frames| - 1])]
  }

  /** The resolved descriptor of every frame, in frame order. */
  function FormatsOf(frames: seq<Frame>): (formats: seq<ImageFormat>)
    requires AllAccepted(frames)
    ensures |formats| == |frames|
  {
    if frames == [] then []
    else FormatsOf(frames[..|frames| - 1]) + [FormatOf(frames[|frames| - 1])]
  }

  /** Row `i` of a projected column is frame `i`'s field. */
  lemma {:induction false} ProjectAt<T>(frames: seq<Frame>, field: Frame -> T, i: int)
    requires 0 <= i < |frames|
    ensures Project(frames, field)[i] == field(frames[i])
  {
    if i < |frames| - 1 {
      ProjectAt(frames[..|frames| - 1], field, i);
    }
  }

  /** Row `i` of the format column is frame `i`'s resolved descriptor. */
  lemma {:induction false} FormatsAt(frames: seq<Frame>, i: int)
    requires AllAccepted(frames) && 0 <= i < |frames|
    ensures FormatsOf(frames)[i] == FormatOf(frames[i])
  {
    if i < |frames| - 1 {
      FormatsAt(frames[..|frames| - 1], i);
    }
  }

  /** The channel-wide classification: decided by the last frame alone, false when there is none. */
  predicate LastIsDepth(frames: seq<Frame>)
    requires AllAccepted(frames)
  {
    frames != [] && IsDepthFormat(FormatOf(frames[|frames| - 1]))
  }

  /** The seven collections hold `frames`' values, row by row, and the flag is the
      last frame's classification. */
  predicate Describes(
    frames: seq<Frame>, blobs: seq<seq<u8>>, formats: seq<ImageFormat>, height: seq<u32>, width: seq<u32>,
    encoding: seq<string>, isBigendian: seq<u32>, step: seq<u32>, isDepthImage: bool)
  {
    AllAccepted(frames) &&
    blobs == Project(frames, DataOf) &&
    formats == FormatsOf(frames) &&
    height == Project(frames, HeightOf) &&
    width == Project(frames, WidthOf) &&
    encoding == Project(frames, EncodingOf) &&
    isBigendian == Project(frames, EndianFlagOf) &&
    step == Project(frames, StepOf) &&
    isDepthImage == LastIsDepth(frames)
  }

  /** Pushing one accepted frame's values onto every collection, and overwriting the flag
      with its classification, describes the frames with that frame appended. */
  lemma DescribesAppend(
    frames: seq<Frame>, blobs: seq<seq<u8>>, formats: seq<ImageFormat>, height: seq<u32>, width: seq<u32>,
    encoding: seq<string>, isBigendian: seq<u32>, step: seq<u32>, isDepthImage: bool, frame: Frame)
    requires Describes(frames, blobs, formats, height, width, encoding, isBigendian, step, isDepthImage)
    requires Accepts(frame)
    ensures Describes(frames + [frame], blobs + [frame.data], formats + [FormatOf(frame)],
      height + [frame.height], width + [frame.width], encoding + [frame.encoding],
      isBigendian + [EndianFlag(frame.isBigendian)], step + [frame.step], IsDepthFormat(FormatOf(frame)))
  {
    var grown := frames + [frame];
    assert grown[..|frames|] == frames;
  }

  /** The image archetype's components, built from the accumulated blobs and formats. */
  function ImageColumns(isDepthImage: bool, blobs: seq<seq<u8>>, formats: seq<ImageFormat>): seq<Component> {
    var tag := if isDepthImage then DepthImageArchetype else ImageArchetype;
    [ Component(tag, "buffer", BlobColumn(blobs)),
      Component(tag, "format", FormatColumn(formats)) ]
  }

  /** The five metadata components, built from the finished column builders. */
  function MetadataColumns(
    height: seq<u32>, width: seq<u32>, encoding: seq<string>, isBigendian: seq<u32>, step: seq<u32>): seq<Component>
  {
    var tag := Named(ArchetypeName);
    [ Component(tag, "height", U32Column(height)),
      Component(tag, "width", U32Column(width)),
      Component(tag, "encoding", TextColumn(encoding)),
      Component(tag, "is_bigendian", U32Column(isBigendian)),
      Component(tag, "step", U32Column(step)) ]
  }

  /** What finalizing a parser that accepted `frames` yields, given the finished timestamp timeline. */
  function ExpectedChunks(frames: seq<Frame>, timeline: seq<int>): Result<seq<Chunk>, PluginError>
    requires AllAccepted(frames)
  {
    var images := ImageColumns(LastIsDepth(frames), Project(frames, DataOf), FormatsOf(frames));
    var metadata := MetadataColumns(Project(frames, HeightOf), Project(frames, WidthOf),
      Project(frames, EncodingOf), Project(frames, EndianFlagOf), Project(frames, StepOf));
    if |timeline| != |frames| then Failure(ChunkFailed)
    else Success([Chunk(timeline, images), Chunk(timeline, metadata)])
  }

  class ImageMessageParser {
    var blobs: seq<seq<u8>>
    var imageFormats: seq<ImageFormat>
    var height: seq<u32>
    var width: seq<u32>
    var encoding: seq<string>
    var isBigendian: seq<u32>
    var step: seq<u32>
    var isDepthImage: bool

    /** The frames accepted so far, in order. */
    ghost var Accepted: seq<Frame>

    /** The seven collections hold the accepted frames' values, row by row, and the
        channel-wide flag is the last accepted frame's classification. */
    ghost predicate Valid()
      reads this
    {
      Describes(Accepted, blobs, imageFormats, height, width, encoding, isBigendian, step, isDepthImage)
    }

    /** `numRows` is a capacity hint only; it has no observable effect. */
    constructor (numRows: nat)
      ensures Valid() && Accepted == []
      ensures blobs == [] && imageFormats == [] && height == [] && width == [] &&
              encoding == [] && isBigendian == [] && step == []
      ensures !isDepthImage
    {
      blobs, imageFormats := [], [];
      height, width, encoding, isBigendian, step := [], [], [], [], [];
      isDepthImage := false;
      Accepted := [];
    }

    /** Decodes `msg` with `decode`, records its timestamp in `ctx`, resolves its format
        and, when that succeeds, appends one row to all seven collections. */
    method Append(ctx: ParserContext, msg: seq<u8>, decode: seq<u8> -> Option<Frame>)
      returns (r: Result<(), PluginError>)
      requires Valid()
      modifies this, ctx
      ensures Valid()
      ensures decode(msg).None? ==>
        r == Failure(DecodeFailed) && unchanged(this) && unchanged(ctx)
      ensures decode(msg).Some? ==>
        ctx.timeCells == old(ctx.timeCells) + [TimeCell(TimestampTimeline, decode(msg).value.stampNanos)]
      ensures decode(msg).Some? && !Accepts(decode(msg).value) ==>
        r == Failure(FormatFailed(UnsupportedImageFormat(decode(msg).value.encoding))) && unchanged(this)
      ensures decode(msg).Some? && Accepts(decode(msg).value) ==>
        var frame := decode(msg).value;
        r == Success(()) &&
        Accepted == old(Accepted) + [frame] &&
        blobs == old(blobs) + [frame.data] &&
        imageFormats == old(imageFormats) + [FormatOf(frame)] &&
        height == old(height) + [frame.height] &&
        width == old(width) + [frame.width] &&
        encoding == old(encoding) + [frame.encoding] &&
        isBigendian == old(isBigendian) + [EndianFlag(frame.isBigendian)] &&
        step == old(step) + [frame.step] &&
        isDepthImage == IsDepthFormat(FormatOf(frame))
      ensures |ctx.Timeline(TimestampTimeline)| - |Accepted| ==
        old(|ctx.Timeline(TimestampTimeline)| - |Accepted|) +
        (if decode(msg).Some? && !Accepts(decode(msg).value) then 1 else 0)
    {
      var decoded := decode(msg);
      if decoded.None? {
        return Failure(DecodeFailed);
      }
      var frame := decoded.value;
      CellsOnAppend(ctx.timeCells, TimeCell(TimestampTimeline, frame.stampNanos), TimestampTimeline);
      ctx.AddTimeCell(TimestampTimeline, frame.stampNanos);

      var dimensions: Dimensions := [frame.width, frame.height];
      var resolved := DecodeImageFormat(frame.encoding, dimensions);
      if resolved.Failure? {
        return Failure(FormatFailed(resolved.error));
      }
      var imgFormat := resolved.value;
      FormatOfResolves(frame);
      PushFrame(frame, imgFormat);
      r := Success(());
    }

    /** Overwrites the channel-wide flag with the frame's classification and appends,
        in lockstep, one value to each of the seven collections. */
    method PushFrame(frame: Frame, imgFormat: ImageFormat)
      requires Valid() && Accepts(frame) && imgFormat == FormatOf(frame)
      modifies this
      ensures Valid()
      ensures Accepted == old(Accepted) + [frame]
      ensures blobs == old(blobs) + [frame.data]
      ensures imageFormats == old(imageFormats) + [imgFormat]
      ensures height == old(height) + [frame.height]
      ensures width == old(width) + [frame.width]
      ensures encoding == old(encoding) + [frame.encoding]
      ensures isBigendian == old(isBigendian) + [EndianFlag(frame.isBigendian)]
      ensures step == old(step) + [frame.step]
      ensures isDepthImage == IsDepthFormat(imgFormat)
    {
      DescribesAppend(Accepted, blobs, imageFormats, height, width, encoding, isBigendian, step,
        isDepthImage, frame);
      isDepthImage := imgFormat.ColorModelOf().None?;
      blobs := blobs + [frame.data];
      imageFormats := imageFormats + [imgFormat];
      height := height + [frame.height];
      width := width + [frame.width];
      encoding := encoding + [frame.encoding];
      isBigendian := isBigendian + [if frame.isBigendian then 1 else 0];
      step := step + [frame.step];
      Accepted := Accepted + [frame];
    }

    /** Builds the image chunk, tagged by the channel-wide flag, and the metadata chunk. */
    method Finalize(ctx: ParserContext) returns (r: Result<seq<Chunk>, PluginError>)
      requires Valid()
      ensures r == ExpectedChunks(Accepted, ctx.Timeline(TimestampTimeline))
    {
      var timeline := ctx.Timeline(TimestampTimeline);
      var images := ImageColumns(isDepthImage, blobs, imageFormats);
      FromAutoRowIdsUniform(timeline, images, |Accepted|);
      var imageChunk := FromAutoRowIds(timeline, images);
      if imageChunk.None? {
        return Failure(ChunkFailed);
      }
      var metadata := MetadataColumns(height, width, encoding, isBigendian, step);
      FromAutoRowIdsUniform(timeline, metadata, |Accepted|);
      var metadataChunk := FromAutoRowIds(timeline, metadata);
      if metadataChunk.None? {
        return Failure(ChunkFailed);
      }
      r := Success([imageChunk.value, metadataChunk.value]);
    }
  }

  /** The plugin's factory: a fresh, empty parser for one channel. */
  method CreateMessageParser(numRows: nat) returns (p: ImageMessageParser)
    ensures fresh(p) && p.Valid() && p.Accepted == [] && !p.isDepthImage
  {
    p := new ImageMessageParser(numRows);
  }
}
