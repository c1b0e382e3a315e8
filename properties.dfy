/** What a channel of `sensor_msgs/msg/Image` messages turns into: the shape and row
    contents of the two finished chunks, the channel-wide depth classification, and how
    an unsupported encoding leaves the timestamp timeline one entry ahead of the rows. */
module ChannelProperties {
  import opened Prelude
  import opened Formats
  import opened Chunks
  import opened Context
  import opened ImageParser

  /** The archetype the image chunk is tagged with for a channel whose last accepted frame is `frames`' last. */
  function ImageTag(frames: seq<Frame>): Archetype
    requires AllAccepted(frames)
  {
    if LastIsDepth(frames) then DepthImageArchetype else ImageArchetype
  }

  /** Finalize succeeds exactly when the timeline has one entry per accepted frame; it then
      yields the image chunk and the metadata chunk, in that order, on that timeline, with
      the named components, their archetype tags, and one row per frame in every column. */
  lemma FinalizeShape(frames: seq<Frame>, timeline: seq<int>)
    requires AllAccepted(frames)
    ensures ExpectedChunks(frames, timeline).Success? <==> |timeline| == |frames|
    ensures ExpectedChunks(frames, timeline).Failure? ==> ExpectedChunks(frames, timeline).error == ChunkFailed
    ensures ExpectedChunks(frames, timeline).Success? ==>
      var chunks := ExpectedChunks(frames, timeline).value;
      |chunks| == 2 && chunks[0].timeline == timeline && chunks[1].timeline == timeline &&
      var images := chunks[0].components;
      var metadata := chunks[1].components;
      |images| == 2 && images[0].name == "buffer" && images[1].name == "format" &&
      images[0].column.BlobColumn? && images[1].column.FormatColumn? &&
      (forall k :: 0 <= k < 2 ==> images[k].archetype == ImageTag(frames) && images[k].column.Rows() == |frames|) &&
      |metadata| == 5 &&
      metadata[0].name == "height" && metadata[1].name == "width" && metadata[2].name == "encoding" &&
      metadata[3].name == "is_bigendian" && metadata[4].name == "step" &&
      metadata[0].column.U32Column? && metadata[1].column.U32Column? && metadata[2].column.TextColumn? &&
      metadata[3].column.U32Column? && metadata[4].column.U32Column? &&
      (forall k :: 0 <= k < 5 ==> metadata[k].archetype == Named("sensor_msgs.msg.Image") && metadata[k].column.Rows() == |frames|)
  {
  }

  /** Row `i` of every finished column holds frame `i`'s value: the payload, the resolved
      descriptor, height, width, encoding and step unchanged, and the endianness as 1 or 0. */
  lemma FinalizeRows(frames: seq<Frame>, timeline: seq<int>, i: int)
    requires AllAccepted(frames) && |timeline| == |frames| && 0 <= i < |frames|
    ensures var chunks := ExpectedChunks(frames, timeline).value;
      var images := chunks[0].components;
      var metadata := chunks[1].components;
      images[0].column.blobs[i] == frames[i].data &&
      images[1].column.formats[i] == FormatOf(frames[i]) &&
      metadata[0].column.numbers[i] == frames[i].height &&
      metadata[1].column.numbers[i] == frames[i].width &&
      metadata[2].column.texts[i] == frames[i].encoding &&
      metadata[3].column.numbers[i] == (if frames[i].isBigendian then 1 else 0) &&
      metadata[4].column.numbers[i] == frames[i].step
  {
    ProjectAt(frames, DataOf, i);
    FormatsAt(frames, i);
    ProjectAt(frames, HeightOf, i);
    ProjectAt(frames, WidthOf, i);
    ProjectAt(frames, EncodingOf, i);
    ProjectAt(frames, EndianFlagOf, i);
    ProjectAt(frames, StepOf, i);
  }

  /** The last accepted frame alone decides the tag of the whole image chunk: whatever came
      before, appending a colour frame tags it `Image` and any other frame tags it `DepthImage`. */
  lemma LastFrameDecides(earlier: seq<Frame>, last: Frame)
    requires AllAccepted(earlier) && Accepts(last)
    ensures AllAccepted(earlier + [last])
    ensures ImageTag(earlier + [last]) ==
      if FormatOf(last).ColorModelOf().Some? then ImageArchetype else DepthImageArchetype
  {
  }

  /** A channel with no accepted frame and no timestamps yields two empty chunks, the image one tagged `Image`. */
  lemma EmptyChannel()
    ensures ExpectedChunks([], []).Success?
    ensures var chunks := ExpectedChunks([], []).value;
      chunks == [Chunk([], ImageColumns(false, [], [])), Chunk([], MetadataColumns([], [], [], [], []))] &&
      chunks[0].components[0].archetype == ImageArchetype
  {
  }

  /** A message that decodes but carries an unsupported encoding, sent to a parser whose
      timestamp timeline is in step with its rows, is refused with the encoding named, and
      afterwards the timeline is one entry ahead, so finalize fails. */
  method RejectedFrameSpoilsFinalize(
    p: ImageMessageParser, ctx: ParserContext, msg: seq<u8>, decode: seq<u8> -> Option<Frame>)
    returns (appended: Result<(), PluginError>, finalized: Result<seq<Chunk>, PluginError>)
    requires p.Valid() && |ctx.Timeline(TimestampTimeline)| == |p.Accepted|
    requires decode(msg).Some? && !Accepts(decode(msg).value)
    modifies p, ctx
    ensures appended == Failure(FormatFailed(UnsupportedImageFormat(decode(msg).value.encoding)))
    ensures finalized == Failure(ChunkFailed)
  {
    appended := p.Append(ctx, msg, decode);
    finalized := p.Finalize(ctx);
    FinalizeShape(p.Accepted, ctx.Timeline(TimestampTimeline));
  }

  /** A channel that accepted a float depth frame and then an 8-bit RGB frame is finalized
      as two rows of the `Image` archetype: the earlier depth frame is relabelled. */
  lemma DepthThenColourChannel()
    ensures var depth := Frame(10, 2, 4, "32FC1", false, 16, []);
      var colour := Frame(20, 2, 4, "rgb8", false, 12, []);
      AllAccepted([depth, colour]) &&
      var r := ExpectedChunks([depth, colour], [10, 20]);
      r.Success? && |r.value| == 2 &&
      r.value[0].components[0].archetype == ImageArchetype &&
      r.value[0].components[1].column.formats ==
        [ImageFormat(4, 2, DepthLayout(F32)), ImageFormat(4, 2, ColorLayout(RGB, U8))]
  {
    var depth := Frame(10, 2, 4, "32FC1", false, 16, []);
    var colour := Frame(20, 2, 4, "rgb8", false, 12, []);
    assert [depth, colour][..1] == [depth];
  }
}
