# ROS 2 `sensor_msgs/msg/Image` loader, modelled in Dafny

This project models the part of the rerun MCAP data loader that turns the ROS 2
`sensor_msgs/msg/Image` messages of one channel into two row-aligned chunks.
It has three parts:

- **The format resolver** (`Formats.DecodeImageFormat`). It is a case-sensitive match from
  an encoding string and `[width, height]` to an image-format descriptor. The descriptor has
  exactly one of three layouts: colour model plus channel datatype, a packed pixel format, or
  depth with a channel datatype. Any string outside the table fails with an
  "Unsupported image format" error that names the string. The table is written out a second
  time, as data (`Formats.EncodingTable`), and the resolver is proved to agree with it.
- **The accumulating parser** (`ImageParser.ImageMessageParser`). It is a class with:
  - the blob and format sequences;
  - the five metadata columns (height, width, encoding, is_bigendian, step);
  - the channel-wide `isDepthImage` flag.

  A ghost field `Accepted` holds the frames accepted so far. The class invariant `Valid` says
  that row `i` of every collection is frame `i`'s value, and that the flag is the last accepted
  frame's classification. `Append` records the frame's timestamp in the `ParserContext` and
  then resolves its format. On success it grows all seven collections in lockstep.
- **Finalize** (`ImageParser.ImageMessageParser.Finalize`). It is specified by
  `ImageParser.ExpectedChunks`: an image chunk tagged `DepthImage` or `Image` by the flag, and a
  metadata chunk with five components tagged `sensor_msgs.msg.Image`. Both share the
  `timestamp` timeline.

Modules:

| module | file | contents |
|---|---|---|
| `Prelude` | `prelude.dfy` | `u8`/`u32` and `Option`/`Result` |
| `Formats` | `formats.dfy` | descriptors, the resolver and the table |
| `Chunks` | `chunks.dfy` | columns, components, chunks, chunk construction |
| `Context` | `context.dfy` | the parser context's time cells |
| `ImageParser` | `image_parser.dfy` | the plugin name, the parser class and the finalize specification |
| `ChannelProperties` | `properties.dfy` | lemmas about whole channels |

The model follows the code in two places:

- **The timestamp is recorded first.** A failed append is expected to leave no partial
  effects, but in the code the timestamp is added to the context (`image.rs` line 81) before the
  format is resolved (line 87). A frame with an unsupported encoding therefore leaves one
  timestamp with no row. The model does the same. `Append` states how the gap between timeline
  length and row count grows. `ChannelProperties.RejectedFrameSpoilsFinalize` shows that a later
  finalize then fails.
- **The plugin's name.** The doc comment on the plugin calls it a `CompressedImage` plugin,
  but `name` returns `sensor_msgs/msg/Image`. The model follows the code.

Chunk construction (`Chunks.FromAutoRowIds`) is modelled as refusing any component whose row
count differs from the length of the timeline. This is the length check chunk construction
applies to every timeline and component.

The source fixes the order of the two chunks, [image, metadata]. It does not fix the order of
the components inside a chunk, because it collects them into the chunk's component collection,
which is not part of this model. The order of components within each chunk (`buffer`,
`format`; `height`, `width`, `encoding`, `is_bigendian`, `step`) is a choice of the model.

## Model

| member | source | states |
|---|---|---|
| Formats.DecodeImageFormat | crates/store/re_data_loader/src/mcap/schema/sensor_msgs/image.rs:195-259 | Succeeds exactly for the encodings of the reference table. On success the descriptor is `[width, height]` passed through unchanged plus that encoding's layout. Otherwise the error names the encoding. |
| Formats.MatchingIsCaseSensitive | crates/store/re_data_loader/src/mcap/schema/sensor_msgs/image.rs:254-257 | `RGB8`, `Mono8`, `32fc1` and the empty string are unsupported, each with an error naming that string. |
| Formats.DepthClassification | crates/store/re_data_loader/src/mcap/schema/sensor_msgs/image.rs:239-253 | A resolved descriptor has no colour model exactly for the six depth encodings and the three packed encodings (yuyv, yuv422_yuy2, nv12). |
| Formats.ResolvesExamples | crates/store/re_data_loader/src/mcap/schema/sensor_msgs/image.rs:195-253 | For width 4 and height 2, `rgb8` is 8-bit RGB and `32FC1` is an F32 depth image with no colour model. |
| Context.CellsOnAppend | crates/store/re_data_loader/src/mcap/schema/sensor_msgs/image.rs:80-84 | Recording a cell appends its value to its own timeline and leaves every other timeline unchanged. |
| Context.ParserContext.AddTimeCell | crates/store/re_data_loader/src/mcap/schema/sensor_msgs/image.rs:81-84 | Appends exactly one cell with the given timeline and value. |
| Chunks.FromAutoRowIdsUniform | crates/store/re_data_loader/src/mcap/schema/sensor_msgs/image.rs:147-153 | When every component has the same row count, chunk construction succeeds exactly when the timeline has that many entries. |
| ImageParser.Name | crates/store/re_data_loader/src/mcap/schema/sensor_msgs/image.rs:22-24 | The routing name is `sensor_msgs/msg/Image`. The doc comment's `CompressedImage` is not what the code routes by. |
| ImageParser.CreateMessageParser | crates/store/re_data_loader/src/mcap/schema/sensor_msgs/image.rs:26-32 | Returns a fresh, valid parser with no accepted frames and the flag cleared. |
| ImageParser.FormatOfResolves | crates/store/re_data_loader/src/mcap/schema/sensor_msgs/image.rs:86-87 | A frame is accepted exactly when the resolver succeeds on its encoding with `[width, height]`. It then resolves to `FormatOf`. |
| ImageParser.Project | crates/store/re_data_loader/src/mcap/schema/sensor_msgs/image.rs:93-111 | A projected column has one entry per frame. |
| ImageParser.FormatsOf | crates/store/re_data_loader/src/mcap/schema/sensor_msgs/image.rs:93-94 | The format column has one entry per frame. |
| ImageParser.ProjectAt | crates/store/re_data_loader/src/mcap/schema/sensor_msgs/image.rs:93-111 | Row `i` of a projected column is frame `i`'s field. |
| ImageParser.FormatsAt | crates/store/re_data_loader/src/mcap/schema/sensor_msgs/image.rs:93-94 | Row `i` of the format column is frame `i`'s resolved descriptor. |
| ImageParser.DescribesAppend | crates/store/re_data_loader/src/mcap/schema/sensor_msgs/image.rs:89-111 | Pushing one accepted frame's values onto the seven collections, and overwriting the flag, preserves the row-by-row correspondence with the accepted frames. |
| ImageParser.ImageMessageParser.constructor | crates/store/re_data_loader/src/mcap/schema/sensor_msgs/image.rs:52-63 | All seven collections start empty and the flag starts false. The capacity hint has no observable effect. |
| ImageParser.ImageMessageParser.Append | crates/store/re_data_loader/src/mcap/schema/sensor_msgs/image.rs:67-114 | A decode failure changes nothing. A decoded frame always adds one timestamp cell. An unsupported encoding then fails with the encoding named and leaves the parser unchanged. A supported one grows every collection by that frame's value and sets the flag to its classification. The invariant is kept, and the gap between timeline length and rows grows by one exactly on an unsupported encoding. |
| ImageParser.ImageMessageParser.PushFrame | crates/store/re_data_loader/src/mcap/schema/sensor_msgs/image.rs:89-111 | Overwrites the flag with the frame's classification and appends one value to each of the seven collections, keeping the invariant. |
| ImageParser.ImageMessageParser.Finalize | crates/store/re_data_loader/src/mcap/schema/sensor_msgs/image.rs:116-192 | The result is the expected chunks of the accepted frames on the context's `timestamp` timeline. That timeline is read back from the recorded cells (`Context.CellsOn`, standing for the timeline build at line 129). |
| ChannelProperties.FinalizeShape | crates/store/re_data_loader/src/mcap/schema/sensor_msgs/image.rs:131-191 | Finalize succeeds exactly when the timeline has one entry per frame, and fails with a chunk error otherwise. On success: two chunks, [image, metadata], on that timeline. The image chunk has `buffer` and `format`, tagged by the last frame. The metadata chunk has height, width, encoding, is_bigendian and step, tagged `sensor_msgs.msg.Image`. The order of components inside a chunk is the model's own choice. Every column has one row per frame. |
| ChannelProperties.FinalizeRows | crates/store/re_data_loader/src/mcap/schema/sensor_msgs/image.rs:93-111 | Row `i` of each finished column holds frame `i`'s payload, resolved descriptor, height, width, encoding and step. Endianness is stored as 1 or 0. |
| ChannelProperties.LastFrameDecides | crates/store/re_data_loader/src/mcap/schema/sensor_msgs/image.rs:89-91 | Whatever came before, the last accepted frame alone decides whether the image chunk is tagged `Image` (colour model present) or `DepthImage`. |
| ChannelProperties.EmptyChannel | crates/store/re_data_loader/src/mcap/schema/sensor_msgs/image.rs:131-191 | No frames and no timestamps give two empty chunks, the image one tagged `Image`. |
| ChannelProperties.RejectedFrameSpoilsFinalize | crates/store/re_data_loader/src/mcap/schema/sensor_msgs/image.rs:78-87 | Starting in step, a decoded frame with an unsupported encoding is refused with its encoding named, and the finalize after it fails. |
| ChannelProperties.DepthThenColourChannel | crates/store/re_data_loader/src/mcap/schema/sensor_msgs/image.rs:89-94 | A float depth frame followed by an RGB frame is finalized as two `Image` rows. Their descriptors are the depth and RGB formats, in order. |

## Left out

- CDR decoding of the message payload is not part of this model. It is the `decode` parameter of `Append`, a function from bytes to an optional frame.
- Timestamp conversion from the message header is left out. A frame carries its stamp as nanoseconds (`stampNanos`).
- The host's `log_time` and `publish_time` cells, the entity path and chunk ids are left out. Only the `timestamp` timeline is modelled.
- The Arrow builders (fixed-size lists, capacity hints) are modelled as sequences, since their internals are not visible.
- The archetype builder chain that produces the image components is reduced to two components. Its own failure path is not modelled, because it cannot be told apart from chunk construction in the result.
- Finalize consumes the parser in the source. Here it only reads the parser's state.
- The zero-copy move of the pixel blobs, the boxed trait-object dispatch and the MCAP channel argument are left out. They have no counterpart beyond "the same sequence value".
- The colour-model, channel-datatype and pixel-format enumerations hold only the variants the resolver uses.
- Error messages are modelled as error values. The text is kept only for the unsupported-format message (`FormatError.Message`).
