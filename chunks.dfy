/** The output side: typed columns tagged with an archetype, gathered into chunks
    that share one timeline. Chunk ids and the columnar encoding are not modelled. */
module Chunks {
  import opened Prelude
  import opened Formats

  /** A finished column, one value per row. */
  datatype Column =
    | BlobColumn(blobs: seq<seq<u8>>)
    | FormatColumn(formats: seq<ImageFormat>)
    | U32Column(numbers: seq<u32>)
    | TextColumn(texts: seq<string>)
  {
    function Rows(): nat {
      match this
      case BlobColumn(b) => |b|
      case FormatColumn(f) => |f|
      case U32Column(n) => |n|
      case TextColumn(t) => |t|
    }
  }

  /** The archetype a component is tagged with. */
  datatype Archetype = ImageArchetype | DepthImageArchetype | Named(name: string)

  /** One named component column. */
  datatype Component = Component(archetype: Archetype, name: string, column: Column)

  /** One output batch: the rows' timeline values and the component columns. */
  datatype Chunk = Chunk(timeline: seq<int>, components: seq<Component>)

  /** Chunk construction with generated row ids: it refuses components whose row
      count differs from the timeline's. */
  function FromAutoRowIds(timeline: seq<int>, components: seq<Component>): Option<Chunk> {
    if forall i :: 0 <= i < |components| ==> components[i].column.Rows() == |timeline|
    then Some(Chunk(timeline, components))
    else None
  }

  /** When every component has `rows` rows, construction succeeds exactly when the
      timeline has `rows` entries too. */
  lemma FromAutoRowIdsUniform(timeline: seq<int>, components: seq<Component>, rows: nat)
    requires components != []
    requires forall i :: 0 <= i < |components| ==> components[i].column.Rows() == rows
    ensures FromAutoRowIds(timeline, components) ==
      if |timeline| == rows then Some(Chunk(timeline, components)) else None
  {
    if |timeline| != rows {
      assert components[0].column.Rows() != |timeline|;
    }
  }
}
