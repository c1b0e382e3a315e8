/** The per-channel parser context: the time cells a parser records for its rows.
    Entity paths and the host's own `log_time`/`publish_time` cells are not modelled. */
module Context {

  /** One time value recorded on a named timeline. */
  datatype TimeCell = TimeCell(timeline: string, nanos: int)

  /** The values recorded on `timeline`, in the order they were added. */
  function CellsOn(cells: seq<TimeCell>, timeline: string): seq<int>
  {
    if cells == [] then []
    else
      var last := cells[|cells| - 1];
      CellsOn(cells[..|cells| - 1], timeline) + (if last.timeline == timeline then [last.nanos] else [])
  }

  /** Recording one cell grows its own timeline by that value and leaves every other alone. */
  lemma CellsOnAppend(cells: seq<TimeCell>, cell: TimeCell, timeline: string)
    ensures CellsOn(cells + [cell], timeline) ==
      CellsOn(cells, timeline) + (if cell.timeline == timeline then [cell.nanos] else [])
  {
    assert (cells + [cell])[..|cells|] == cells;
  }

  class ParserContext {
    var timeCells: seq<TimeCell>

    constructor ()
      ensures timeCells == []
    {
      timeCells := [];
    }

    method AddTimeCell(timeline: string, nanos: int)
      modifies this
      ensures timeCells == old(timeCells) + [TimeCell(timeline, nanos)]
    {
      timeCells := timeCells + [TimeCell(timeline, nanos)];
    }

    /** The finished timeline of that name, as handed to the chunks at finalize. */
    function Timeline(name: string): seq<int>
      reads this
    {
      CellsOn(timeCells, name)
    }
  }
}
