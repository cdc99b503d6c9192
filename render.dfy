/** The output renderer, as a recorder: what it has drawn, in order. How a
    table or an error is laid out on the terminal is not part of this model. */
module Render {
  import opened SdkErrors

  datatype Drawing =
    | ErrorDrawing(err: Error)
    | TableDrawing(headers: seq<string>, rows: seq<seq<string>>)

  class Renderer {
    var drawn: seq<Drawing>

    constructor ()
      ensures drawn == []
    {
      drawn := [];
    }

    /** `Error(err).Render()`. */
    method RenderError(err: Error)
      modifies this
      ensures drawn == old(drawn) + [ErrorDrawing(err)]
    {
      drawn := drawn + [ErrorDrawing(err)];
    }

    /** `Table(headers)`: a new, empty table that draws on this renderer. */
    method Table(headers: seq<string>) returns (t: Table)
      ensures fresh(t)
      ensures t.renderer == this && t.headers == headers && t.rows == []
    {
      t := new Table(this, headers);
    }
  }

  class Table {
    const renderer: Renderer
    const headers: seq<string>
    var rows: seq<seq<string>>

    constructor (renderer: Renderer, headers: seq<string>)
      ensures this.renderer == renderer && this.headers == headers && rows == []
    {
      this.renderer := renderer;
      this.headers := headers;
      rows := [];
    }

    method Append(row: seq<string>)
      modifies this
      ensures rows == old(rows) + [row]
    {
      rows := rows + [row];
    }

    method Render()
      modifies renderer
      ensures renderer.drawn == old(renderer.drawn) + [TableDrawing(headers, rows)]
    {
      renderer.drawn := renderer.drawn + [TableDrawing(headers, rows)];
    }
  }
}
