/**
 * Shapes that cross every boundary of the CLI: a reported place, a code
 * segment of a document, and what the rewriting engine returns.
 */
module Places {
  import opened Wrappers

  /** A position: 1-based line, 0-based column. */
  datatype Position = Position(line: int, column: int)

  /** One reported (and possibly fixed) location. */
  datatype Place = Place(rule: string, message: string, position: Position)

  /** One independently processable code region of a document. */
  datatype Segment = Segment(source: string, startLine: int)

  /** What the engine returns when it does not throw; `code` may be absent. */
  datatype EngineResult = EngineResult(code: Option<string>, places: seq<Place>)
}
