/** The connection's input, as a line reader over a fixed sequence of lines. */
module Streams {
  import opened Wrappers

  /**
   * A BufferedReader over the client's input: the lines the client sends and
   * how many of them have been read so far. The handler and the store's
   * importData share one reader.
   */
  class LineReader {
    const lines: seq<string>
    var cursor: nat

    ghost predicate Valid()
      reads this
    {
      cursor <= |lines|
    }

    constructor (lines: seq<string>)
      ensures this.lines == lines && cursor == 0 && Valid()
    {
      this.lines := lines;
      cursor := 0;
    }

    /** readLine: the next line, or None (Java's null) at end of input. */
    method ReadLine() returns (line: Option<string>)
      requires Valid()
      modifies this
      ensures Valid()
      ensures old(cursor) < |lines| ==> line == Some(lines[old(cursor)]) && cursor == old(cursor) + 1
      ensures old(cursor) == |lines| ==> line == None && cursor == old(cursor)
    {
      if cursor < |lines| {
        line := Some(lines[cursor]);
        cursor := cursor + 1;
      } else {
        line := None;
      }
    }
  }
}

module Wrappers {
  datatype Option<T> = None | Some(value: T)
}
