/** The two output streams the logger writes to, each seen as the sequence
    of lines written to it so far. */
module Streams {

  /** An open `FILE*` for the log file. Copies of a logger record share the
      same stream, which is why it is an object and not a value. */
  class LogFile {
    /** The path the stream was opened on. */
    const path: string
    /** Lines written through the stream, oldest first. */
    var lines: seq<string>
    /** False once `fclose` has been called on the stream. */
    var isOpen: bool

    /** `fopen(path, "w+")` succeeding: the file is truncated. */
    constructor Open(path: string)
      ensures this.path == path && lines == [] && isOpen
    {
      this.path := path;
      lines := [];
      isOpen := true;
    }

    /** `fprintf` of one line. */
    method WriteLine(line: string)
      requires isOpen
      modifies this
      ensures isOpen && lines == old(lines) + [line]
    {
      lines := lines + [line];
    }

    /** `fclose`: the stream keeps what was written and accepts no more. */
    method Close()
      requires isOpen
      modifies this
      ensures !isOpen && lines == old(lines)
    {
      isOpen := false;
    }
  }

  /** Standard output. */
  class Console {
    /** Lines printed so far, oldest first. */
    var lines: seq<string>

    constructor ()
      ensures lines == []
    {
      lines := [];
    }

    /** `printf` of one line. */
    method WriteLine(line: string)
      modifies this
      ensures lines == old(lines) + [line]
    {
      lines := lines + [line];
    }
  }
}
