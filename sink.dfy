/** The output stream the renderer writes to. Only the ordered sequence of
    strings passed to `write` is observable, so the stream is its trace. */
module Sinks {

  class Sink {
    /** Every string written so far, oldest first. */
    var trace: seq<string>

    constructor ()
      ensures trace == []
    {
      trace := [];
    }

    /** `outStream.write(s)`: appends one string and changes nothing else. */
    method Write(s: string)
      modifies this
      ensures trace == old(trace) + [s]
    {
      trace := trace + [s];
    }
  }
}
