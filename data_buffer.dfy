/** The shared sample buffer (`dataBuffer`) as the rest of the core sees it: an ordered
    sequence of samples with `clear` and `append`. Its capacity and eviction policy live in
    a class that is not part of this model, so neither is modelled here. */
module DataBuffers {

  class DataBuffer {
    var contents: seq<real>

    constructor ()
      ensures contents == []
    {
      contents := [];
    }

    /** `clear()`: empties the buffer. */
    method Clear()
      modifies this
      ensures contents == []
    {
      contents := [];
    }

    /** `append(v)`: adds one sample at the end. */
    method Append(v: real)
      modifies this
      ensures contents == old(contents) + [v]
    {
      contents := contents + [v];
    }
  }
}
