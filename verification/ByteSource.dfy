/** What both archives read originals from. */
module ByteSource {
  import opened Common

  /**
   * A caller-supplied source of bytes.  It delivers any non-empty part of what was asked for, nothing only
   * at its end, and may fail at any time; `Failed` also stands for a count outside the buffer.
   */
  class Reader {
    var source: Bytes
    ghost var faults: nat

    method Read(max: nat) returns (r: Result<Bytes>)
      requires max > 0
      modifies this
      ensures match r
              case Ok(got) =>
                  faults == old(faults) && |got| <= max && old(source) == got + source && (got == [] ==> source == [])
              case Failed => faults > old(faults)
    {
      if * {
        faults := faults + 1;
        return Failed;
      }
      if source == [] {
        return Ok([]);
      }
      var count :| 1 <= count <= max && count <= |source|;
      r := Ok(source[..count]);
      source := source[count..];
    }
  }
}
