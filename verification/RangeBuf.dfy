/** A chunk of the stream. `RangeBuf::from` is the only constructor the crate uses, so the
    source's `start` is always 0 and its `len` the length of `data`; neither is kept here. */
module RangeBuffer {
  import opened Bytes

  datatype RangeBuf = RangeBuf(data: seq<Byte>, pos: nat, off: nat)
  {
    function Off(): nat {
      off + pos
    }

    function Len(): (n: nat)
      ensures n <= |data|
    {
      if pos <= |data| then |data| - pos else 0
    }

    function MaxOff(): nat {
      Off() + Len()
    }

    function Consume(count: nat): RangeBuf {
      this.(pos := pos + count)
    }
  }

  function From(data: seq<Byte>, off: nat): RangeBuf {
    RangeBuf(data, 0, off)
  }
}
