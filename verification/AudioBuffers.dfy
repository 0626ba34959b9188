/** The fixed buffers of the audio assembler: a PCM buffer with a fill level, and the ring of rear blocks. */
module AudioBuffers {
  import opened Basics
  import opened Options
  import opened AudioAssembly

  class PcmBuffer {
    const data: array<Stereo>
    var length: nat

    ghost predicate Valid()
      reads this
    {
      length <= data.Length
    }

    ghost function Contents(): seq<Stereo>
      requires Valid()
      reads this, data
    {
      data[..length]
    }

    constructor (capacity: nat)
      ensures Valid() && fresh(data) && data.Length == capacity && length == 0 && Contents() == []
    {
      data := new Stereo[capacity];
      length := 0;
    }

    method Append(src: seq<Stereo>)
      requires Valid() && length + |src| <= data.Length
      modifies this`length, data
      ensures Valid() && Contents() == old(Contents()) + src
    {
      for i := 0 to |src|
        modifies data
        invariant data[..length] == old(data[..length])
        invariant data[length..length + i] == src[..i]
      {
        data[length + i] := src[i];
        assert data[length..length + i + 1] == src[..i] + [src[i]];
        assert src[..i + 1] == src[..i] + [src[i]];
      }
      assert data[..length + |src|] == data[..length] + data[length..length + |src|];
      length := length + |src|;
    }

    method Clear()
      requires Valid()
      modifies this`length
      ensures Valid() && length == 0
    {
      length := 0;
    }
  }

  /** A ring of eight completed rear blocks; when it is full the oldest one is dropped. */
  class BlockQueue {
    const slots: array<Block>
    var head: nat
    var count: nat

    ghost predicate Valid()
      reads this
    {
      slots.Length == 8 && head < 8 && count <= 8
    }

    ghost function Contents(): seq<Block>
      requires Valid()
      reads this, slots
    {
      seq(count, i requires 0 <= i < count reads this, slots requires Valid() => slots[(head + i) % 8])
    }

    constructor ()
      ensures Valid() && fresh(slots) && Contents() == []
    {
      slots := new Block[8](_ => []);
      head, count := 0, 0;
    }

    method Clear()
      requires Valid()
      modifies this`head, this`count
      ensures Valid() && Contents() == []
    {
      head, count := 0, 0;
    }

    method Pop() returns (b: Option<Block>)
      requires Valid()
      modifies this`head, this`count
      ensures Valid()
      ensures if old(Contents()) == [] then b.None? && Contents() == []
              else b == Some(old(Contents())[0]) && Contents() == old(Contents())[1..]
    {
      if count == 0 { return None; }
      b := Some(slots[head]);
      head, count := (head + 1) % 8, count - 1;
    }

    /** The oldest block makes room when all eight slots are taken. */
    method Push(b: Block) returns (dropped: bool)
      requires Valid()
      modifies this`head, this`count, slots
      ensures Valid() && dropped == (|old(Contents())| == 8)
      ensures Contents() == (if dropped then old(Contents())[1..] else old(Contents())) + [b]
    {
      dropped := count == 8;
      if dropped { var _ := Pop(); }
      Store(b);
    }

    method Store(b: Block)
      requires Valid() && count < 8
      modifies this`count, slots
      ensures Valid() && Contents() == old(Contents()) + [b]
    {
      ghost var before := Contents();
      slots[(head + count) % 8] := b;
      forall i | 0 <= i < count ensures slots[(head + i) % 8] == before[i] {
        SlotsDiffer(8, head + i, head + count);
      }
      count := count + 1;
    }
  }
}
