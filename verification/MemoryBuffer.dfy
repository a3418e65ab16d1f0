/** A growing byte buffer with one position for writing and reading. */
module Buffers {
  import opened Bytes

  /** The buffer with `x` copied over it at the position; it grows when it is too short. */
  function Overwritten(buffer: seq<Byte>, position: nat, x: seq<Byte>): (b: seq<Byte>)
    ensures |b| == if position + |x| > |buffer| then position + |x| else |buffer|
  {
    var grown := Resized(buffer, if position + |x| > |buffer| then position + |x| else |buffer|);
    grown[..position] + x + grown[position + |x|..]
  }

  lemma OverwriteMeans(buffer: seq<Byte>, position: nat, x: seq<Byte>)
    ensures var b := Overwritten(buffer, position, x);
      b[position..position + |x|] == x &&
      forall i :: 0 <= i < |b| && !(position <= i < position + |x|) ==> b[i] == if i < |buffer| then buffer[i] else 0
  {
  }

  function Resized(buffer: seq<Byte>, n: nat): (b: seq<Byte>)
    ensures |b| == n && forall i :: 0 <= i < n ==> b[i] == if i < |buffer| then buffer[i] else 0
  {
    if n <= |buffer| then buffer[..n] else buffer + seq(n - |buffer|, i => 0)
  }

  class MemoryBuffer {
    var position: nat
    var buffer: seq<Byte>

    constructor (start: nat := 0)
      ensures position == start && buffer == []
    {
      position, buffer := start, [];
    }

    method SaveBinary(x: seq<Byte>)
      modifies this
      ensures position == old(position) + |x|
      ensures buffer == Overwritten(old(buffer), old(position), x)
      ensures old(position) == |old(buffer)| ==> buffer == old(buffer) + x
    {
      if position + |x| > |buffer| {
        buffer := Resized(buffer, position + |x|);
      }
      buffer := buffer[..position] + x + buffer[position + |x|..];
      assert buffer == Overwritten(old(buffer), old(position), x);
      position := position + |x|;
    }

    /** Reading past the end is undefined in the source, so its callers must not. */
    method LoadBinary(count: nat) returns (x: seq<Byte>)
      requires position + count <= |buffer|
      modifies this`position
      ensures x == old(buffer[position..position + count]) && position == old(position) + count
    {
      x := buffer[position..position + count];
      position := position + count;
    }

    method LoadBinaryBack(count: nat) returns (x: seq<Byte>)
      requires count <= |buffer|
      modifies this`buffer
      ensures old(buffer) == buffer + x && |x| == count
    {
      x := buffer[|buffer| - count..];
      buffer := buffer[..|buffer| - count];
    }

    method Reset()
      modifies this`position
      ensures position == 0
    {
      position := 0;
    }

    method Clear()
      modifies this
      ensures position == 0 && buffer == []
    {
      buffer := [];
      Reset();
    }

    method Skip(n: nat)
      modifies this`position
      ensures position == old(position) + n
    {
      position := position + n;
    }

    method Swap(o: MemoryBuffer)
      modifies this, o
      ensures position == old(o.position) && buffer == old(o.buffer)
      ensures o.position == old(position) && o.buffer == old(buffer)
    {
      position, o.position := o.position, position;
      buffer, o.buffer := o.buffer, buffer;
    }

    /** Moves one length-prefixed record over without a copy in between. What `to` holds behind the
        position is cut off, unlike with `SaveBinary`. */
    static method Copy(from: MemoryBuffer, to: MemoryBuffer)
      requires from != to && from.position + 8 <= |from.buffer|
      requires from.position + 8 + Decode(from.buffer[from.position..from.position + 8]) <= |from.buffer|
      modifies from`position, to
      ensures var n := 8 + Decode(old(from.buffer[from.position..from.position + 8]));
        from.position == old(from.position) + n && to.position == old(to.position) + n &&
        to.buffer == Resized(old(to.buffer), old(to.position)) + old(from.buffer[from.position..from.position + n])
    {
      var prefix := from.LoadBinary(8);
      from.position := from.position - 8;
      var total := 8 + Decode(prefix);
      to.buffer := Resized(to.buffer, to.position + total);
      to.buffer := to.buffer[..to.position] + from.buffer[from.position..from.position + total];
      to.position := to.position + total;
      from.position := from.position + total;
    }
  }

  /** Copying a record leaves what saving it would, exactly when the target does not reach behind it. */
  lemma CopyIsSave(target: seq<Byte>, position: nat, record: seq<Byte>)
    ensures Overwritten(target, position, record) == Resized(target, position) + record <==>
      |target| <= position + |record|
  {
    assert Resized(target, position + |record|)[..position] == Resized(target, position);
  }

  /** Two writes one after the other are one write of both. */
  lemma OverwriteTwice(b: seq<Byte>, p: nat, x: seq<Byte>, y: seq<Byte>)
    ensures Overwritten(Overwritten(b, p, x), p + |x|, y) == Overwritten(b, p, x + y)
  {
    var once := Overwritten(b, p, x);
    var twice, both := Overwritten(once, p + |x|, y), Overwritten(b, p, x + y);
    OverwriteMeans(b, p, x);
    OverwriteMeans(once, p + |x|, y);
    OverwriteMeans(b, p, x + y);
    forall i | 0 <= i < |both| ensures twice[i] == both[i] {
      if p <= i < p + |x| {
        assert once[i] == once[p..p + |x|][i - p];
        assert both[i] == both[p..p + |x + y|][i - p];
      } else if p + |x| <= i < p + |x| + |y| {
        assert twice[i] == twice[p + |x|..p + |x| + |y|][i - p - |x|];
        assert both[i] == both[p..p + |x + y|][i - p];
      }
    }
  }

  /** Writing nothing at a position in the buffer changes nothing. */
  lemma OverwriteNothing(b: seq<Byte>, p: nat)
    requires p <= |b|
    ensures Overwritten(b, p, []) == b
  {
  }
}
