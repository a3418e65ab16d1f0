/** Arrays of `count` elements of `size` bytes, `stride` bytes apart, in a piece of memory. */
module StridedArray {
  import opened Arithmetic
  import opened Bytes

  datatype Strided = Strided(memory: seq<Byte>, size: nat, count: nat, stride: nat)
  {
    /** Every element lies in the memory. */
    ghost predicate Valid() {
      forall i: nat :: i < count ==> Times(i, stride) + size <= |memory|
    }

    ghost function Element(i: nat): (e: seq<Byte>)
      requires Valid() && i < count
      ensures |e| == size
    {
      memory[Times(i, stride)..][..size]
    }

    /** The bytes of the elements from `from` up to `to`. */
    ghost function Packed(from: nat, to: nat): (s: seq<Byte>)
      requires Valid() && to <= count
    {
      if to <= from then [] else Packed(from, to - 1) + Element(to - 1)
    }

    ghost function All(): seq<Byte>
      requires Valid()
    {
      Packed(0, count)
    }
  }

  lemma {:induction false} PackedLength(a: Strided, from: nat, to: nat)
    requires a.Valid() && from <= to <= a.count
    ensures |a.Packed(from, to)| == Times(to - from, a.size)
  {
    if from < to { PackedLength(a, from, to - 1); }
  }

  /** Neighbouring ranges follow each other. */
  lemma {:induction false} PackedSplit(a: Strided, from: nat, mid: nat, to: nat)
    requires a.Valid() && from <= mid <= to <= a.count
    ensures a.Packed(from, to) == a.Packed(from, mid) + a.Packed(mid, to)
  {
    if mid < to {
      PackedSplit(a, from, mid, to - 1);
      assert a.Packed(from, mid) + a.Packed(mid, to - 1) + a.Element(to - 1) == a.Packed(from, mid) + a.Packed(mid, to);
    }
  }

  /** The array without gaps between its elements. */
  ghost function Compact(a: Strided): Strided
    requires a.Valid()
  {
    Strided(a.All(), a.size, a.count, a.size)
  }

  lemma {:induction false} PackedElement(a: Strided, to: nat, i: nat)
    requires a.Valid() && i < to <= a.count
    ensures Times(i, a.size) + a.size <= |a.Packed(0, to)|
    ensures a.Packed(0, to)[Times(i, a.size)..][..a.size] == a.Element(i)
  {
    PackedLength(a, 0, to - 1);
    if i < to - 1 {
      PackedElement(a, to - 1, i);
    }
  }

  /** Where the bytes of the elements are: byte `b` of element `i` lies `i` strides and `b` bytes into the
      memory, and without gaps `i` sizes and `b` bytes into the packed array. */
  lemma ElementBytes(a: Strided, i: nat, b: nat)
    requires a.Valid() && i < a.count && b < a.size
    ensures i * a.stride + b < |a.memory| && a.Element(i)[b] == a.memory[i * a.stride + b]
    ensures i * a.size + b < |a.All()| && a.All()[i * a.size + b] == a.memory[i * a.stride + b]
  {
    TimesIs(i, a.stride);
    TimesIs(i, a.size);
    PackedElement(a, a.count, i);
    assert a.All()[i * a.size..][..a.size][b] == a.All()[i * a.size + b];
  }

  /** Compaction keeps every element, and an array that has been compacted stays as it is. */
  lemma CompactElements(a: Strided)
    requires a.Valid()
    ensures var b := Compact(a);
      b.Valid() && b.All() == a.All() && Compact(b) == b && forall i: nat :: i < a.count ==>
        b.Element(i) == a.Element(i)
  {
    var b := Compact(a);
    forall i: nat | i < a.count ensures Times(i, b.stride) + b.size <= |b.memory| {
      PackedElement(a, a.count, i);
    }
    forall i: nat | i < a.count ensures b.Element(i) == a.Element(i) {
      PackedElement(a, a.count, i);
    }
    SameElements(a, b, a.count);
  }

  lemma {:induction false} SameElements(a: Strided, b: Strided, to: nat)
    requires a.Valid() && b.Valid() && to <= a.count == b.count && a.size == b.size
    requires forall i: nat :: i < to ==> b.Element(i) == a.Element(i)
    ensures b.Packed(0, to) == a.Packed(0, to)
  {
    if to == 0 {
    } else {
      SameElements(a, b, to - 1);
    }
  }

  /** Memory that is filled exactly by its elements is read back as it is. */
  lemma {:induction false} Contiguous(memory: seq<Byte>, size: nat, count: nat)
    requires |memory| == Times(count, size)
    ensures var a := Strided(memory, size, count, size); a.Valid() && a.All() == memory
  {
    var a := Strided(memory, size, count, size);
    forall i: nat | i < count ensures Times(i, size) + size <= |memory| { TimesMonotone(i, count, size); }
    ContiguousUpTo(a, count);
    assert memory[..Times(count, size)] == memory;
  }

  lemma {:induction false} ContiguousUpTo(a: Strided, to: nat)
    requires a.Valid() && a.stride == a.size && to <= a.count
    ensures Times(to, a.size) <= |a.memory| && a.Packed(0, to) == a.memory[..Times(to, a.size)]
  {
    if to == 0 {
    } else {
      ContiguousUpTo(a, to - 1);
      var p := Times(to - 1, a.size);
      assert a.memory[..p + a.size] == a.memory[..p] + a.Element(to - 1);
    }
  }

  /** Fills a storage of its own with the elements of the array, and describes it. */
  method CopyToStorage(a: Strided) returns (storage: array<Byte>, b: Strided)
    requires a.Valid()
    ensures fresh(storage) && b == Compact(a) && storage[..] == b.memory
  {
    TimesIs(a.count, a.size);
    PackedLength(a, 0, a.count);
    storage := new Byte[a.count * a.size](_ => 0);
    for i := 0 to a.count
      invariant storage.Length == Times(a.count, a.size) && Times(i, a.size) <= storage.Length
      invariant storage[..Times(i, a.size)] == a.Packed(0, i)
    {
      TimesIs(i, a.size);
      TimesIs(i, a.stride);
      TimesMonotone(i, a.count, a.size);
      CopyBytes(a.memory, i * a.stride, storage, i * a.size, a.size);
      PackedLength(a, 0, i);
      assert storage[..Times(i, a.size) + a.size] == a.Packed(0, i) + a.Element(i);
    }
    b := Strided(storage[..], a.size, a.count, a.size);
  }

  method CopyBytes(memory: seq<Byte>, source: nat, target: array<Byte>, at: nat, n: nat)
    requires source + n <= |memory| && at + n <= target.Length
    modifies target
    ensures target[..at] == old(target[..at])
    ensures target[at..at + n] == memory[source..][..n]
    ensures target[at + n..] == old(target[at + n..])
  {
    forall k | 0 <= k < n {
      target[at + k] := memory[source + k];
    }
  }
}
