/** The binary form of values, of nested boxed values, and of jobs. */
module Serialization {
  import opened Arithmetic
  import opened Bytes
  import opened Buffers
  import opened StridedArray

  /** A boxed value; floating-point numbers are the bytes that they lie in, and `Other` is a value of a
      type that cannot be saved. The address of an array has one of five types, named by `index`. */
  datatype Boxed =
    | IntBox(i: int)
    | FloatBox(bytes: seq<Byte>)
    | DoubleBox(bytes: seq<Byte>)
    | SizeBox(n: nat)
    | StringBox(text: seq<Byte>)
    | ArrayBox(index: nat, array: Strided)
    | VectorBox(elements: seq<Boxed>)
    | Undefined
    | Other

  /** The value is one that the source's types can hold. */
  ghost predicate Fits(v: Boxed) {
    match v
    case IntBox(i) => IsInt(i)
    case FloatBox(b) => |b| == 4
    case DoubleBox(b) => |b| == 8
    case SizeBox(n) => IsSize(n)
    case StringBox(t) => IsSize(|t|)
    case ArrayBox(index, a) => index < 5 && a.Valid() && IsSize(a.size) && IsSize(a.count)
    case VectorBox(es) => IsSize(|es|) && forall i :: 0 <= i < |es| ==> Fits(es[i])
    case Undefined => true
    case Other => true
  }

  predicate Savable(v: Boxed) {
    match v
    case VectorBox(es) => AllSavable(es)
    case Other => false
    case _ => true
  }

  predicate AllSavable(es: seq<Boxed>) {
    es == [] || (Savable(es[0]) && AllSavable(es[1..]))
  }

  function Tag(v: Boxed): int {
    match v
    case IntBox(_) => 0
    case FloatBox(_) => 1
    case DoubleBox(_) => 2
    case SizeBox(_) => 3
    case StringBox(_) => 4
    case ArrayBox(_, _) => 5
    case VectorBox(_) => 6
    case Undefined => 7
    case Other => -1
  }

  function StringBytes(t: seq<Byte>): seq<Byte> {
    SizeBytes(|t|) + t
  }

  ghost function ArrayBytes(index: nat, a: Strided): seq<Byte>
    requires a.Valid()
  {
    SizeBytes(index) + SizeBytes(a.size) + SizeBytes(a.count) + a.All()
  }

  /** What saving writes; when it throws, what it has written by then. */
  ghost function Written(v: Boxed): seq<Byte>
    requires Fits(v)
    decreases v, 1
  {
    if v.Other? then [] else IntBytes(Tag(v)) + Body(v)
  }

  /** What follows the tag. */
  ghost function Body(v: Boxed): seq<Byte>
    requires Fits(v)
    decreases v, 0
  {
    match v
    case IntBox(i) => IntBytes(i)
    case FloatBox(b) => b
    case DoubleBox(b) => b
    case SizeBox(n) => SizeBytes(n)
    case StringBox(t) => StringBytes(t)
    case ArrayBox(index, a) => ArrayBytes(index, a)
    case VectorBox(es) => SizeBytes(|es|) + WrittenAll(es)
    case Undefined => []
    case Other => []
  }

  ghost function WrittenAll(es: seq<Boxed>): seq<Byte>
    requires forall i :: 0 <= i < |es| ==> Fits(es[i])
    decreases es
  {
    if es == [] then []
    else if !Savable(es[0]) then Written(es[0])
    else Written(es[0]) + WrittenAll(es[1..])
  }

  /** The bytes of a value: a tag of four bytes, and then what the kind of value needs; numbers have their
      least significant byte first. */
  lemma Format(v: Boxed)
    requires Fits(v)
    ensures Written(v) == match v
      case IntBox(i) => Encode(4, 0) + Encode(4, i % 0x1_0000_0000)
      case FloatBox(x) => Encode(4, 1) + x
      case DoubleBox(x) => Encode(4, 2) + x
      case SizeBox(n) => Encode(4, 3) + Encode(8, n)
      case StringBox(t) => Encode(4, 4) + Encode(8, |t|) + t
      case ArrayBox(index, a) => Encode(4, 5) + Encode(8, index) + Encode(8, a.size) + Encode(8, a.count) + a.All()
      case VectorBox(es) => Encode(4, 6) + Encode(8, |es|) + WrittenAll(es)
      case Undefined => Encode(4, 7)
      case Other => []
  {
    TagBytes(v);
    match v
    case IntBox(i) => IntBytesAre(i);
    case StringBox(t) => JoinThree(Encode(4, 4), Encode(8, |t|), t);
    case ArrayBox(index, a) =>
      JoinThree(Encode(4, 5), Encode(8, index) + Encode(8, a.size) + Encode(8, a.count), a.All());
      JoinThree(Encode(4, 5), Encode(8, index) + Encode(8, a.size), Encode(8, a.count));
      JoinThree(Encode(4, 5), Encode(8, index), Encode(8, a.size));
    case VectorBox(es) => JoinThree(Encode(4, 6), Encode(8, |es|), WrittenAll(es));
    case _ =>
  }

  function TagNumber(v: Boxed): nat {
    if v.Other? then 0xFFFF_FFFF else Tag(v)
  }

  lemma TagBytes(v: Boxed)
    requires Fits(v)
    ensures IntBytes(Tag(v)) == Encode(4, TagNumber(v))
  {
    IntBytesAre(Tag(v));
  }

  lemma JoinThree(x: seq<Byte>, y: seq<Byte>, z: seq<Byte>)
    ensures x + (y + z) == x + y + z
  {
  }

  /** A value can be saved unless it is, or has somewhere inside, one of another type. */
  lemma {:induction false} SavableMeans(es: seq<Boxed>)
    ensures Savable(VectorBox(es)) <==> forall i :: 0 <= i < |es| ==> Savable(es[i])
    ensures !Savable(Other) && forall v: Boxed :: !v.VectorBox? && !v.Other? ==> Savable(v)
  {
    if es == [] {
    } else {
      SavableMeans(es[1..]);
      assert es == [es[0]] + es[1..];
      assert forall i :: 0 <= i < |es[1..]| ==> es[1..][i] == es[i + 1];
    }
  }

  /** The outcome of loading: a value and the position behind it, a tag that is none, or bytes missing. */
  datatype Read<T> = Got(value: T, next: nat) | BadTag | PastEnd {
    predicate Ok() { Got? }
  }

  function ReadBytes(s: seq<Byte>, p: nat, n: nat): (r: Read<seq<Byte>>)
    ensures r.Got? ==> r.next == p + n <= |s|
  {
    if p + n <= |s| then Got(s[p..p + n], p + n) else PastEnd
  }

  function ReadSize(s: seq<Byte>, p: nat): (r: Read<nat>)
    ensures r.Got? ==> r.next == p + 8 <= |s|
  {
    if p + 8 <= |s| then Got(Decode(s[p..p + 8]), p + 8) else PastEnd
  }

  function ReadInt(s: seq<Byte>, p: nat): (r: Read<int>)
    ensures r.Got? ==> r.next == p + 4 <= |s|
  {
    if p + 4 <= |s| then Got(IntOf(s[p..p + 4]), p + 4) else PastEnd
  }

  function ReadString(s: seq<Byte>, p: nat): (r: Read<seq<Byte>>)
    ensures r.Got? ==> p + 8 <= r.next <= |s|
  {
    var n := ReadSize(s, p);
    if n.Got? then ReadBytes(s, n.next, n.value) else PastEnd
  }

  /** An index that names no type of address leaves the array without memory. */
  function ReadArray(s: seq<Byte>, p: nat): (r: Read<Boxed>)
    ensures r.Got? ==> p + 24 <= r.next <= |s|
  {
    if p + 24 > |s| then PastEnd
    else
      var index, size, count := Decode(s[p..p + 8]), Decode(s[p + 8..p + 16]), Decode(s[p + 16..p + 24]);
      var data := ReadBytes(s, p + 24, Times(count, size));
      if !data.Got? then PastEnd
      else if index < 5 then Got(ArrayBox(index, Strided(data.value, size, count, size)), data.next)
      else Got(ArrayBox(0, Strided([], size, count, size)), data.next)
  }

  function Left(s: seq<Byte>, p: nat): nat {
    if p <= |s| then |s| - p else 0
  }

  function Load(s: seq<Byte>, p: nat): (r: Read<Boxed>)
    ensures r.Got? ==> p + 4 <= r.next <= |s|
    decreases Left(s, p), 0
  {
    var tag := ReadInt(s, p);
    if !tag.Got? then PastEnd
    else LoadTagged(s, tag.next, tag.value)
  }

  function LoadTagged(s: seq<Byte>, p: nat, tag: int): (r: Read<Boxed>)
    requires p <= |s|
    ensures r.Got? ==> p <= r.next <= |s|
    decreases Left(s, p), 2
  {
    if tag == 0 then
      var r := ReadInt(s, p); if r.Got? then Got(IntBox(r.value), r.next) else PastEnd
    else if tag == 1 then
      var r := ReadBytes(s, p, 4); if r.Got? then Got(FloatBox(r.value), r.next) else PastEnd
    else if tag == 2 then
      var r := ReadBytes(s, p, 8); if r.Got? then Got(DoubleBox(r.value), r.next) else PastEnd
    else if tag == 3 then
      var r := ReadSize(s, p); if r.Got? then Got(SizeBox(r.value), r.next) else PastEnd
    else if tag == 4 then
      var r := ReadString(s, p); if r.Got? then Got(StringBox(r.value), r.next) else PastEnd
    else if tag == 6 then
      var n := ReadSize(s, p);
      if !n.Got? then PastEnd
      else
        var r := LoadElements(s, n.next, n.value);
        match r
        case Got(es, next) => Got(VectorBox(es), next)
        case BadTag => BadTag
        case PastEnd => PastEnd
    else if tag == 5 then ReadArray(s, p)
    else if tag == 7 then Got(Undefined, p)
    else BadTag
  }

  function LoadElements(s: seq<Byte>, p: nat, n: nat): (r: Read<seq<Boxed>>)
    requires p <= |s|
    ensures r.Got? ==> p <= r.next <= |s| && |r.value| == n
    decreases Left(s, p), 1, n
  {
    if n == 0 then Got([], p)
    else
      match Load(s, p)
      case BadTag => BadTag
      case PastEnd => PastEnd
      case Got(v, q) =>
        match LoadElements(s, q, n - 1)
        case BadTag => BadTag
        case PastEnd => PastEnd
        case Got(vs, r) => Got([v] + vs, r)
  }

  /** The value with all its arrays without gaps. */
  ghost function Compacted(v: Boxed): Boxed
    requires Fits(v)
  {
    match v
    case ArrayBox(index, a) => ArrayBox(index, Compact(a))
    case VectorBox(es) => VectorBox(CompactedAll(es))
    case _ => v
  }

  ghost function CompactedAll(es: seq<Boxed>): (r: seq<Boxed>)
    requires forall i :: 0 <= i < |es| ==> Fits(es[i])
    ensures |r| == |es|
  {
    if es == [] then [] else [Compacted(es[0])] + CompactedAll(es[1..])
  }

  /** A tag that none of the kinds of value has is an error, and an array with an index that names no type of
      address comes without memory. */
  lemma UnknownNumbers(s: seq<Byte>, p: nat)
    ensures p + 4 <= |s| && !(0 <= IntOf(s[p..p + 4]) <= 7) ==> Load(s, p) == BadTag
    ensures p + 24 <= |s| && Decode(s[p..p + 8]) >= 5 && ReadArray(s, p).Got? ==>
      ReadArray(s, p).value ==
        ArrayBox(0, Strided([], Decode(s[p + 8..p + 16]), Decode(s[p + 16..p + 24]), Decode(s[p + 8..p + 16])))
  {
  }

  // Round trips. `At(s, p, x)` says that `x` is what stands in `s` from `p` on.

  predicate At(s: seq<Byte>, p: nat, x: seq<Byte>) {
    p + |x| <= |s| && s[p..p + |x|] == x
  }

  lemma AtSplit(s: seq<Byte>, p: nat, x: seq<Byte>, y: seq<Byte>)
    requires At(s, p, x + y)
    ensures At(s, p, x) && At(s, p + |x|, y)
  {
    assert (x + y)[..|x|] == x && (x + y)[|x|..] == y;
  }

  lemma SizeAt(s: seq<Byte>, p: nat, n: nat)
    requires At(s, p, SizeBytes(n)) && IsSize(n)
    ensures ReadSize(s, p) == Got(n, p + 8)
  {
    DecodeEncode(8, n);
  }

  lemma IntAt(s: seq<Byte>, p: nat, i: int)
    requires IsInt(i) && At(s, p, IntBytes(i))
    ensures ReadInt(s, p) == Got(i, p + 4)
  {
    IntOfBytes(i);
  }

  lemma StringAt(s: seq<Byte>, p: nat, t: seq<Byte>)
    requires At(s, p, StringBytes(t)) && IsSize(|t|)
    ensures ReadString(s, p) == Got(t, p + |StringBytes(t)|)
  {
    AtSplit(s, p, SizeBytes(|t|), t);
    SizeAt(s, p, |t|);
  }

  lemma ArrayAt(s: seq<Byte>, p: nat, index: nat, a: Strided)
    requires a.Valid() && index < 5 && IsSize(a.size) && IsSize(a.count) && At(s, p, ArrayBytes(index, a))
    ensures ReadArray(s, p) == Got(ArrayBox(index, Compact(a)), p + |ArrayBytes(index, a)|)
  {
    ArrayHeadAt(s, p, index, a.size, a.count, a.All());
    PackedLength(a, 0, a.count);
    ArrayFrom(s, p, index, a.size, a.count, a.All());
  }

  lemma ArrayHeadAt(s: seq<Byte>, p: nat, index: nat, size: nat, count: nat, data: seq<Byte>)
    requires IsSize(index) && IsSize(size) && IsSize(count)
    requires At(s, p, SizeBytes(index) + SizeBytes(size) + SizeBytes(count) + data)
    ensures ReadSize(s, p) == Got(index, p + 8) && ReadSize(s, p + 8) == Got(size, p + 16) &&
      ReadSize(s, p + 16) == Got(count, p + 24)
    ensures At(s, p + 24, data)
  {
    var i, z, n := SizeBytes(index), SizeBytes(size), SizeBytes(count);
    AtSplit(s, p, i + z + n, data);
    AtSplit(s, p, i + z, n);
    AtSplit(s, p, i, z);
    SizeAt(s, p, index);
    SizeAt(s, p + 8, size);
    SizeAt(s, p + 16, count);
  }

  lemma ArrayFrom(s: seq<Byte>, p: nat, index: nat, size: nat, count: nat, data: seq<Byte>)
    requires ReadSize(s, p) == Got(index, p + 8) && ReadSize(s, p + 8) == Got(size, p + 16) &&
      ReadSize(s, p + 16) == Got(count, p + 24)
    requires At(s, p + 24, data) && |data| == Times(count, size) && index < 5
    ensures ReadArray(s, p) == Got(ArrayBox(index, Strided(data, size, count, size)), p + 24 + |data|)
  {
  }

  /** Loading what was saved, whatever stands before and behind it, gives the value back with compact
      arrays, and stops right behind it. */
  lemma {:induction false} RoundTrip(v: Boxed, s: seq<Byte>, p: nat)
    requires Fits(v) && Savable(v) && At(s, p, Written(v))
    ensures Load(s, p) == Got(Compacted(v), p + |Written(v)|)
    decreases v, 1
  {
    var body := Body(v);
    AtSplit(s, p, IntBytes(Tag(v)), body);
    IntAt(s, p, Tag(v));
    TaggedRoundTrip(v, s, p + 4);
  }

  lemma {:induction false} TaggedRoundTrip(v: Boxed, s: seq<Byte>, p: nat)
    requires Fits(v) && Savable(v) && p <= |s| && At(s, p, Body(v))
    ensures LoadTagged(s, p, Tag(v)) == Got(Compacted(v), p + |Body(v)|)
    decreases v, 0
  {
    match v
    case IntBox(i) => IntAt(s, p, i);
    case SizeBox(n) => SizeAt(s, p, n);
    case StringBox(t) => StringAt(s, p, t);
    case ArrayBox(index, a) => ArrayAt(s, p, index, a);
    case VectorBox(es) =>
      AtSplit(s, p, SizeBytes(|es|), WrittenAll(es));
      SizeAt(s, p, |es|);
      AllRoundTrip(es, s, p + 8);
    case _ =>
  }

  lemma {:induction false} AllRoundTrip(es: seq<Boxed>, s: seq<Byte>, p: nat)
    requires (forall i :: 0 <= i < |es| ==> Fits(es[i])) && AllSavable(es) && p <= |s| && At(s, p, WrittenAll(es))
    ensures LoadElements(s, p, |es|) == Got(CompactedAll(es), p + |WrittenAll(es)|)
    decreases es
  {
    if es == [] {
    } else {
      AtSplit(s, p, Written(es[0]), WrittenAll(es[1..]));
      RoundTrip(es[0], s, p);
      AllRoundTrip(es[1..], s, p + |Written(es[0])|);
    }
  }

  /** Loading and saving again changes nothing more. */
  lemma {:induction false} CompactedStays(v: Boxed)
    requires Fits(v)
    ensures Fits(Compacted(v)) && Compacted(Compacted(v)) == Compacted(v) && Written(Compacted(v)) == Written(v)
    decreases v
  {
    match v
    case ArrayBox(index, a) => CompactElements(a);
    case VectorBox(es) => AllCompactedStays(es);
    case _ =>
  }

  lemma {:induction false} AllCompactedStays(es: seq<Boxed>)
    requires forall i :: 0 <= i < |es| ==> Fits(es[i])
    ensures var cs := CompactedAll(es);
      (forall i :: 0 <= i < |cs| ==> Fits(cs[i])) && CompactedAll(cs) == cs && WrittenAll(cs) == WrittenAll(es)
    decreases es
  {
    if es == [] {
    } else {
      CompactedStays(es[0]);
      CompactedSavable(es[0]);
      AllCompactedStays(es[1..]);
      assert CompactedAll(es)[1..] == CompactedAll(es[1..]);
    }
  }

  lemma {:induction false} CompactedSavable(v: Boxed)
    requires Fits(v)
    ensures Savable(Compacted(v)) == Savable(v)
    decreases v
  {
    if v.VectorBox? { AllCompactedSavable(v.elements); }
  }

  lemma {:induction false} AllCompactedSavable(es: seq<Boxed>)
    requires forall i :: 0 <= i < |es| ==> Fits(es[i])
    ensures AllSavable(CompactedAll(es)) == AllSavable(es)
    decreases es
  {
    if es == [] {
    } else {
      CompactedSavable(es[0]);
      AllCompactedSavable(es[1..]);
      assert CompactedAll(es)[1..] == CompactedAll(es[1..]);
    }
  }

  // Saving and loading in place.

  /** The buffer after writing `x` at its position. */
  twostate predicate Wrote(b: MemoryBuffer, x: seq<Byte>)
    reads b
  {
    b.position == old(b.position) + |x| && b.buffer == Overwritten(old(b.buffer), old(b.position), x)
  }

  /** The buffer after writing `x` piece by piece: it grows up to the position only if there is a piece. */
  function Appended(buffer: seq<Byte>, p: nat, x: seq<Byte>): seq<Byte> {
    if x == [] then buffer else Overwritten(buffer, p, x)
  }

  lemma AppendTwice(buffer: seq<Byte>, p: nat, x: seq<Byte>, y: seq<Byte>)
    ensures Appended(Appended(buffer, p, x), p + |x|, y) == Appended(buffer, p, x + y)
  {
    if x == [] {
      assert x + y == y;
    } else if y == [] {
      assert x + y == x;
    } else {
      OverwriteTwice(buffer, p, x, y);
    }
  }

  twostate predicate WrotePieces(b: MemoryBuffer, x: seq<Byte>)
    reads b
  {
    b.position == old(b.position) + |x| && b.buffer == Appended(old(b.buffer), old(b.position), x)
  }

  method SaveTwo(b: MemoryBuffer, x: seq<Byte>, y: seq<Byte>)
    modifies b
    ensures Wrote(b, x + y)
  {
    OverwriteTwice(b.buffer, b.position, x, y);
    b.SaveBinary(x);
    b.SaveBinary(y);
  }

  method SaveString(b: MemoryBuffer, t: seq<Byte>)
    modifies b
    ensures Wrote(b, StringBytes(t))
  {
    SaveTwo(b, SizeBytes(|t|), t);
  }

  /** Writes behind what has been written since the buffer was `buffer`. */
  method SaveMore(b: MemoryBuffer, x: seq<Byte>, ghost buffer: seq<Byte>, ghost p: nat, ghost done: seq<Byte>)
    requires b.position == p + |done| && b.buffer == Overwritten(buffer, p, done)
    modifies b
    ensures b.position == p + |done + x| && b.buffer == Overwritten(buffer, p, done + x)
  {
    OverwriteTwice(buffer, p, done, x);
    b.SaveBinary(x);
  }

  method SaveArray(b: MemoryBuffer, index: nat, a: Strided)
    requires a.Valid()
    modifies b
    ensures Wrote(b, ArrayBytes(index, a))
  {
    ghost var buffer, p, head := b.buffer, b.position, SizeBytes(index) + SizeBytes(a.size) + SizeBytes(a.count);
    SaveTwo(b, SizeBytes(index), SizeBytes(a.size));
    SaveMore(b, SizeBytes(a.count), buffer, p, SizeBytes(index) + SizeBytes(a.size));
    SaveArrayElements(b, a, buffer, p, head);
  }

  lemma PackedNext(a: Strided, i: nat, head: seq<Byte>)
    requires a.Valid() && i < a.count
    ensures i * a.stride + a.size <= |a.memory|
    ensures head + a.Packed(0, i) + a.memory[i * a.stride..][..a.size] == head + a.Packed(0, i + 1)
  {
    TimesIs(i, a.stride);
    assert a.memory[i * a.stride..][..a.size] == a.Element(i);
  }

  method SaveArrayElements(b: MemoryBuffer, a: Strided, ghost buffer: seq<Byte>, ghost p: nat, ghost head: seq<Byte>)
    requires a.Valid() && b.position == p + |head| && b.buffer == Overwritten(buffer, p, head)
    modifies b
    ensures b.position == p + |head + a.All()| && b.buffer == Overwritten(buffer, p, head + a.All())
  {
    assert head + [] == head;
    for i := 0 to a.count
      invariant b.position == p + |head + a.Packed(0, i)|
      invariant b.buffer == Overwritten(buffer, p, head + a.Packed(0, i))
    {
      PackedNext(a, i, head);
      SaveMore(b, a.memory[i * a.stride..][..a.size], buffer, p, head + a.Packed(0, i));
    }
  }

  /** Tries the types in the order of the source; false stands for the exception. */
  method SaveBoxed(b: MemoryBuffer, v: Boxed) returns (ok: bool)
    requires Fits(v)
    modifies b
    ensures WrotePieces(b, Written(v)) && ok == Savable(v)
    decreases v, 1
  {
    if v.Other? {
      return false;
    }
    OverwriteTwice(b.buffer, b.position, IntBytes(Tag(v)), Body(v));
    b.SaveBinary(IntBytes(Tag(v)));
    ok := SaveBody(b, v);
  }

  method SaveBody(b: MemoryBuffer, v: Boxed) returns (ok: bool)
    requires Fits(v) && !v.Other? && b.position <= |b.buffer|
    modifies b
    ensures Wrote(b, Body(v)) && ok == Savable(v)
    decreases v, 0
  {
    ok := true;
    match v {
      case IntBox(i) => b.SaveBinary(IntBytes(i));
      case FloatBox(x) => b.SaveBinary(x);
      case DoubleBox(x) => b.SaveBinary(x);
      case SizeBox(n) => b.SaveBinary(SizeBytes(n));
      case StringBox(t) => SaveString(b, t);
      case VectorBox(es) =>
        OverwriteTwice(b.buffer, b.position, SizeBytes(|es|), WrittenAll(es));
        b.SaveBinary(SizeBytes(|es|));
        OverwriteNothing(b.buffer, b.position);
        ok := SaveElements(b, es);
      case ArrayBox(index, a) => SaveArray(b, index, a);
      case Undefined => OverwriteNothing(b.buffer, b.position);
    }
  }

  method SaveElements(b: MemoryBuffer, es: seq<Boxed>) returns (ok: bool)
    requires forall i :: 0 <= i < |es| ==> Fits(es[i])
    modifies b
    ensures WrotePieces(b, WrittenAll(es)) && ok == AllSavable(es)
    decreases es
  {
    ghost var buffer, p, done := b.buffer, b.position, [];
    NothingWritten(es);
    ok := true;
    for i := 0 to |es|
      invariant ok && b.position == p + |done| && b.buffer == Appended(buffer, p, done)
      invariant LeftToWrite(es, i, done)
    {
      NextElement(es, i, done);
      ok := SaveNext(b, es[i], buffer, p, done);
      done := done + Written(es[i]);
      if !ok {
        return;
      }
    }
    AllWritten(es, done);
  }

  lemma AllWritten(es: seq<Boxed>, done: seq<Byte>)
    requires (forall k :: 0 <= k < |es| ==> Fits(es[k])) && LeftToWrite(es, |es|, done)
    ensures WrittenAll(es) == done && AllSavable(es)
  {
    assert es[|es|..] == [];
  }

  lemma NothingWritten(es: seq<Boxed>)
    requires forall k :: 0 <= k < |es| ==> Fits(es[k])
    ensures LeftToWrite(es, 0, [])
  {
    assert es[0..] == es;
  }

  /** Saves an element behind what has been written since the buffer was `buffer`. */
  method SaveNext(b: MemoryBuffer, v: Boxed, ghost buffer: seq<Byte>, ghost p: nat,
                  ghost done: seq<Byte>) returns (ok: bool)
    requires Fits(v) && b.position == p + |done| && b.buffer == Appended(buffer, p, done)
    modifies b
    ensures b.position == p + |done + Written(v)| && b.buffer == Appended(buffer, p, done + Written(v))
    ensures ok == Savable(v)
    decreases v, 2
  {
    AppendTwice(buffer, p, done, Written(v));
    ok := SaveBoxed(b, v);
  }

  /** The elements before `i` could be saved, and are `done`. */
  ghost predicate LeftToWrite(es: seq<Boxed>, i: nat, done: seq<Byte>)
    requires i <= |es| && forall k :: 0 <= k < |es| ==> Fits(es[k])
  {
    WrittenAll(es) == done + WrittenAll(es[i..]) && AllSavable(es) == AllSavable(es[i..])
  }

  lemma NextElement(es: seq<Boxed>, i: nat, done: seq<Byte>)
    requires i < |es| && (forall k :: 0 <= k < |es| ==> Fits(es[k])) && LeftToWrite(es, i, done)
    ensures Savable(es[i]) ==> LeftToWrite(es, i + 1, done + Written(es[i]))
    ensures !Savable(es[i]) ==> WrittenAll(es) == done + Written(es[i]) && !AllSavable(es)
  {
    var rest := es[i..];
    assert rest[0] == es[i] && rest[1..] == es[i + 1..];
    FirstWritten(rest);
    if Savable(es[i]) {
      assert done + (Written(es[i]) + WrittenAll(rest[1..])) == done + Written(es[i]) + WrittenAll(rest[1..]);
    }
  }

  lemma FirstWritten(es: seq<Boxed>)
    requires es != [] && forall k :: 0 <= k < |es| ==> Fits(es[k])
    ensures Savable(es[0]) ==>
      WrittenAll(es) == Written(es[0]) + WrittenAll(es[1..]) && AllSavable(es) == AllSavable(es[1..])
    ensures !Savable(es[0]) ==> WrittenAll(es) == Written(es[0]) && !AllSavable(es)
  {
  }

  method LoadSize(b: MemoryBuffer) returns (n: nat)
    requires ReadSize(b.buffer, b.position).Ok()
    modifies b`position
    ensures Got(n, b.position) == ReadSize(b.buffer, old(b.position))
  {
    var x := b.LoadBinary(8);
    n := Decode(x);
  }

  method LoadInt(b: MemoryBuffer) returns (i: int)
    requires ReadInt(b.buffer, b.position).Ok()
    modifies b`position
    ensures Got(i, b.position) == ReadInt(b.buffer, old(b.position))
  {
    var x := b.LoadBinary(4);
    i := IntOf(x);
  }

  method LoadString(b: MemoryBuffer) returns (t: seq<Byte>)
    requires ReadString(b.buffer, b.position).Ok()
    modifies b`position
    ensures Got(t, b.position) == ReadString(b.buffer, old(b.position))
  {
    var n := LoadSize(b);
    ghost var p := b.position;
    t := [];
    for i := 0 to n
      invariant b.position == p + i && t == b.buffer[p..p + i]
    {
      var c := b.LoadBinary(1);
      t := t + c;
    }
  }

  method LoadArray(b: MemoryBuffer) returns (v: Boxed)
    requires ReadArray(b.buffer, b.position).Ok()
    modifies b`position
    ensures Got(v, b.position) == ReadArray(b.buffer, old(b.position))
  {
    var index := LoadSize(b);
    var size := LoadSize(b);
    var count := LoadSize(b);
    TimesIs(count, size);
    var storage := b.LoadBinary(count * size);
    if index < 5 {
      v := ArrayBox(index, Strided(storage, size, count, size));
    } else {
      v := ArrayBox(0, Strided([], size, count, size));
    }
  }

  /** Loads a value at the position of the buffer; false stands for the exception on an unknown tag. */
  method LoadBoxed(b: MemoryBuffer) returns (ok: bool, v: Boxed)
    requires !Load(b.buffer, b.position).PastEnd?
    modifies b`position
    ensures ok == Load(b.buffer, old(b.position)).Got?
    ensures ok ==> Load(b.buffer, old(b.position)) == Got(v, b.position)
    decreases Left(b.buffer, b.position), 0
  {
    ok, v := true, Undefined;
    var tag := LoadInt(b);
    if tag == 0 {
      var i := LoadInt(b);
      v := IntBox(i);
    } else if tag == 1 {
      var x := b.LoadBinary(4);
      v := FloatBox(x);
    } else if tag == 2 {
      var x := b.LoadBinary(8);
      v := DoubleBox(x);
    } else if tag == 3 {
      var n := LoadSize(b);
      v := SizeBox(n);
    } else if tag == 4 {
      var t := LoadString(b);
      v := StringBox(t);
    } else if tag == 6 {
      var n := LoadSize(b);
      var es;
      ok, es := LoadVector(b, n);
      v := VectorBox(es);
    } else if tag == 5 {
      v := LoadArray(b);
    } else if tag != 7 {
      ok := false;
    }
  }

  function Prepend(es: seq<Boxed>, r: Read<seq<Boxed>>): Read<seq<Boxed>> {
    match r
    case Got(more, next) => Got(es + more, next)
    case BadTag => BadTag
    case PastEnd => PastEnd
  }

  lemma PrependMore(es: seq<Boxed>, v: Boxed, more: seq<Boxed>)
    ensures es + ([v] + more) == es + [v] + more
  {
  }

  /** One element more: what is left to load follows it. */
  lemma LoadedElement(s: seq<Byte>, p: nat, n: nat, es: seq<Boxed>)
    requires p <= |s| && n > 0
    ensures var r := Load(s, p);
      Prepend(es, LoadElements(s, p, n)) ==
        if r.Got? then Prepend(es + [r.value], LoadElements(s, r.next, n - 1))
        else if r.BadTag? then BadTag else PastEnd
  {
    var r := Load(s, p);
    if r.Got? {
      var rest := LoadElements(s, r.next, n - 1);
      if rest.Got? { PrependMore(es, r.value, rest.value); }
    }
  }

  method LoadVector(b: MemoryBuffer, n: nat) returns (ok: bool, es: seq<Boxed>)
    requires b.position <= |b.buffer| && !LoadElements(b.buffer, b.position, n).PastEnd?
    modifies b`position
    ensures ok == LoadElements(b.buffer, old(b.position), n).Got?
    ensures ok ==> LoadElements(b.buffer, old(b.position), n) == Got(es, b.position)
    decreases Left(b.buffer, b.position), 1
  {
    ghost var s, p := b.buffer, b.position;
    ok, es := true, [];
    assert forall more: seq<Boxed> :: [] + more == more;
    for i := 0 to n
      invariant ok && b.buffer == s && p <= b.position <= |s|
      invariant LoadElements(s, p, n) == Prepend(es, LoadElements(s, b.position, n - i))
    {
      LoadedElement(s, b.position, n - i, es);
      var v;
      ok, v := LoadBoxed(b);
      if !ok {
        return;
      }
      es := es + [v];
    }
    assert es + [] == es;
  }

  // Buffers and jobs.

  /** A buffer that is itself saved: only what lies before its position goes out. */
  datatype Memory = Memory(position: nat, buffer: seq<Byte>)

  predicate MemoryFits(m: Memory) {
    m.position <= |m.buffer| && IsSize(m.position)
  }

  function MemoryBytes(m: Memory): seq<Byte>
    requires MemoryFits(m)
  {
    SizeBytes(m.position) + m.buffer[..m.position]
  }

  function ReadMemory(s: seq<Byte>, p: nat): (r: Read<Memory>)
    ensures r.Got? ==> p + 8 <= r.next <= |s|
  {
    var n := ReadSize(s, p);
    if !n.Got? then PastEnd
    else
      var b := ReadBytes(s, n.next, n.value);
      if b.Got? then Got(Memory(n.value, b.value), b.next) else PastEnd
  }

  /** A buffer comes back as it was exactly when its position is its end. */
  lemma MemoryAt(s: seq<Byte>, p: nat, m: Memory)
    requires MemoryFits(m) && At(s, p, MemoryBytes(m))
    ensures ReadMemory(s, p) == Got(Memory(m.position, m.buffer[..m.position]), p + |MemoryBytes(m)|)
    ensures ReadMemory(s, p).value == m <==> m.position == |m.buffer|
  {
    AtSplit(s, p, SizeBytes(m.position), m.buffer[..m.position]);
    SizeAt(s, p, m.position);
  }

  datatype Group = Group(name: seq<Byte>, size: int)

  datatype Job = Job(id: nat, name: seq<Byte>, function_: seq<Byte>, arg: Memory, groups: seq<Group>, size: nat)

  predicate JobFits(j: Job) {
    IsSize(j.id) && IsSize(|j.name|) && IsSize(|j.function_|) && MemoryFits(j.arg) && IsSize(|j.groups|) &&
      IsSize(j.size) &&
    forall i :: 0 <= i < |j.groups| ==> GroupFits(j.groups[i])
  }

  predicate GroupFits(g: Group) {
    IsSize(|g.name|) && IsInt(g.size)
  }

  function GroupBytes(g: Group): seq<Byte>
    requires GroupFits(g)
  {
    StringBytes(g.name) + IntBytes(g.size)
  }

  function GroupsBytes(gs: seq<Group>): seq<Byte>
    requires forall i :: 0 <= i < |gs| ==> GroupFits(gs[i])
  {
    if gs == [] then [] else GroupBytes(gs[0]) + GroupsBytes(gs[1..])
  }

  /** The bytes of a job: its fields in order, texts, buffers and the list of groups behind their lengths. */
  lemma JobFormat(j: Job)
    requires JobFits(j)
    ensures JobBytes(j) == Encode(8, j.id) + Encode(8, |j.name|) + j.name + Encode(8, |j.function_|) + j.function_ +
      Encode(8, j.arg.position) + j.arg.buffer[..j.arg.position] +
      Encode(8, |j.groups|) + GroupsBytes(j.groups) + Encode(8, j.size)
  {
    NamesFormat(j);
    SizesFormat(j);
    var names := Encode(8, j.id) + Encode(8, |j.name|) + j.name + Encode(8, |j.function_|) + j.function_;
    JoinSix(names, Encode(8, j.arg.position), j.arg.buffer[..j.arg.position], Encode(8, |j.groups|),
      GroupsBytes(j.groups), Encode(8, j.size));
  }

  lemma NamesFormat(j: Job)
    ensures NamesBytes(j) == Encode(8, j.id) + Encode(8, |j.name|) + j.name + Encode(8, |j.function_|) + j.function_
  {
    var id, name := SizeBytes(j.id), StringBytes(j.name);
    assert id + (name + StringBytes(j.function_)) == (id + name) + StringBytes(j.function_);
    assert id + name == id + Encode(8, |j.name|) + j.name;
  }

  lemma SizesFormat(j: Job)
    requires JobFits(j)
    ensures SizesBytes(j) == Encode(8, |j.groups|) + GroupsBytes(j.groups) + Encode(8, j.size)
  {
  }

  lemma JoinSix(a: seq<Byte>, b: seq<Byte>, c: seq<Byte>, d: seq<Byte>, e: seq<Byte>, f: seq<Byte>)
    ensures a + ((b + c) + (d + e + f)) == a + b + c + d + e + f
  {
  }

  lemma GroupFormat(g: Group)
    requires GroupFits(g)
    ensures GroupBytes(g) == Encode(8, |g.name|) + g.name + Encode(4, g.size % 0x1_0000_0000)
  {
    IntBytesAre(g.size);
  }

  lemma {:induction false} GroupsPrefix(gs: seq<Group>, i: nat)
    requires i < |gs| && forall k :: 0 <= k < |gs| ==> GroupFits(gs[k])
    ensures GroupsBytes(gs[..i]) + GroupBytes(gs[i]) <= GroupsBytes(gs)
  {
    if i == 0 {
    } else {
      GroupsPrefix(gs[1..], i - 1);
      assert gs[..i][1..] == gs[1..][..i - 1];
      var first, rest := GroupBytes(gs[0]), GroupsBytes(gs[1..][..i - 1]);
      assert first + rest + GroupBytes(gs[i]) == first + (rest + GroupBytes(gs[i]));
    }
  }

  /** The groups of a job one behind the other, each as its name and its size. */
  lemma GroupsFormat(gs: seq<Group>, i: nat)
    requires i < |gs| && forall k :: 0 <= k < |gs| ==> GroupFits(gs[k])
    ensures var before, g := GroupsBytes(gs[..i]), gs[i];
      before + (Encode(8, |g.name|) + g.name + Encode(4, g.size % 0x1_0000_0000)) <= GroupsBytes(gs)
  {
    GroupFormat(gs[i]);
    GroupsPrefix(gs, i);
  }

  function ReadGroup(s: seq<Byte>, p: nat): Read<Group> {
    var name := ReadString(s, p);
    if !name.Got? then PastEnd
    else
      var size := ReadInt(s, name.next);
      if size.Got? then Got(Group(name.value, size.value), size.next) else PastEnd
  }

  function ReadGroups(s: seq<Byte>, p: nat, n: nat): Read<seq<Group>>
    decreases n
  {
    if n == 0 then Got([], p)
    else
      var first := ReadGroup(s, p);
      if !first.Got? then PastEnd
      else
        var more := ReadGroups(s, first.next, n - 1);
        if more.Got? then Got([first.value] + more.value, more.next) else PastEnd
  }

  /** The fields of a job in the order of the source, in two parts. */
  function JobBytes(j: Job): seq<Byte>
    requires JobFits(j)
  {
    NamesBytes(j) + (MemoryBytes(j.arg) + SizesBytes(j))
  }

  function NamesBytes(j: Job): seq<Byte> {
    SizeBytes(j.id) + (StringBytes(j.name) + StringBytes(j.function_))
  }

  function SizesBytes(j: Job): seq<Byte>
    requires JobFits(j)
  {
    SizeBytes(|j.groups|) + (GroupsBytes(j.groups) + SizeBytes(j.size))
  }

  function ReadNames(s: seq<Byte>, p: nat): Read<(nat, seq<Byte>, seq<Byte>)> {
    var id := ReadSize(s, p); if !id.Got? then PastEnd else
    var name := ReadString(s, id.next); if !name.Got? then PastEnd else
    var function_ := ReadString(s, name.next); if !function_.Got? then PastEnd else
    Got((id.value, name.value, function_.value), function_.next)
  }

  function ReadSizes(s: seq<Byte>, p: nat): Read<(seq<Group>, nat)> {
    var n := ReadSize(s, p); if !n.Got? then PastEnd else
    var groups := ReadGroups(s, n.next, n.value); if !groups.Got? then PastEnd else
    var size := ReadSize(s, groups.next); if !size.Got? then PastEnd else
    Got((groups.value, size.value), size.next)
  }

  function ReadJob(s: seq<Byte>, p: nat): Read<Job> {
    var names := ReadNames(s, p); if !names.Got? then PastEnd else
    var arg := ReadMemory(s, names.next); if !arg.Got? then PastEnd else
    var sizes := ReadSizes(s, arg.next); if !sizes.Got? then PastEnd else
    Got(Job(names.value.0, names.value.1, names.value.2, arg.value, sizes.value.0, sizes.value.1), sizes.next)
  }

  lemma GroupAt(s: seq<Byte>, p: nat, g: Group)
    requires GroupFits(g) && At(s, p, GroupBytes(g))
    ensures ReadGroup(s, p) == Got(g, p + |GroupBytes(g)|)
  {
    AtSplit(s, p, StringBytes(g.name), IntBytes(g.size));
    StringAt(s, p, g.name);
    IntAt(s, p + |StringBytes(g.name)|, g.size);
  }

  lemma {:induction false} GroupsAt(s: seq<Byte>, p: nat, gs: seq<Group>)
    requires (forall i :: 0 <= i < |gs| ==> GroupFits(gs[i])) && At(s, p, GroupsBytes(gs))
    ensures ReadGroups(s, p, |gs|) == Got(gs, p + |GroupsBytes(gs)|)
    decreases |gs|
  {
    if gs == [] {
    } else {
      var first, rest := GroupBytes(gs[0]), GroupsBytes(gs[1..]);
      AtSplit(s, p, first, rest);
      GroupAt(s, p, gs[0]);
      GroupsAt(s, p + |first|, gs[1..]);
      GroupsFrom(s, p, p + |first|, p + |first| + |rest|, gs);
    }
  }

  lemma GroupsFrom(s: seq<Byte>, p: nat, p1: nat, p2: nat, gs: seq<Group>)
    requires gs != [] && ReadGroup(s, p) == Got(gs[0], p1) && ReadGroups(s, p1, |gs| - 1) == Got(gs[1..], p2)
    ensures ReadGroups(s, p, |gs|) == Got(gs, p2)
  {
    assert gs == [gs[0]] + gs[1..];
  }

  lemma NamesAt(s: seq<Byte>, p: nat, j: Job)
    requires JobFits(j) && At(s, p, NamesBytes(j))
    ensures ReadNames(s, p) == Got((j.id, j.name, j.function_), p + |NamesBytes(j)|)
  {
    var name, function_ := StringBytes(j.name), StringBytes(j.function_);
    AtSplit(s, p, SizeBytes(j.id), name + function_);
    SizeAt(s, p, j.id);
    AtSplit(s, p + 8, name, function_);
    StringAt(s, p + 8, j.name);
    StringAt(s, p + 8 + |name|, j.function_);
  }

  lemma SizesAt(s: seq<Byte>, p: nat, j: Job)
    requires JobFits(j) && At(s, p, SizesBytes(j))
    ensures ReadSizes(s, p) == Got((j.groups, j.size), p + |SizesBytes(j)|)
  {
    var groups, size := GroupsBytes(j.groups), SizeBytes(j.size);
    AtSplit(s, p, SizeBytes(|j.groups|), groups + size);
    SizeAt(s, p, |j.groups|);
    AtSplit(s, p + 8, groups, size);
    GroupsAt(s, p + 8, j.groups);
    SizeAt(s, p + 8 + |groups|, j.size);
  }

  /** The job with its argument cut at its position: the same job exactly when that is the end. */
  function Cut(j: Job): (c: Job)
    requires JobFits(j)
    ensures c == j <==> j.arg.position == |j.arg.buffer|
  {
    j.(arg := Memory(j.arg.position, j.arg.buffer[..j.arg.position]))
  }

  /** A job comes back with its argument cut. */
  lemma JobRoundTrip(j: Job, s: seq<Byte>, p: nat)
    requires JobFits(j) && At(s, p, JobBytes(j))
    ensures ReadJob(s, p) == Got(Cut(j), p + |JobBytes(j)|)
  {
    var names, arg, sizes := NamesBytes(j), MemoryBytes(j.arg), SizesBytes(j);
    AtSplit(s, p, names, arg + sizes);
    NamesAt(s, p, j);
    var p1 := p + |names|;
    AtSplit(s, p1, arg, sizes);
    MemoryAt(s, p1, j.arg);
    var p2 := p1 + |arg|;
    SizesAt(s, p2, j);
    JobFromParts(s, p, p1, p2, p2 + |sizes|, Cut(j));
  }

  lemma JobFromParts(s: seq<Byte>, p: nat, p1: nat, p2: nat, p3: nat, j: Job)
    requires ReadNames(s, p) == Got((j.id, j.name, j.function_), p1)
    requires ReadMemory(s, p1) == Got(j.arg, p2) && ReadSizes(s, p2) == Got((j.groups, j.size), p3)
    ensures ReadJob(s, p) == Got(j, p3)
  {
  }

  // Arguments and results of jobs.

  /** What an empty buffer is after a value has been saved to it. */
  ghost function Fresh(v: Boxed): Memory
    requires Fits(v)
  {
    Memory(|Written(v)|, Written(v))
  }

  /** A worker resets the buffer of the argument and loads it: it has the argument of the controller. */
  lemma ArgumentArrives(j: Job, v: Boxed, s: seq<Byte>, p: nat)
    requires Fits(v) && Savable(v) && j.arg == Fresh(v) && JobFits(j) && At(s, p, JobBytes(j))
    ensures ReadJob(s, p).Got? && ReadJob(s, p).value == j
    ensures Load(ReadJob(s, p).value.arg.buffer, 0) == Got(Compacted(v), |Written(v)|)
  {
    JobRoundTrip(j, s, p);
    RoundTrip(v, Written(v), 0);
  }

  /** The message with a result: the id and the name of the job, and the buffer. */
  function ResultBytes(id: nat, name: seq<Byte>, result: Memory): seq<Byte>
    requires MemoryFits(result)
  {
    SizeBytes(id) + (StringBytes(name) + MemoryBytes(result))
  }

  lemma ResultFormat(id: nat, name: seq<Byte>, result: Memory)
    requires MemoryFits(result)
    ensures ResultBytes(id, name, result) ==
      Encode(8, id) + Encode(8, |name|) + name + Encode(8, result.position) + result.buffer[..result.position]
  {
  }

  function ReadResult(s: seq<Byte>): Read<(nat, seq<Byte>, Memory)> {
    var id := ReadSize(s, 0); if !id.Got? then PastEnd else
    var name := ReadString(s, id.next); if !name.Got? then PastEnd else
    var result := ReadMemory(s, name.next); if !result.Got? then PastEnd else
    Got((id.value, name.value, result.value), result.next)
  }

  lemma ResultRoundTrip(id: nat, name: seq<Byte>, result: Memory)
    requires IsSize(id) && IsSize(|name|) && MemoryFits(result) && result.position == |result.buffer|
    ensures var s := ResultBytes(id, name, result); ReadResult(s) == Got((id, name, result), |s|)
  {
    var s := ResultBytes(id, name, result);
    assert At(s, 0, s);
    AtSplit(s, 0, SizeBytes(id), StringBytes(name) + MemoryBytes(result));
    SizeAt(s, 0, id);
    AtSplit(s, 8, StringBytes(name), MemoryBytes(result));
    StringAt(s, 8, name);
    MemoryAt(s, 8 + |StringBytes(name)|, result);
  }

  /** A result that has arrived is read by a caller who resets its buffer first. One who does not reads
      past the end, whatever the result was. */
  lemma ResultArrives(id: nat, name: seq<Byte>, v: Boxed)
    requires IsSize(id) && IsSize(|name|) && Fits(v) && Savable(v) && IsSize(|Written(v)|)
    ensures var r := ReadResult(ResultBytes(id, name, Fresh(v)));
      r.Got? && r.value.0 == id && r.value.1 == name && r.value.2 == Fresh(v)
    ensures var m := ReadResult(ResultBytes(id, name, Fresh(v))).value.2;
      Load(m.buffer, 0) == Got(Compacted(v), |m.buffer|) && Load(m.buffer, m.position) == PastEnd
  {
    ResultRoundTrip(id, name, Fresh(v));
    RoundTrip(v, Written(v), 0);
  }
}
