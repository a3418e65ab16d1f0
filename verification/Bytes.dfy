/** Little-endian numbers of a fixed width, as they lie in memory. */
module Bytes {
  import opened Arithmetic

  type Byte = x: int | 0 <= x < 256

  function Pow256(w: nat): (r: nat)
    ensures r > 0
  {
    if w == 0 then 1 else 256 * Pow256(w - 1)
  }

  function Encode(w: nat, x: nat): (s: seq<Byte>)
    ensures |s| == w
    decreases w, x
  {
    if w == 0 then [] else [x % 256] + Encode(w - 1, x / 256)
  }

  function Decode(s: seq<Byte>): nat {
    if s == [] then 0 else s[0] + 256 * Decode(s[1..])
  }

  /** A number that fits the width is read back. */
  lemma {:induction false} DecodeEncode(w: nat, x: nat)
    ensures Decode(Encode(w, x)) == x <==> x < Pow256(w)
  {
    if w == 0 {
    } else {
      DecodeEncode(w - 1, x / 256);
      assert Encode(w, x)[1..] == Encode(w - 1, x / 256);
    }
  }

  lemma {:induction false} DecodeFits(s: seq<Byte>)
    ensures Decode(s) < Pow256(|s|)
  {
    if s == [] {
    } else {
      DecodeFits(s[1..]);
    }
  }

  /** The least significant byte comes first. */
  lemma {:induction false} EncodeByte(w: nat, x: nat, i: nat)
    requires i < w
    ensures Encode(w, x)[i] == x / Pow256(i) % 256
  {
    if i == 0 {
    } else {
      EncodeByte(w - 1, x / 256, i - 1);
      DivideTwice(x, Pow256(i - 1));
    }
  }

  lemma DivideTwice(x: nat, b: nat)
    requires b > 0
    ensures x / 256 / b == x / (256 * b)
  {
    var y := x / 256;
    DivisionRest(y, b);
    var rest := 256 * (y % b) + x % 256;
    assert x == 256 * y + x % 256;
    assert 256 * (b * (y / b)) == (256 * b) * (y / b);
    DivisionIs(x, 256 * b, y / b);
  }

  lemma DivisionRest(x: nat, n: nat)
    requires n > 0
    ensures x == n * (x / n) + x % n
  {
  }

  /** A size_t. */
  predicate IsSize(x: int) { 0 <= x < Pow256(8) }

  function SizeBytes(x: nat): (s: seq<Byte>)
    ensures |s| == 8
  {
    Encode(8, x)
  }

  /** A four-byte int in two's complement. */
  predicate IsInt(x: int) { -0x8000_0000 <= x < 0x8000_0000 }

  function IntBytes(x: int): (s: seq<Byte>)
    requires IsInt(x)
    ensures |s| == 4
  {
    Encode(4, if x < 0 then x + 0x1_0000_0000 else x)
  }

  function IntOf(s: seq<Byte>): int
    requires |s| == 4
  {
    var u := Decode(s);
    if u < 0x8000_0000 then u else u - 0x1_0000_0000
  }

  lemma IntOfBytes(x: int)
    requires IsInt(x)
    ensures IntOf(IntBytes(x)) == x
  {
    DecodeEncode(4, if x < 0 then x + 0x1_0000_0000 else x);
    assert Pow256(4) == 0x1_0000_0000;
  }

  /** These are exactly the numbers that four bytes can stand for. */
  lemma IntsAre(x: int)
    ensures IsInt(x) <==> exists s: seq<Byte> :: |s| == 4 && IntOf(s) == x
  {
    assert Pow256(4) == 0x1_0000_0000;
    if IsInt(x) { IntOfBytes(x); }
    if s: seq<Byte> :| |s| == 4 && IntOf(s) == x { DecodeFits(s); }
  }

  /** A negative number lies there as what it is short of 2^32. */
  lemma IntBytesAre(x: int)
    requires IsInt(x)
    ensures IntBytes(x) == Encode(4, x % 0x1_0000_0000)
  {
  }

  /** The parts one behind the other. */
  function Flatten(parts: seq<seq<Byte>>): seq<Byte> {
    if parts == [] then [] else Flatten(parts[..|parts| - 1]) + parts[|parts| - 1]
  }

  lemma FlattenStep(parts: seq<seq<Byte>>, j: nat)
    requires j < |parts|
    ensures Flatten(parts[..j + 1]) == Flatten(parts[..j]) + parts[j]
  {
    assert parts[..j + 1][..j] == parts[..j];
  }

  lemma {:induction false} FlattenPrefix(parts: seq<seq<Byte>>, j: nat)
    requires j <= |parts|
    ensures Flatten(parts[..j]) <= Flatten(parts)
    decreases |parts|
  {
    var k := |parts| - 1;
    if j <= k {
      FlattenPrefix(parts[..k], j);
      assert parts[..k][..j] == parts[..j];
    } else {
      assert parts[..j] == parts;
    }
  }

  /** Where part `j` lies. */
  lemma FlattenAt(parts: seq<seq<Byte>>, j: nat)
    requires j < |parts|
    ensures var p := |Flatten(parts[..j])|;
      p + |parts[j]| == |Flatten(parts[..j + 1])| <= |Flatten(parts)| && Flatten(parts)[p..][..|parts[j]|] == parts[j]
  {
    FlattenStep(parts, j);
    FlattenPrefix(parts, j + 1);
    var a := Flatten(parts[..j]);
    assert Flatten(parts)[..|a| + |parts[j]|] == a + parts[j];
  }

  lemma {:induction false} FlattenJoin(a: seq<seq<Byte>>, b: seq<seq<Byte>>)
    ensures Flatten(a + b) == Flatten(a) + Flatten(b)
  {
    var k := |b| - 1;
    if b == [] {
      assert a + b == a;
    } else {
      FlattenJoin(a, b[..k]);
      assert (a + b)[..|a + b| - 1] == a + b[..k];
    }
  }

  /** Joining block by block is joining all. */
  lemma {:induction false} FlattenBlocks(parts: seq<seq<Byte>>, q: nat, blocks: seq<seq<Byte>>)
    requires |parts| == Times(|blocks|, q)
    requires forall b: nat :: b < |blocks| ==> IsBlock(parts, q, b, blocks[b])
    ensures Flatten(blocks) == Flatten(parts)
    decreases |blocks|
  {
    var n := |blocks| - 1;
    if blocks == [] {
    } else {
      var front, last := parts[..Times(n, q)], parts[Times(n, q)..];
      forall b: nat | b < n ensures IsBlock(front, q, b, blocks[..n][b]) {
        FrontBlock(parts, q, b, n, blocks[b]);
      }
      FlattenBlocks(front, q, blocks[..n]);
      assert IsBlock(parts, q, n, blocks[n]);
      assert last[..q] == last;
      FlattenJoin(front, last);
      assert parts == front + last;
    }
  }

  lemma FrontBlock(parts: seq<seq<Byte>>, q: nat, b: nat, n: nat, block: seq<Byte>)
    requires IsBlock(parts, q, b, block) && b < n && Times(n, q) <= |parts|
    ensures IsBlock(parts[..Times(n, q)], q, b, block)
  {
    TimesMonotone(b, n, q);
    assert parts[..Times(n, q)][Times(b, q)..][..q] == parts[Times(b, q)..][..q];
  }

  /** `block` joins the `b`-th `q` parts. */
  ghost predicate IsBlock(parts: seq<seq<Byte>>, q: nat, b: nat, block: seq<Byte>) {
    Times(b, q) + q <= |parts| && block == Flatten(parts[Times(b, q)..][..q])
  }
}
