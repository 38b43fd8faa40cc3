/** The resume sidecar of a fetch (resume.go): one bit a leaf, and its file format. */
module PartBits {
  import opened Bytes
  import opened Options

  // ---- the bitmap ----

  /** Bit k of n. */
  predicate BitOf(n: nat, k: nat) {
    if k == 0 then n % 2 == 1 else BitOf(n / 2, k - 1)
  }

  lemma HalfOfSum(n: nat, p: nat)
    ensures (n + 2 * p) / 2 == n / 2 + p && (n + 2 * p) % 2 == n % 2
  {
  }

  /** Setting an unset bit adds its weight, leaves the other bits and stays within as many bits. */
  lemma {:induction false} SetBitOf(n: nat, k: nat, j: nat, width: nat)
    requires !BitOf(n, k) && k < width && n < Pow2(width)
    ensures Pow2(k) > 0 && n + Pow2(k) < Pow2(width)
    ensures BitOf(n + Pow2(k), j) <==> j == k || BitOf(n, j)
  {
    if k == 0 {
      assert (n + 1) / 2 == n / 2;
    } else {
      SetBitOf(n / 2, k - 1, if j == 0 then k - 1 else j - 1, width - 1);
      HalfOfSum(n, Pow2(k - 1));
    }
  }

  function Weigh(n: nat, k: nat, weight: nat): nat {
    if BitOf(n, k) then weight else 0
  }

  lemma HalfBit(n: nat, k: nat, weight: nat)
    ensures Weigh(n, k + 1, weight) == Weigh(n / 2, k, weight)
  {
  }

  lemma LowNibble(n: nat)
    ensures n == Weigh(n, 0, 1) + Weigh(n, 1, 2) + Weigh(n, 2, 4) + Weigh(n, 3, 8) + n / 16 * 16
  {
    HalfBit(n, 0, 2);
    HalfBit(n, 1, 4); HalfBit(n / 2, 0, 4);
    HalfBit(n, 2, 8); HalfBit(n / 2, 1, 8); HalfBit(n / 2 / 2, 0, 8);
  }

  lemma HighBit(n: nat, k: nat, weight: nat)
    ensures Weigh(n, k + 4, 16 * weight) == 16 * Weigh(n / 16, k, weight)
  {
    HalfBit(n, k + 3, weight); HalfBit(n / 2, k + 2, weight);
    HalfBit(n / 2 / 2, k + 1, weight); HalfBit(n / 2 / 2 / 2, k, weight);
    assert n / 2 / 2 / 2 / 2 == n / 16;
  }

  /** A byte's bits, least significant first, are those of the mask 1 << k. */
  lemma ByteOfBits(n: Byte)
    ensures n == Weigh(n, 0, 1) + Weigh(n, 1, 2) + Weigh(n, 2, 4) + Weigh(n, 3, 8)
                 + Weigh(n, 4, 16) + Weigh(n, 5, 32) + Weigh(n, 6, 64) + Weigh(n, 7, 128)
  {
    var high := n as int / 16;
    LowNibble(n);
    LowNibble(high);
    HighBit(n, 0, 1); HighBit(n, 1, 2); HighBit(n, 2, 4); HighBit(n, 3, 8);
    assert high / 16 == 0;
  }

  predicate Bit(bits: seq<Byte>, i: nat)
    requires i / 8 < |bits|
  {
    BitOf(bits[i / 8], i % 8)
  }

  lemma InByte(j: nat, k: nat)
    requires k < 8
    ensures (8 * j + k) / 8 == j && (8 * j + k) % 8 == k
  {
  }

  /** Which bit of which byte is a leaf's: byte j holds leaves 8j to 8j + 7, the first in its lowest bit. */
  lemma BitmapByte(bits: seq<Byte>, j: nat)
    requires j < |bits|
    ensures bits[j] as int
            == (if Bit(bits, 8 * j) then 1 else 0) + (if Bit(bits, 8 * j + 1) then 2 else 0)
               + (if Bit(bits, 8 * j + 2) then 4 else 0) + (if Bit(bits, 8 * j + 3) then 8 else 0)
               + (if Bit(bits, 8 * j + 4) then 16 else 0) + (if Bit(bits, 8 * j + 5) then 32 else 0)
               + (if Bit(bits, 8 * j + 6) then 64 else 0) + (if Bit(bits, 8 * j + 7) then 128 else 0)
  {
    ByteOfBits(bits[j]);
    InByte(j, 0); InByte(j, 1); InByte(j, 2); InByte(j, 3); InByte(j, 4); InByte(j, 5); InByte(j, 6); InByte(j, 7);
  }

  /** The bits set below n. */
  function SetBelow(bits: seq<Byte>, n: nat): nat
    requires n <= 8 * |bits|
  {
    if n == 0 then 0 else SetBelow(bits, n - 1) + if Bit(bits, n - 1) then 1 else 0
  }

  function BitmapSize(count: nat): nat {
    (count + 7) / 8
  }

  datatype Part = Part(root: seq<Byte>, total: int, count: nat, nset: nat, bits: seq<Byte>)

  /** nset is the number of leaves marked done. */
  ghost predicate Valid(p: Part) {
    |p.bits| == BitmapSize(p.count) && p.nset == SetBelow(p.bits, p.count)
  }

  function NewPart(root: seq<Byte>, total: int, count: nat): Part {
    Part(root, total, count, 0, seq(BitmapSize(count), _ => 0))
  }

  lemma {:induction false} NothingSet(bits: seq<Byte>, n: nat)
    requires n <= 8 * |bits| && forall i :: 0 <= i < |bits| ==> bits[i] == 0
    ensures SetBelow(bits, n) == 0
    ensures forall i :: 0 <= i < n ==> !Bit(bits, i)
  {
    if n > 0 {
      NothingSet(bits, n - 1);
      ZeroHasNoBits((n - 1) % 8);
    }
  }

  lemma {:induction false} ZeroHasNoBits(k: nat)
    ensures !BitOf(0, k)
  {
    if k > 0 {
      ZeroHasNoBits(k - 1);
    }
  }

  function WithBit(bits: seq<Byte>, i: nat): (r: seq<Byte>)
    requires i / 8 < |bits| && !Bit(bits, i)
    ensures |r| == |bits|
  {
    SetBitOf(bits[i / 8], i % 8, 0, 8);
    assert Pow2(8) == 256;
    bits[i / 8 := bits[i / 8] + Pow2(i % 8)]
  }

  /** Marks leaf i done. */
  function SetLeaf(p: Part, i: nat): Part
    requires i / 8 < |p.bits|
  {
    if Bit(p.bits, i) then p else p.(bits := WithBit(p.bits, i), nset := p.nset + 1)
  }

  lemma WithBitSets(bits: seq<Byte>, i: nat, j: nat)
    requires i / 8 < |bits| && j / 8 < |bits| && !Bit(bits, i)
    ensures Bit(WithBit(bits, i), j) <==> j == i || Bit(bits, j)
  {
    assert Pow2(8) == 256;
    SetBitOf(bits[i / 8], i % 8, j % 8, 8);
  }

  lemma {:induction false} WithBitCounts(bits: seq<Byte>, i: nat, n: nat)
    requires i / 8 < |bits| && !Bit(bits, i) && n <= 8 * |bits|
    ensures SetBelow(WithBit(bits, i), n) == SetBelow(bits, n) + if i < n then 1 else 0
  {
    if n > 0 {
      WithBitCounts(bits, i, n - 1);
      WithBitSets(bits, i, n - 1);
    }
  }

  /** Marking a leaf marks it and no other, and keeps the count right. */
  lemma SetLeafFacts(p: Part, i: nat, j: nat)
    requires Valid(p) && i < p.count && j < p.count
    ensures Valid(SetLeaf(p, i))
    ensures Bit(SetLeaf(p, i).bits, j) <==> j == i || Bit(p.bits, j)
  {
    if !Bit(p.bits, i) {
      WithBitCounts(p.bits, i, p.count);
      WithBitSets(p.bits, i, j);
    }
  }

  lemma {:induction false} FullCount(bits: seq<Byte>, n: nat)
    requires n <= 8 * |bits|
    ensures SetBelow(bits, n) <= n
    ensures SetBelow(bits, n) == n <==> forall i :: 0 <= i < n ==> Bit(bits, i)
  {
    if n > 0 {
      FullCount(bits, n - 1);
    }
  }

  predicate AllSet(p: Part) {
    p.nset == p.count
  }

  /** The count says exactly when every leaf is there. */
  lemma AllSetMeansAll(p: Part)
    requires Valid(p)
    ensures AllSet(p) <==> forall i :: 0 <= i < p.count ==> Bit(p.bits, i)
  {
    FullCount(p.bits, p.count);
  }

  // ---- the file format ----

  const MAGIC: seq<Byte> := [0x56, 0x47, 0x50, 0x54]

  predicate IsInt64(n: int) {
    -TWO63 <= n < TWO63
  }

  /** A signed 64-bit value as the unsigned word that is written, and back. */
  function ToUint64(n: int): nat
    requires IsInt64(n)
  {
    if n < 0 then n + TWO64 else n
  }

  function ToInt64(u: nat): int {
    if u < TWO63 then u else u - TWO64
  }

  function Head(root: seq<Byte>, total: int, count: int): seq<Byte>
    requires IsInt64(total) && IsInt64(count)
  {
    MAGIC + LittleEndian(|root| % 0x1_0000, 2) + root
    + LittleEndian(ToUint64(total), 8) + LittleEndian(ToUint64(count), 8)
  }

  function Encode(p: Part): seq<Byte>
    requires IsInt64(p.total) && IsInt64(p.count)
  {
    Head(p.root, p.total, p.count) + p.bits
  }

  /** What the loader makes of a sidecar's bytes, given the identity of the fetch that asks. */
  function Decode(b: seq<Byte>, root: seq<Byte>, total: int, count: nat): Option<Part> {
    if |b| < 6 || b[..4] != MAGIC then None
    else
      var rl := FromLittleEndian(b[4..6]);
      if |b| < 6 + rl + 16 then None
      else
        var o := 6 + rl;
        var t := ToInt64(FromLittleEndian(b[o..o + 8]));
        var c := ToInt64(FromLittleEndian(b[o + 8..o + 16]));
        var nb := BitmapSize(count);
        if b[6..o] != root || t != total || c != count || |b| < o + 16 + nb then None
        else Some(Part(root, total, count, SetBelow(b[o + 16..o + 16 + nb], count), b[o + 16..o + 16 + nb]))
  }

  lemma Powers()
    ensures Pow256(2) == 0x1_0000 && Pow256(8) == TWO64
  {
    assert Pow256(4) == 0x1_0000_0000;
  }

  lemma LongField(s: seq<Byte>, n: int)
    requires |s| == 8 && IsInt64(n)
    ensures ToInt64(FromLittleEndian(s)) == n <==> s == LittleEndian(ToUint64(n), 8)
  {
    Powers();
    ReadBack(ToUint64(n), 8);
    WriteBack(s);
  }

  lemma ShortField(s: seq<Byte>, n: nat)
    requires |s| == 2 && n < 0x1_0000
    ensures FromLittleEndian(s) == n <==> s == LittleEndian(n, 2)
  {
    Powers();
    ReadBack(n, 2);
    WriteBack(s);
  }

  lemma Fields(b: seq<Byte>, m: seq<Byte>, l: seq<Byte>, r: seq<Byte>, t: seq<Byte>, c: seq<Byte>)
    requires |m| == 4 && |l| == 2 && |t| == 8 && |c| == 8 && |b| >= 22 + |r|
    ensures var o := 6 + |r|;
            b[..o + 16] == m + l + r + t + c
            <==> b[..4] == m && b[4..6] == l && b[6..o] == r && b[o..o + 8] == t && b[o + 8..o + 16] == c
  {
    var o := 6 + |r|;
    var h := m + l + r + t + c;
    assert h[..4] == m && h[4..6] == l && h[6..o] == r && h[o..o + 8] == t && h[o + 8..] == c;
    assert b[..o + 16] == b[..4] + b[4..6] + b[6..o] + b[o..o + 8] + b[o + 8..o + 16];
    var w := b[..o + 16];
    assert w[..4] == b[..4] && w[4..6] == b[4..6] && w[6..o] == b[6..o] && w[o..o + 8] == b[o..o + 8]
           && w[o + 8..] == b[o + 8..o + 16];
  }

  /** The fields read back as root, total and count if and only if the file starts with their head. */
  lemma HeadReadsBack(b: seq<Byte>, root: seq<Byte>, total: int, count: int)
    requires IsInt64(total) && IsInt64(count) && |root| < 0x1_0000 && |b| >= 22 + |root|
    ensures var o := 6 + |root|;
            b[..o + 16] == Head(root, total, count)
            <==> b[..4] == MAGIC && FromLittleEndian(b[4..6]) == |root| && b[6..o] == root
                 && ToInt64(FromLittleEndian(b[o..o + 8])) == total
                 && ToInt64(FromLittleEndian(b[o + 8..o + 16])) == count
  {
    var o := 6 + |root|;
    var l, t, c := LittleEndian(|root|, 2), LittleEndian(ToUint64(total), 8), LittleEndian(ToUint64(count), 8);
    assert Head(root, total, count) == MAGIC + l + root + t + c;
    Fields(b, MAGIC, l, root, t, c);
    ShortField(b[4..6], |root|);
    LongField(b[o..o + 8], total);
    LongField(b[o + 8..o + 16], count);
  }

  /** Eight bytes as a number, least significant first. */
  function Word64(h: seq<Byte>, o: nat): nat
    requires o + 8 <= |h|
  {
    var b := seq(8, i requires 0 <= i < 8 => h[o + i] as int);
    b[0] + 0x100 * b[1] + 0x1_0000 * b[2] + 0x100_0000 * b[3] + 0x1_0000_0000 * b[4]
    + 0x100_0000_0000 * b[5] + 0x1_0000_0000_0000 * b[6] + 0x100_0000_0000_0000 * b[7]
  }

  lemma LongLayout(n: nat, h: seq<Byte>, o: nat)
    requires n < TWO64 && o + 8 <= |h| && h[o..o + 8] == LittleEndian(n, 8)
    ensures Word64(h, o) == n
  {
    Powers();
    ReadBack(n, 8);
    var w := h[o..o + 8];
    Word32(w[4..]);
    Word32(w[..4]);
    HalfWords(w);
  }

  lemma Word32(w: seq<Byte>)
    requires |w| == 4
    ensures FromLittleEndian(w)
            == (w[0] as int) + 0x100 * (w[1] as int) + 0x1_0000 * (w[2] as int) + 0x100_0000 * (w[3] as int)
  {
    assert w[3..] == [w[3]] && w[2..][1..] == w[3..] && w[1..][1..] == w[2..];
    assert FromLittleEndian([w[3]]) == (w[3] as int) + 0x100 * FromLittleEndian([w[3]][1..]);
    assert FromLittleEndian(w[2..]) == (w[2] as int) + 0x100 * FromLittleEndian(w[3..]);
    assert FromLittleEndian(w[1..]) == (w[1] as int) + 0x100 * FromLittleEndian(w[2..]);
  }

  lemma HalfWords(w: seq<Byte>)
    requires |w| == 8
    ensures FromLittleEndian(w) == FromLittleEndian(w[..4]) + 0x1_0000_0000 * FromLittleEndian(w[4..])
  {
    Word32(w[..4]);
    assert w[3..][1..] == w[4..] && w[2..][1..] == w[3..] && w[1..][1..] == w[2..];
    assert FromLittleEndian(w[3..]) == (w[3] as int) + 0x100 * FromLittleEndian(w[4..]);
    assert FromLittleEndian(w[2..]) == (w[2] as int) + 0x100 * FromLittleEndian(w[3..]);
    assert FromLittleEndian(w[1..]) == (w[1] as int) + 0x100 * FromLittleEndian(w[2..]);
    assert FromLittleEndian(w) == (w[0] as int) + 0x100 * FromLittleEndian(w[1..]);
  }

  /** The head's layout: magic, the root's length in two bytes, the root, then size and count in eight bytes each, least
      significant first, negative numbers in two's complement. */
  lemma HeadLayout(root: seq<Byte>, total: int, count: int)
    requires IsInt64(total) && IsInt64(count) && |root| < 0x1_0000
    ensures var h, o := Head(root, total, count), 6 + |root|;
            && |h| == 22 + |root| && h[..4] == [0x56, 0x47, 0x50, 0x54]
            && h[4] == |root| % 0x100 && h[5] == |root| / 0x100 && h[6..o] == root
            && Word64(h, o) == (if total < 0 then total + 0x1_0000_0000_0000_0000 else total)
            && Word64(h, o + 8) == (if count < 0 then count + 0x1_0000_0000_0000_0000 else count)
  {
    var h, o := Head(root, total, count), 6 + |root|;
    var l, t, c := LittleEndian(|root|, 2), LittleEndian(ToUint64(total), 8), LittleEndian(ToUint64(count), 8);
    assert l == [|root| % 0x100, |root| / 0x100 % 0x100] by {
      assert LittleEndian(|root| / 0x100, 1) == [|root| / 0x100 % 0x100] + LittleEndian(|root| / 0x1_0000, 0);
    }
    assert h == MAGIC + l + root + t + c;
    assert h[o..o + 8] == t && h[o + 8..o + 16] == c;
    LongLayout(ToUint64(total), h, o);
    LongLayout(ToUint64(count), h, o + 8);
  }

  /** What the loader checks, put together: it goes by the root's length as written. */
  lemma DecodeChecks(b: seq<Byte>, root: seq<Byte>, total: int, count: nat)
    ensures Decode(b, root, total, count).Some? <==>
              && |b| >= 22 + |root| + BitmapSize(count)
              && b[..4] == MAGIC && FromLittleEndian(b[4..6]) == |root| && b[6..6 + |root|] == root
              && ToInt64(FromLittleEndian(b[6 + |root|..14 + |root|])) == total
              && ToInt64(FromLittleEndian(b[14 + |root|..22 + |root|])) == count
    ensures Decode(b, root, total, count).Some? ==>
              var p, o := Decode(b, root, total, count).value, 22 + |root|;
              p == Part(root, total, count, SetBelow(p.bits, count), b[o..o + BitmapSize(count)])
  {
  }

  /** Decoding succeeds exactly on a file that starts with the head of the asked root, total and count and holds the
      whole bitmap after it; the part it gives is then that identity with that bitmap, and it is valid. A root of 64
      KiB or more never loads: its length does not fit the head. */
  lemma DecodeExactly(b: seq<Byte>, root: seq<Byte>, total: int, count: nat)
    requires IsInt64(total) && IsInt64(count)
    ensures Decode(b, root, total, count).Some? <==>
              && |root| < 0x1_0000 && |b| >= 22 + |root| + BitmapSize(count)
              && b[..22 + |root|] == Head(root, total, count)
    ensures Decode(b, root, total, count).Some? ==>
              var p, o := Decode(b, root, total, count).value, 22 + |root|;
              Valid(p) && p == Part(root, total, count, p.nset, b[o..o + BitmapSize(count)])
  {
    DecodeChecks(b, root, total, count);
    if |b| >= 22 + |root| {
      Powers();
      WriteBack(b[4..6]);
      if |root| < 0x1_0000 {
        HeadReadsBack(b, root, total, count);
      }
    }
  }

  /** What was saved loads again, bit for bit, exactly for roots shorter than 64 KiB. */
  lemma RoundTrip(p: Part)
    requires Valid(p) && IsInt64(p.total) && IsInt64(p.count)
    ensures Decode(Encode(p), p.root, p.total, p.count) == Some(p) <==> |p.root| < 0x1_0000
  {
    var b, o := Encode(p), 22 + |p.root|;
    DecodeExactly(b, p.root, p.total, p.count);
    assert b[..o] == Head(p.root, p.total, p.count);
    assert b[o..o + |p.bits|] == p.bits;
  }

  // ---- in place ----

  class PartialFetch {
    const root: seq<Byte>
    const total: int
    const count: nat
    var nset: nat
    const bits: array<Byte>

    ghost function State(): Part
      reads this, bits
    {
      Part(root, total, count, nset, bits[..])
    }

    constructor (root: seq<Byte>, total: int, count: nat)
      ensures fresh(bits) && State() == NewPart(root, total, count)
      ensures Valid(State())
    {
      this.root, this.total, this.count, nset := root, total, count, 0;
      bits := new Byte[BitmapSize(count)](_ => 0);
      new;
      NothingSet(bits[..], count);
    }

    method Get(i: nat) returns (r: bool)
      requires i / 8 < bits.Length
      ensures r <==> Bit(bits[..], i)
    {
      r := BitOf(bits[i / 8], i % 8);
    }

    method Set(i: nat)
      requires i / 8 < bits.Length
      modifies this, bits
      ensures State() == SetLeaf(old(State()), i)
    {
      if !BitOf(bits[i / 8], i % 8) {
        ghost var was := bits[..];
        assert !Bit(was, i);
        SetBitOf(bits[i / 8], i % 8, 0, 8);
        assert Pow2(8) == 256;
        bits[i / 8] := bits[i / 8] + Pow2(i % 8);
        assert bits[..] == WithBit(was, i);
        nset := nset + 1;
      }
    }

    /** The sidecar's bytes, appended field by field. */
    method Save() returns (buf: seq<Byte>)
      requires IsInt64(total) && IsInt64(count)
      ensures buf == Encode(State())
    {
      buf := MAGIC;
      buf := buf + LittleEndian(|root| % 0x1_0000, 2);
      buf := buf + root;
      buf := buf + LittleEndian(ToUint64(total), 8);
      buf := buf + LittleEndian(ToUint64(count), 8);
      buf := buf + bits[..];
    }
  }

  /** The loader, decoding at a moving offset; the marked leaves are counted again. */
  method Load(b: seq<Byte>, root: seq<Byte>, total: int, count: nat) returns (r: Option<Part>)
    ensures r == Decode(b, root, total, count)
  {
    if |b| < 6 || b[..4] != MAGIC {
      return None;
    }
    var o := 4;
    var rl := FromLittleEndian(b[o..o + 2]);
    o := o + 2;
    if |b| < o + rl + 16 {
      return None;
    }
    var rr := b[o..o + rl];
    o := o + rl;
    var t := ToInt64(FromLittleEndian(b[o..o + 8]));
    o := o + 8;
    var c := ToInt64(FromLittleEndian(b[o..o + 8]));
    o := o + 8;
    var nb := BitmapSize(count);
    if rr != root || t != total || c != count || |b| < o + nb {
      return None;
    }
    var bits, nset := b[o..o + nb], 0;
    for i := 0 to count
      invariant nset == SetBelow(bits, i)
    {
      if Bit(bits, i) {
        nset := nset + 1;
      }
    }
    return Some(Part(root, total, count, nset, bits));
  }
}
