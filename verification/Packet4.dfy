/** IPv4/UDP packets (packet4.go): building, parsing, and the two one's-complement checksums.

    Section 3.1 of RFC 791 (header), section 1 of RFC 1071 (the sum), and the Checksum field of RFC 768 (0 is sent as
    0xffff). */
module Packet4 {
  import opened Bytes

  function Hi(w: Word): Byte {
    w / 0x100
  }

  function Lo(w: Word): Byte {
    w % 0x100
  }

  function At(b: seq<Byte>, i: nat): Word
    requires i + 1 < |b|
  {
    (b[i] as int) * 0x100 + b[i + 1]
  }

  // ---- the one's-complement sum ----

  /** The big-endian 16-bit words of b added up, an odd last byte padded with zero. */
  function WordSum(b: seq<Byte>): nat {
    if b == [] then 0
    else if |b| == 1 then (b[0] as int) * 0x100
    else (b[0] as int) * 0x100 + b[1] + WordSum(b[2..])
  }

  /** The carries folded back in until 16 bits hold the sum. */
  function Fold(sum: nat): Word {
    if sum > 0xffff then Fold(sum / 0x1_0000 + sum % 0x1_0000) else sum
  }

  /** Folding keeps the value modulo 65535 and makes zero of nothing but zero. */
  lemma {:induction false} FoldFacts(sum: nat)
    ensures Fold(sum) % 0xffff == sum % 0xffff
    ensures sum > 0 ==> Fold(sum) > 0
  {
    if sum > 0xffff {
      var q, r := sum / 0x1_0000, sum % 0x1_0000;
      FoldFacts(q + r);
      assert sum == q + r + q * 0xffff;
      ModShift(q + r, q);
    }
  }

  lemma ModShift(x: int, k: int)
    ensures (x + k * 0xffff) % 0xffff == x % 0xffff
  {
    var q, r := x / 0xffff, x % 0xffff;
    assert x + k * 0xffff == (q + k) * 0xffff + r;
  }

  /** A sum and the complement of its fold verify: together they fold to 0xffff. */
  lemma SumAndComplementVerify(sum: nat, c: nat)
    requires c == 0xffff - Fold(sum) || (Fold(sum) == 0xffff && c == 0xffff)
    ensures Fold(sum + c) == 0xffff
  {
    FoldFacts(sum);
    FoldFacts(sum + c);
    var f := Fold(sum);
    assert f <= 0xffff;
    var k := if c == 0xffff - f then 1 else 2;
    assert f + c == 0xffff * k;
    assert sum == (sum / 0xffff) * 0xffff + sum % 0xffff && f == (f / 0xffff) * 0xffff + f % 0xffff;
    assert sum + c == (sum / 0xffff - f / 0xffff + k) * 0xffff;
    ModShift(0, sum / 0xffff - f / 0xffff + k);
    assert (sum + c) % 0xffff == 0;
    assert Fold(0) == 0;
  }

  lemma {:induction false} WordSumConcat(a: seq<Byte>, b: seq<Byte>)
    requires |a| % 2 == 0
    ensures WordSum(a + b) == WordSum(a) + WordSum(b)
    decreases |a|
  {
    if a == [] {
      assert a + b == b;
    } else {
      assert (a + b)[2..] == a[2..] + b;
      WordSumConcat(a[2..], b);
    }
  }

  lemma {:induction false} WordSumBound(b: seq<Byte>)
    ensures WordSum(b) <= (|b| + 1) / 2 * 0xffff
    decreases |b|
  {
    if |b| > 1 {
      WordSumBound(b[2..]);
    }
  }

  // ---- the checksums as the source computes them, in 32 bits ----

  const TWO32 := 0x1_0000_0000

  /** Adds the words of b to a 32-bit accumulator. oddToo says whether an odd last byte counts. */
  method AddWords(sum: nat, b: seq<Byte>, oddToo: bool) returns (r: nat)
    requires sum < TWO32
    ensures r == (sum + WordSum(if oddToo then b else b[..|b| / 2 * 2])) % TWO32
  {
    r := sum;
    var i := 0;
    while i + 1 < |b|
      invariant 0 <= i <= |b| && i % 2 == 0
      invariant r == (sum + WordSum(b[..i])) % TWO32
    {
      assert b[..i + 2] == b[..i] + [b[i], b[i + 1]];
      WordSumConcat(b[..i], [b[i], b[i + 1]]);
      assert WordSum([b[i], b[i + 1]]) == At(b, i) by { assert [b[i], b[i + 1]][2..] == []; }
      AddModulo(sum + WordSum(b[..i]), At(b, i));
      r := (r + At(b, i)) % TWO32;
      i := i + 2;
    }
    assert i == |b| / 2 * 2;
    if oddToo && |b| % 2 == 1 {
      assert b == b[..i] + [b[i]];
      WordSumConcat(b[..i], [b[i]]);
      AddModulo(sum + WordSum(b[..i]), (b[i] as int) * 0x100);
      r := (r + (b[i] as int) * 0x100) % TWO32;
    } else {
      assert oddToo ==> b[..i] == b;
    }
  }

  lemma AddModulo(x: nat, w: nat)
    ensures (x % TWO32 + w) % TWO32 == (x + w) % TWO32
  {
    var q, r := x / TWO32, x % TWO32;
    assert x + w == q * TWO32 + (r + w);
    assert (r + w) == (r + w) / TWO32 * TWO32 + (r + w) % TWO32;
    assert x + w == (q + (r + w) / TWO32) * TWO32 + (r + w) % TWO32;
  }

  method FoldLoop(sum: nat) returns (r: Word)
    requires sum < TWO32
    ensures r == Fold(sum)
  {
    var s := sum;
    while s > 0xffff
      invariant Fold(s) == Fold(sum)
    {
      s := s / 0x1_0000 + s % 0x1_0000;
    }
    r := s;
  }

  function IpSum(hdr: seq<Byte>): Word {
    0xffff - Fold(WordSum(hdr[..|hdr| / 2 * 2]))
  }

  method IpChecksum(hdr: seq<Byte>) returns (c: Word)
    requires |hdr| <= 0x1_0000
    ensures c == IpSum(hdr)
  {
    WordSumBound(hdr[..|hdr| / 2 * 2]);
    var sum := AddWords(0, hdr, false);
    sum := FoldLoop(sum);
    c := 0xffff - sum;
  }

  /** What the UDP checksum covers: the pseudo-header (addresses, protocol 17, length) and the datagram. */
  function UdpCovered(src: seq<Byte>, dst: seq<Byte>, udp: seq<Byte>): nat {
    WordSum(src) + WordSum(dst) + 17 + |udp| + WordSum(udp)
  }

  function UdpSum(src: seq<Byte>, dst: seq<Byte>, udp: seq<Byte>): Word {
    var c := 0xffff - Fold(UdpCovered(src, dst, udp) % TWO32);
    if c == 0 then 0xffff else c
  }

  /** What is covered is the words of the pseudo-header of RFC 768, source, destination, zero, protocol 17 and length,
      and of the datagram after it. */
  lemma PseudoHeader(src: seq<Byte>, dst: seq<Byte>, udp: seq<Byte>)
    requires |src| == 4 && |dst| == 4 && |udp| <= 0xffff
    ensures UdpCovered(src, dst, udp) == WordSum(src + dst + [0, 17, |udp| / 0x100, |udp| % 0x100] + udp)
  {
    var tail: seq<Byte> := [0, 17, |udp| / 0x100, |udp| % 0x100];
    WordSumConcat(src + dst + tail, udp);
    WordSumConcat(src + dst, tail);
    WordSumConcat(src, dst);
    assert tail[2..] == [|udp| / 0x100, |udp| % 0x100] && tail[2..][2..] == [];
  }

  /** The worked example of section 3 of RFC 1071: the words 0001, f203, f4f5 and f6f7 add up to 2ddf0, and fold to
      ddf2. */
  lemma Rfc1071Example()
    ensures var b: seq<Byte> := [0x00, 0x01, 0xf2, 0x03, 0xf4, 0xf5, 0xf6, 0xf7];
            WordSum(b) == 0x2ddf0 && Fold(WordSum(b)) == 0xddf2
    ensures WordSum([0x12]) == 0x1200
  {
    var b: seq<Byte> := [0x00, 0x01, 0xf2, 0x03, 0xf4, 0xf5, 0xf6, 0xf7];
    assert b[2..] == [0xf2, 0x03, 0xf4, 0xf5, 0xf6, 0xf7] && b[2..][2..] == [0xf4, 0xf5, 0xf6, 0xf7];
    assert b[2..][2..][2..] == [0xf6, 0xf7] && b[2..][2..][2..][2..] == [];
    assert Fold(0xddf2) == 0xddf2;
  }

  /** The 32-bit accumulator does not overflow for any datagram a UDP length field can name. */
  lemma NoOverflow(src: seq<Byte>, dst: seq<Byte>, udp: seq<Byte>)
    requires |src| == 4 && |dst| == 4 && |udp| <= 0xffff
    ensures UdpCovered(src, dst, udp) < TWO32
  {
    WordSumBound(src);
    WordSumBound(dst);
    WordSumBound(udp);
  }

  method UdpChecksum(src: seq<Byte>, dst: seq<Byte>, udp: seq<Byte>) returns (c: Word)
    ensures c == UdpSum(src, dst, udp)
  {
    var sum := AddWords(0, src, true);
    sum := AddWords(sum, dst, true);
    AddModulo(WordSum(src), WordSum(dst));
    AddModulo(WordSum(src) + WordSum(dst), 17);
    AddModulo(WordSum(src) + WordSum(dst) + 17, |udp|);
    AddModulo(WordSum(src) + WordSum(dst) + 17 + |udp|, WordSum(udp));
    sum := (sum + 17) % TWO32;
    sum := (sum + |udp|) % TWO32;
    sum := AddWords(sum, udp, true);
    sum := FoldLoop(sum);
    c := 0xffff - sum;
    if c == 0 {
      c := 0xffff;
    }
  }

  // ---- the packet ----

  datatype Udp4 = Udp4(src: seq<Byte>, dst: seq<Byte>, sport: Word, dport: Word, payload: seq<Byte>)

  predicate WellFormed(u: Udp4) {
    |u.src| == 4 && |u.dst| == 4
  }

  function Header(len: Word, sum: Word, src: seq<Byte>, dst: seq<Byte>): seq<Byte> {
    [0x45, 0, Hi(len), Lo(len), 0, 0, 0, 0, 64, 17] + [Hi(sum), Lo(sum)] + (src + dst)
  }

  function Datagram(sport: Word, dport: Word, len: Word, sum: Word, payload: seq<Byte>): seq<Byte> {
    [Hi(sport), Lo(sport), Hi(dport), Lo(dport), Hi(len), Lo(len)] + [Hi(sum), Lo(sum)] + payload
  }

  function IpLength(u: Udp4): Word {
    (28 + |u.payload|) % 0x1_0000
  }

  function UdpLength(u: Udp4): Word {
    (8 + |u.payload|) % 0x1_0000
  }

  /** The packet: a 20-byte header with its checksum, then the datagram with its own. */
  function Packet(u: Udp4, udpSum: Word): seq<Byte> {
    var ipSum := IpSum(Header(IpLength(u), 0, u.src, u.dst));
    Header(IpLength(u), ipSum, u.src, u.dst) + Datagram(u.sport, u.dport, UdpLength(u), udpSum, u.payload)
  }

  function UdpField(u: Udp4): Word {
    UdpSum(u.src, u.dst, Datagram(u.sport, u.dport, UdpLength(u), 0, u.payload))
  }

  datatype Parsed = NotUdp4 | Parsed(udp: Udp4)

  /** Everything but an untruncated first-fragment IPv4/UDP packet is refused. */
  function Parse(pkt: seq<Byte>): Parsed {
    if |pkt| < 20 || pkt[0] / 0x10 != 4 then NotUdp4
    else
      var ihl := pkt[0] % 0x10 * 4;
      if ihl < 20 || |pkt| < ihl + 8 || pkt[9] != 17 then NotUdp4
      else if pkt[6] % 0x20 != 0 || pkt[7] != 0 then NotUdp4
      else
        var ulen := At(pkt, ihl + 4);
        if ulen < 8 || ihl + ulen > |pkt| then NotUdp4
        else Parsed(Udp4(pkt[12..16], pkt[16..20], At(pkt, ihl), At(pkt, ihl + 2), pkt[ihl + 8..ihl + ulen]))
  }

  lemma PacketFields(u: Udp4, udpSum: Word)
    requires WellFormed(u)
    ensures var p := Packet(u, udpSum);
            && |p| == 28 + |u.payload|
            && p[0] == 0x45 && p[1] == 0 && p[4..8] == [0, 0, 0, 0] && p[8] == 64 && p[9] == 17
            && p[12..16] == u.src && p[16..20] == u.dst && p[28..] == u.payload
            && At(p, 2) == IpLength(u) && At(p, 20) == u.sport && At(p, 22) == u.dport && At(p, 24) == UdpLength(u)
  {
  }

  /** What is parsed: exactly IPv4 (version 4, a header of at least five words that fits) carrying UDP (protocol 17),
      not a later fragment (the 13 bits of the fragment offset all zero), with a UDP length of at least 8 that fits;
      and the datagram's fields are those after the header, options included. */
  lemma ParsesExactly(b: seq<Byte>)
    ensures Parse(b).Parsed? <==>
              && |b| >= 20 && 0x40 <= b[0] < 0x50 && b[0] >= 0x45
              && var h := 4 * (b[0] - 0x40);
                 && |b| >= h + 8 && b[9] == 17 && (b[6] as int % 32) * 0x100 + b[7] == 0
                 && 8 <= 0x100 * b[h + 4] as int + b[h + 5] <= |b| - h
    ensures Parse(b).Parsed? ==>
              var h, u := 4 * (b[0] - 0x40), Parse(b).udp;
              && |b| >= h + 8
              && u.src == b[12..16] && u.dst == b[16..20]
              && u.sport == 0x100 * b[h] as int + b[h + 1] && u.dport == 0x100 * b[h + 2] as int + b[h + 3]
              && 8 <= 0x100 * b[h + 4] as int + b[h + 5] <= |b| - h
              && u.payload == b[h + 8..h + (0x100 * b[h + 4] as int + b[h + 5])]
  {
  }

  /** Parsing undoes building exactly for the payloads a UDP length field can name; past them the field has wrapped. */
  lemma RoundTrip(u: Udp4, udpSum: Word)
    requires WellFormed(u)
    ensures Parse(Packet(u, udpSum)) == Parsed(u) <==> |u.payload| <= 0xffff - 8
  {
    PacketFields(u, udpSum);
    var p, n := Packet(u, udpSum), UdpLength(u);
    if n >= 8 {
      assert p[28..20 + n] == p[28..][..n - 8];
      assert |u.payload| == n - 8 ==> u.payload[..n - 8] == u.payload;
    }
  }

  /** The header's own length field is the packet's exactly for payloads up to 65507 bytes. */
  lemma LengthFieldExact(u: Udp4, udpSum: Word)
    requires WellFormed(u)
    ensures At(Packet(u, udpSum), 2) == |Packet(u, udpSum)| <==> |u.payload| <= 65507
  {
    PacketFields(u, udpSum);
  }

  /** A receiver's check of the header passes: its words, the checksum among them, fold to 0xffff. */
  lemma HeaderVerifies(u: Udp4, udpSum: Word)
    requires WellFormed(u)
    ensures Fold(WordSum(Packet(u, udpSum)[..20])) == 0xffff
  {
    var len := IpLength(u);
    var blank := Header(len, 0, u.src, u.dst);
    var c := IpSum(blank);
    assert Packet(u, udpSum)[..20] == Header(len, c, u.src, u.dst);
    assert blank[..20] == blank;
    var front := [0x45, 0, Hi(len), Lo(len), 0, 0, 0, 0, 64, 17];
    InsertWord(front, 0, u.src + u.dst);
    InsertWord(front, c, u.src + u.dst);
    SumAndComplementVerify(WordSum(blank), c);
  }

  /** A receiver's check of the datagram passes, its pseudo-header included; the field is never 0, which would mean that
      no checksum was computed. */
  lemma DatagramVerifies(u: Udp4)
    requires WellFormed(u) && |u.payload| <= 0xffff - 8
    ensures var c, n := UdpField(u), 8 + |u.payload|;
            && c != 0 && |Packet(u, c)| == 20 + n && n <= 0xffff
            && Fold(WordSum(u.src + u.dst + [0, 17, n / 0x100, n % 0x100] + Packet(u, c)[20..])) == 0xffff
  {
    PacketFields(u, UdpField(u));
    PseudoHeader(u.src, u.dst, Packet(u, UdpField(u))[20..]);
    var c := UdpField(u);
    var blank := Datagram(u.sport, u.dport, UdpLength(u), 0, u.payload);
    assert Packet(u, c)[20..] == Datagram(u.sport, u.dport, UdpLength(u), c, u.payload);
    CoveredWithSum(u, c);
    FieldIsComplement(u.src, u.dst, blank);
    SumAndComplementVerify(UdpCovered(u.src, u.dst, blank), c);
  }

  lemma FieldIsComplement(src: seq<Byte>, dst: seq<Byte>, udp: seq<Byte>)
    requires |src| == 4 && |dst| == 4 && |udp| <= 0xffff
    ensures var c, f := UdpSum(src, dst, udp), Fold(UdpCovered(src, dst, udp));
            c != 0 && (c == 0xffff - f || (f == 0xffff && c == 0xffff))
  {
    NoOverflow(src, dst, udp);
  }

  lemma CoveredWithSum(u: Udp4, c: Word)
    ensures UdpCovered(u.src, u.dst, Datagram(u.sport, u.dport, UdpLength(u), c, u.payload))
            == UdpCovered(u.src, u.dst, Datagram(u.sport, u.dport, UdpLength(u), 0, u.payload)) + c
  {
    var len := UdpLength(u);
    var front := [Hi(u.sport), Lo(u.sport), Hi(u.dport), Lo(u.dport), Hi(len), Lo(len)];
    InsertWord(front, 0, u.payload);
    InsertWord(front, c, u.payload);
  }

  lemma InsertWord(front: seq<Byte>, w: Word, back: seq<Byte>)
    requires |front| % 2 == 0
    ensures WordSum(front + [Hi(w), Lo(w)] + back) == WordSum(front) + w + WordSum(back)
  {
    WordSumConcat(front + [Hi(w), Lo(w)], back);
    WordSumConcat(front, [Hi(w), Lo(w)]);
    assert [Hi(w), Lo(w)][2..] == [];
  }

  // ---- building in place ----

  method PutUint16(a: array<Byte>, i: nat, w: Word)
    requires i + 1 < a.Length
    modifies a
    ensures a[i] == Hi(w) && a[i + 1] == Lo(w)
    ensures forall k :: 0 <= k < a.Length && k != i && k != i + 1 ==> a[k] == old(a[k])
  {
    a[i] := w / 0x100;
    a[i + 1] := w % 0x100;
  }

  method Copy(a: array<Byte>, at: nat, b: seq<Byte>)
    requires at + |b| <= a.Length
    modifies a
    ensures forall k :: 0 <= k < a.Length ==> a[k] == if at <= k < at + |b| then b[k - at] else old(a[k])
  {
    for i := 0 to |b|
      invariant forall k :: 0 <= k < a.Length ==> a[k] == if at <= k < at + i then b[k - at] else old(a[k])
    {
      a[at + i] := b[i];
    }
  }

  method PutHeader(pkt: array<Byte>, u: Udp4)
    requires WellFormed(u) && pkt.Length == 28 + |u.payload|
    requires forall k :: 0 <= k < pkt.Length ==> pkt[k] == 0
    modifies pkt
    ensures pkt[..20] == Header(IpLength(u), IpSum(Header(IpLength(u), 0, u.src, u.dst)), u.src, u.dst)
    ensures forall k :: 20 <= k < pkt.Length ==> pkt[k] == 0
  {
    pkt[0] := 0x45;
    PutUint16(pkt, 2, pkt.Length % 0x1_0000);
    pkt[8] := 64;
    pkt[9] := 17;
    Copy(pkt, 12, u.src);
    Copy(pkt, 16, u.dst);
    assert pkt[..20] == Header(IpLength(u), 0, u.src, u.dst);
    var sum := IpChecksum(pkt[..20]);
    PutUint16(pkt, 10, sum);
  }

  method PutDatagram(pkt: array<Byte>, u: Udp4)
    requires WellFormed(u) && pkt.Length == 28 + |u.payload|
    requires forall k :: 20 <= k < pkt.Length ==> pkt[k] == 0
    modifies pkt
    ensures pkt[20..] == Datagram(u.sport, u.dport, UdpLength(u), UdpField(u), u.payload)
    ensures pkt[..20] == old(pkt[..20])
  {
    PutUint16(pkt, 20, u.sport);
    PutUint16(pkt, 22, u.dport);
    PutUint16(pkt, 24, (8 + |u.payload|) % 0x1_0000);
    assert pkt[20..28]
           == [Hi(u.sport), Lo(u.sport), Hi(u.dport), Lo(u.dport), Hi(UdpLength(u)), Lo(UdpLength(u)), 0, 0];
    ghost var front := pkt[20..28];
    Copy(pkt, 28, u.payload);
    assert pkt[20..] == front + u.payload;
    assert pkt[20..] == Datagram(u.sport, u.dport, UdpLength(u), 0, u.payload);
    var sum := UdpChecksum(u.src, u.dst, pkt[20..]);
    PutUint16(pkt, 26, sum);
  }

  /** The packet with both checksums in place. */
  method BuildUDP4(u: Udp4) returns (pkt: array<Byte>)
    requires WellFormed(u)
    ensures fresh(pkt) && pkt[..] == Packet(u, UdpField(u))
  {
    pkt := new Byte[28 + |u.payload|](_ => 0);
    PutHeader(pkt, u);
    PutDatagram(pkt, u);
    assert pkt[..] == pkt[..20] + pkt[20..];
  }
}
