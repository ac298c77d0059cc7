/** Construction of IPv6/UDP datagrams for simulated hosts (simulation/utils.go), with the
    checksum of section 8.1 of RFC 2460. */
module UdpChecksum {
  import opened SimTypes

  type Ip6Addr = a: seq<Byte> | |a| == 16 witness seq(16, _ => 0)

  const UDP_NEXT_HEADER: Byte := 17
  const UDP_HEADER_LEN := 8

  // The largest payload whose UDP length still fits its 16-bit field.
  const MAX_UDP_PAYLOAD := 65527

  // ---------- byte layouts ----------

  /** The value of two big-endian bytes. */
  function Uint16(hi: Byte, lo: Byte): Word16 {
    hi as int * 0x100 + lo as int
  }

  function PutUint16(x: Word16): (b: seq<Byte>)
    ensures |b| == 2 && Uint16(b[0], b[1]) == x
  {
    [x / 0x100, x % 0x100]
  }

  function PutUint32(x: nat): (b: seq<Byte>)
    requires x < 0x1_0000_0000
    ensures |b| == 4 && Uint16(b[0], b[1]) as int * 0x1_0000 + Uint16(b[2], b[3]) as int == x
  {
    PutUint16(x / 0x1_0000) + PutUint16(x % 0x1_0000)
  }

  function UdpHeaderBytes(srcPort: Word16, dstPort: Word16, length: Word16, checksum: Word16): (b: seq<Byte>)
    ensures |b| == UDP_HEADER_LEN
  {
    PutUint16(srcPort) + PutUint16(dstPort) + PutUint16(length) + PutUint16(checksum)
  }

  function PseudoHeader(src: Ip6Addr, dst: Ip6Addr, length: Word16): (b: seq<Byte>)
    ensures |b| == 40
  {
    src + dst + PutUint32(length) + [0, 0, 0, UDP_NEXT_HEADER]
  }

  datatype Ip6Header = Ip6Header(version: nat, trafficClass: nat, flowLabel: nat, nextHeader: Byte,
                                 hopLimit: Byte, src: Ip6Addr, dst: Ip6Addr)
  {
    predicate Valid() { version < 0x10 && trafficClass < 0x100 && flowLabel < 0x10_0000 }
  }

  /** The fields share bytes without overlapping bits, so the source's bitwise or is a sum. */
  function Ip6HeaderBytes(h: Ip6Header, payloadLen: Word16): (b: seq<Byte>)
    requires h.Valid()
    ensures |b| == 40
  {
    [h.version * 0x10 + h.trafficClass / 0x10, h.trafficClass % 0x10 * 0x10 + h.flowLabel / 0x1_0000]
    + PutUint16(h.flowLabel % 0x1_0000) + PutUint16(payloadLen) + [h.nextHeader, h.hopLimit] + h.src + h.dst
  }

  /** The layout read back, as a receiver would. */
  function ParseIp6Header(b: seq<Byte>): (h: Ip6Header)
    requires |b| >= 40
  {
    Ip6Header(b[0] / 0x10, b[0] as int % 0x10 * 0x10 + b[1] as int / 0x10,
              b[1] as int % 0x10 * 0x1_0000 + Uint16(b[2], b[3]) as int, b[6], b[7], b[8..24], b[24..40])
  }

  lemma Ip6HeaderRoundTrip(h: Ip6Header, payloadLen: Word16, rest: seq<Byte>)
    requires h.Valid()
    ensures ParseIp6Header(Ip6HeaderBytes(h, payloadLen) + rest) == h
    ensures Uint16((Ip6HeaderBytes(h, payloadLen) + rest)[4], (Ip6HeaderBytes(h, payloadLen) + rest)[5]) == payloadLen
  {
    var b := Ip6HeaderBytes(h, payloadLen) + rest;
    assert b[8..24] == h.src && b[24..40] == h.dst;
    var flow := PutUint16(h.flowLabel % 0x1_0000);
    assert b[2] == flow[0] && b[3] == flow[1];
    NibblesUnpack(h.version, h.trafficClass / 0x10);
    NibblesUnpack(h.trafficClass % 0x10, h.flowLabel / 0x1_0000);
  }

  lemma NibblesUnpack(hi: nat, lo: nat)
    requires hi < 0x10 && lo < 0x10
    ensures (hi * 0x10 + lo) / 0x10 == hi && (hi * 0x10 + lo) % 0x10 == lo
  {
  }

  // ---------- one's-complement arithmetic ----------

  /** The sum of the 16-bit big-endian words, an odd last byte padded with zero. */
  ghost function WordSum(b: seq<Byte>): nat {
    if |b| == 0 then 0
    else if |b| == 1 then Uint16(b[0], 0)
    else Uint16(b[0], b[1]) + WordSum(b[2..])
  }

  /** The 16-bit one's-complement sum: carries out of bit 15 come back in at bit 0. Zero
      arises from zero only, so every other multiple of 0xffff is represented by 0xffff. */
  ghost function OnesComplement(sum: nat): (r: Word16) {
    if sum == 0 then 0 else 1 + (sum - 1) % 0xffff
  }

  ghost function Complement(sum: nat): Word16 {
    if OnesComplement(sum) == 0xffff then 0xffff else 0xffff - OnesComplement(sum)
  }

  /** The receiver's test of a UDP segment: the one's-complement sum over pseudo-header and
      segment, checksum included, is all ones. */
  ghost predicate Verifies(src: Ip6Addr, dst: Ip6Addr, segment: seq<Byte>)
    requires |segment| < 0x1_0000
  {
    OnesComplement(WordSum(PseudoHeader(src, dst, |segment|) + segment)) == 0xffff
  }

  lemma {:induction false} WordSumBound(b: seq<Byte>)
    ensures WordSum(b) <= (|b| + 1) / 2 * 0xffff
  {
    if |b| >= 2 {
      WordSumBound(b[2..]);
    }
  }

  lemma {:induction false} WordSumAppend(a: seq<Byte>, b: seq<Byte>)
    requires |a| % 2 == 0
    ensures WordSum(a + b) == WordSum(a) + WordSum(b)
    decreases |a|
  {
    if |a| == 0 {
      assert a + b == b;
    } else {
      assert (a + b)[2..] == a[2..] + b;
      WordSumAppend(a[2..], b);
    }
  }

  lemma WordSumPrefix(b: seq<Byte>, i: nat)
    requires i % 2 == 0 && i + 2 <= |b|
    ensures WordSum(b[..i + 2]) == WordSum(b[..i]) + Uint16(b[i], b[i + 1])
  {
    assert b[..i + 2] == b[..i] + [b[i], b[i + 1]];
    WordSumAppend(b[..i], [b[i], b[i + 1]]);
    assert [b[i], b[i + 1]][2..] == [];
  }

  /** Folding the high half onto the low half keeps the one's-complement sum. */
  lemma FoldKeepsSum(sum: nat)
    requires sum > 0xffff
    ensures 0 < sum / 0x1_0000 + sum % 0x1_0000 < sum
    ensures OnesComplement(sum / 0x1_0000 + sum % 0x1_0000) == OnesComplement(sum)
  {
    var hi, lo := sum / 0x1_0000, sum % 0x1_0000;
    assert sum == hi * 0xffff + (hi + lo);
    ModuloShift(hi, hi + lo - 1);
  }

  lemma ModuloShift(k: nat, x: nat)
    ensures (k * 0xffff + x) % 0xffff == x % 0xffff
  {
  }

  /** The complement of a folded sum, with 0 replaced by 0xffff, is the one nonzero word
      that completes the sum to all ones. */
  lemma ComplementCompletes(sum: nat, c: Word16)
    requires sum > 0 && c > 0
    ensures OnesComplement(sum + c) == 0xffff <==>
            c == Complement(sum)
  {
    var f := OnesComplement(sum);
    var k := (sum - 1) / 0xffff;
    assert sum == k * 0xffff + f && 1 <= f <= 0xffff;
    ModuloShift(k, f + c - 1);
  }

  /** The pseudo-header adds the two addresses, the length and the protocol number to the sum,
      as section 8.1 of RFC 2460 lays it out. */
  lemma PseudoHeaderSum(src: Ip6Addr, dst: Ip6Addr, length: Word16, rest: seq<Byte>)
    ensures WordSum(PseudoHeader(src, dst, length) + rest) == WordSum(src) + WordSum(dst) + length + 17 + WordSum(rest)
  {
    hide WordSum, PutUint16, PutUint32;
    WordSumAppend(src, dst + (PutUint32(length) + ([0, 0, 0, UDP_NEXT_HEADER] + rest)));
    WordSumAppend(dst, PutUint32(length) + ([0, 0, 0, UDP_NEXT_HEADER] + rest));
    LengthSum(length);
    WordSumAppend(PutUint32(length), [0, 0, 0, UDP_NEXT_HEADER] + rest);
    ProtocolSum();
    WordSumAppend([0, 0, 0, UDP_NEXT_HEADER], rest);
    assert PseudoHeader(src, dst, length) + rest ==
           src + (dst + (PutUint32(length) + ([0, 0, 0, UDP_NEXT_HEADER] + rest)));
  }

  lemma LengthSum(length: Word16)
    ensures |PutUint32(length)| == 4 && WordSum(PutUint32(length)) == length
  {
    hide WordSum, PutUint16;
    FieldSum(0);
    FieldSum(length);
    WordSumAppend(PutUint16(0), PutUint16(length));
    assert PutUint32(length) == PutUint16(0) + PutUint16(length);
  }

  lemma ProtocolSum()
    ensures WordSum([0, 0, 0, UDP_NEXT_HEADER]) == 17
  {
    hide WordSum, PutUint16;
    SmallField(0);
    SmallField(UDP_NEXT_HEADER);
    FieldSum(0);
    FieldSum(UDP_NEXT_HEADER);
    WordSumAppend([0, 0], [0, UDP_NEXT_HEADER]);
    assert [0, 0, 0, UDP_NEXT_HEADER] == [0, 0] + [0, UDP_NEXT_HEADER];
  }

  lemma SmallField(x: Byte)
    ensures PutUint16(x) == [0, x]
  {
  }

  // ---------- the checksum ----------

  /** A segment with the given checksum field sums to the zero-checksum sum plus the field. */
  lemma ChecksumFieldAdds(src: Ip6Addr, dst: Ip6Addr, srcPort: Word16, dstPort: Word16,
                          length: Word16, checksum: Word16, payload: seq<Byte>, udpLen: Word16)
    ensures WordSum(PseudoHeader(src, dst, udpLen) + (UdpHeaderBytes(srcPort, dstPort, length, checksum) + payload))
         == WordSum(PseudoHeader(src, dst, udpLen) + (UdpHeaderBytes(srcPort, dstPort, length, 0) + payload)) + checksum
  {
    ChecksumFieldSplits(src, dst, srcPort, dstPort, length, checksum, payload, udpLen);
    ChecksumFieldSplits(src, dst, srcPort, dstPort, length, 0, payload, udpLen);
  }

  lemma ChecksumFieldSplits(src: Ip6Addr, dst: Ip6Addr, srcPort: Word16, dstPort: Word16,
                            length: Word16, c: Word16, payload: seq<Byte>, udpLen: Word16)
    ensures WordSum(PseudoHeader(src, dst, udpLen) + (UdpHeaderBytes(srcPort, dstPort, length, c) + payload))
         == WordSum(PseudoHeader(src, dst, udpLen) + (PutUint16(srcPort) + PutUint16(dstPort) + PutUint16(length)))
            + c + WordSum(payload)
  {
    hide WordSum, PutUint16, PseudoHeader, UdpHeaderBytes;
    var head := PseudoHeader(src, dst, udpLen) + (PutUint16(srcPort) + PutUint16(dstPort) + PutUint16(length));
    var field := PutUint16(c);
    FieldIsLast(srcPort, dstPort, length, c);
    assert PseudoHeader(src, dst, udpLen) + (UdpHeaderBytes(srcPort, dstPort, length, c) + payload)
        == head + (field + payload);
    FieldSum(c);
    EvenHead(src, dst, srcPort, dstPort, length, udpLen);
    WordSumAppend(head, field + payload);
    WordSumAppend(field, payload);
  }

  lemma FieldIsLast(srcPort: Word16, dstPort: Word16, length: Word16, c: Word16)
    ensures UdpHeaderBytes(srcPort, dstPort, length, c) ==
            PutUint16(srcPort) + PutUint16(dstPort) + PutUint16(length) + PutUint16(c)
    ensures |PutUint16(c)| % 2 == 0
  {
  }

  lemma EvenHead(src: Ip6Addr, dst: Ip6Addr, srcPort: Word16, dstPort: Word16, length: Word16, udpLen: Word16)
    ensures |PseudoHeader(src, dst, udpLen) + (PutUint16(srcPort) + PutUint16(dstPort) + PutUint16(length))| % 2 == 0
  {
  }

  lemma FieldSum(c: Word16)
    ensures WordSum(PutUint16(c)) == c
  {
    assert PutUint16(c)[2..] == [];
  }

  lemma PseudoHeaderIsPositive(src: Ip6Addr, dst: Ip6Addr, length: Word16, rest: seq<Byte>)
    ensures WordSum(PseudoHeader(src, dst, length) + rest) > 0
  {
    var b := PseudoHeader(src, dst, length) + rest;
    assert b[38] == 0 && b[39] == UDP_NEXT_HEADER;
    WordSumPrefix(b, 38);
    assert b == b[..40] + b[40..];
    WordSumAppend(b[..40], b[40..]);
  }

  class UdpHeader {
    var srcPort: Word16
    var dstPort: Word16
    var length: Word16
    var checksum: Word16

    constructor (srcPort: Word16, dstPort: Word16, length: Word16)
      ensures this.srcPort == srcPort && this.dstPort == dstPort && this.length == length && checksum == 0
    {
      this.srcPort, this.dstPort, this.length, this.checksum := srcPort, dstPort, length, 0;
    }

    function Bytes(): (b: seq<Byte>)
      reads this
      ensures |b| == UDP_HEADER_LEN
    {
      UdpHeaderBytes(srcPort, dstPort, length, checksum)
    }
  }

  /** The segment verifies with exactly one nonzero checksum. */
  lemma OneChecksumVerifies(src: Ip6Addr, dst: Ip6Addr, srcPort: Word16, dstPort: Word16, length: Word16,
                            payload: seq<Byte>, c: Word16, total: nat)
    requires |payload| <= MAX_UDP_PAYLOAD && c > 0
    requires total == WordSum(PseudoHeader(src, dst, |payload| + 8) + (UdpHeaderBytes(srcPort, dstPort, length, 0) + payload))
    ensures Verifies(src, dst, UdpHeaderBytes(srcPort, dstPort, length, c) + payload) <==> c == Complement(total)
    ensures total > 0
  {
    hide UdpHeaderBytes, PseudoHeader, WordSum, OnesComplement, Complement;
    ChecksumFieldAdds(src, dst, srcPort, dstPort, length, c, payload, |payload| + 8);
    PseudoHeaderIsPositive(src, dst, |payload| + 8, UdpHeaderBytes(srcPort, dstPort, length, 0) + payload);
    ComplementCompletes(total, c);
  }

  /** Writes the checksum field so that the segment verifies; no other nonzero value would. */
  method CalcUdpChecksum(src: Ip6Addr, dst: Ip6Addr, header: UdpHeader, payload: seq<Byte>)
    requires |payload| <= MAX_UDP_PAYLOAD
    modifies header`checksum
    ensures header.checksum != 0
    ensures forall c: Word16 :: c != 0 ==>
              (Verifies(src, dst, UdpHeaderBytes(header.srcPort, header.dstPort, header.length, c) + payload)
               <==> c == header.checksum)
  {
    var udpLen: Word16 := |payload| + 8;
    var pseudoHdr := PseudoHeader(src, dst, udpLen);
    header.checksum := 0;
    var data := pseudoHdr + (header.Bytes() + payload);
    var sum := SumWords(data);
    forall c: Word16 | c != 0
      ensures Verifies(src, dst, UdpHeaderBytes(header.srcPort, header.dstPort, header.length, c) + payload)
              <==> c == Complement(sum)
      ensures sum > 0
    {
      OneChecksumVerifies(src, dst, header.srcPort, header.dstPort, header.length, payload, c, sum);
    }
    assert 1 as Word16 != 0;
    var csum := FoldAndComplement(sum);
    header.checksum := csum;
  }

  /** Folds the carries back and complements, never to zero. */
  method FoldAndComplement(total: nat) returns (csum: Word16)
    ensures csum == Complement(total) != 0
  {
    var sum := total;
    while sum > 0xffff
      invariant OnesComplement(sum) == OnesComplement(total)
      decreases sum
    {
      FoldKeepsSum(sum);
      sum := sum / 0x1_0000 + sum % 0x1_0000;
    }
    csum := 0xffff - sum;
    if csum == 0 {
      csum := 0xffff;
    }
  }

  /** The summing loop. A 32-bit accumulator holds the sum of any admissible datagram. */
  method SumWords(bytes: seq<Byte>) returns (sum: nat)
    requires |bytes| <= 48 + MAX_UDP_PAYLOAD
    ensures sum == WordSum(bytes) < 0x1_0000_0000
  {
    sum := 0;
    var data := bytes;
    while |data| >= 2
      invariant sum + WordSum(data) == WordSum(bytes)
      decreases |data|
    {
      sum := sum + Uint16(data[0], data[1]);
      data := data[2..];
    }
    if |data| > 0 {
      sum := sum + Uint16(data[0], 0);
    }
    WordSumBound(bytes);
  }

  /** A receiver that looks at nothing but the bytes of the datagram finds the addresses,
      ports and payload that were asked for, the true length in both headers, and a nonzero
      checksum that verifies. */
  method CreateIp6UdpDatagram(srcPort: Word16, dstPort: Word16, src: Ip6Addr, dst: Ip6Addr,
                              hopLimit: Byte, payload: seq<Byte>) returns (datagram: seq<Byte>)
    requires |payload| <= MAX_UDP_PAYLOAD
    ensures |datagram| == 48 + |payload|
    ensures ParseIp6Header(datagram) == Ip6Header(6, 0, 0, UDP_NEXT_HEADER, hopLimit, src, dst)
    ensures Uint16(datagram[4], datagram[5]) == |payload| + 8
    ensures var checksum := Uint16(datagram[46], datagram[47]);
            checksum != 0 && datagram[40..] == UdpHeaderBytes(srcPort, dstPort, |payload| + 8, checksum) + payload
    ensures Verifies(src, dst, datagram[40..])
  {
    hide PseudoHeader, UdpHeaderBytes, Ip6HeaderBytes, ParseIp6Header, Verifies;
    var udpLen: Word16 := |payload| + 8;
    var udpHeader := new UdpHeader(srcPort, dstPort, udpLen);
    CalcUdpChecksum(src, dst, udpHeader, payload);
    var udpHeaderSer := udpHeader.Bytes();
    var ip6Header := Ip6Header(6, 0, 0, UDP_NEXT_HEADER, hopLimit, src, dst);
    datagram := Ip6HeaderBytes(ip6Header, udpLen);
    datagram := datagram + udpHeaderSer;
    datagram := datagram + payload;
    DatagramLayout(ip6Header, srcPort, dstPort, udpLen, udpHeader.checksum, payload);
  }

  lemma DatagramLayout(h: Ip6Header, srcPort: Word16, dstPort: Word16, udpLen: Word16, checksum: Word16,
                       payload: seq<Byte>)
    requires h.Valid()
    ensures var udp := UdpHeaderBytes(srcPort, dstPort, udpLen, checksum);
            var b := Ip6HeaderBytes(h, udpLen) + udp + payload;
            ParseIp6Header(b) == h && Uint16(b[4], b[5]) == udpLen &&
            b[40..] == udp + payload && Uint16(b[46], b[47]) == checksum
  {
    var udp := UdpHeaderBytes(srcPort, dstPort, udpLen, checksum);
    var ip := Ip6HeaderBytes(h, udpLen);
    assert ip + udp + payload == ip + (udp + payload);
    Ip6HeaderRoundTrip(h, udpLen, udp + payload);
    assert udp[6] == PutUint16(checksum)[0] && udp[7] == PutUint16(checksum)[1];
  }
}
