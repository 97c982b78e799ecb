/** The bytes of stamped packets, and exactly which packets a receiver can read. */
module WireLayout {
  import opened Blocks
  import opened Multicast
  import opened Wire
  import opened Sequencing

  /** The four bytes at the front, the most significant first. */
  ghost predicate HasNumber(packet: Bytes, seqNum: nat)
    requires |packet| >= 4
  {
    seqNum == packet[0] as nat * 0x100_0000 + packet[1] as nat * 0x1_0000 + packet[2] as nat * 0x100 + packet[3] as nat
  }

  lemma NumberInFront(x: nat, rest: Bytes)
    requires x < U32
    ensures HasNumber(BigEndian(x) + rest, x)
  {
    hide BigEndian;
    BigEndianBytes(x);
  }

  /** Of a signed packet: the number, the 64 bytes of the signature from the last to the first, the link, and the
      payload as it was. */
  lemma SignedPacketBytes(buf: Bytes, seqNum: nat, linked: Bytes, signature: Bytes)
    requires |buf| >= HEADER && seqNum < U32 && |linked| == 32 && |signature| == 64
    ensures
      var p := K256Packet(buf, seqNum, linked, signature);
      && |p| == |buf| && HasNumber(p, seqNum)
      && (forall i :: 0 <= i < 64 ==> p[4..68][i] == signature[63 - i])
      && p[68..100] == linked
      && (forall i :: 100 <= i < |buf| ==> p[i] == buf[i])
  {
    hide BigEndian, HasNumber;
    NumberInFront(seqNum, Reverse(signature) + linked + buf[100..]);
    var p := K256Packet(buf, seqNum, linked, signature);
    assert p == BigEndian(seqNum) + (Reverse(signature) + linked + buf[100..]);
  }

  /** Of a packet for four replicas: the number, for each of them three bytes 0xcc and its index, and the rest as it
      was. */
  lemma GroupPacketBytes(buf: Bytes, seqNum: nat, offset: nat)
    requires |buf| >= HEADER && seqNum < U32 && offset + 3 < 0x100
    ensures
      var p := HalfSipPacket(buf, seqNum, offset);
      && |p| == |buf| && HasNumber(p, seqNum)
      && (forall j :: 0 <= j < 4 ==>
            p[4 + 4 * j] == p[5 + 4 * j] == p[6 + 4 * j] == 0xcc && p[7 + 4 * j] as nat == offset + j)
      && (forall i :: 20 <= i < |buf| ==> p[i] == buf[i])
  {
    hide BigEndian, HasNumber;
    var codes := CodesFor(offset);
    NumberInFront(seqNum, codes[0] + codes[1] + codes[2] + codes[3] + buf[20..]);
    var p := HalfSipPacket(buf, seqNum, offset);
    assert p == BigEndian(seqNum) + (codes[0] + codes[1] + codes[2] + codes[3] + buf[20..]);
    forall j | 0 <= j < 4 ensures p[4 + 4 * j..8 + 4 * j] == codes[j] {
    }
    forall j | 0 <= j < 4
      ensures p[4 + 4 * j] == p[5 + 4 * j] == p[6 + 4 * j] == 0xcc && p[7 + 4 * j] as nat == offset + j
    {
      assert forall i :: 0 <= i < 4 ==> p[4 + 4 * j + i] == p[4 + 4 * j..8 + 4 * j][i] == codes[j][i];
    }
  }

  ghost predicate NoSignature(buf: Bytes)
    requires |buf| >= HEADER
  {
    forall i :: 4 <= i < 68 ==> buf[i] == 0
  }

  /** The bytes that stand for a signature in a packet, from the last to the first. */
  ghost predicate IsSignatureOf(buf: Bytes, signature: Bytes)
    requires |buf| >= HEADER
  {
    |signature| == 64 && forall i :: 0 <= i < 64 ==> signature[i] == buf[67 - i]
  }

  /** Any packet can be read exactly when it has a header and a payload that decodes and, at a receiver of signed
      packets, no signature or one that parses; and what is read is what the bytes say. */
  lemma ReadIff<M>(c: Codec<M>, r: Receiver, buf: Bytes, signature: Bytes)
    requires |buf| >= HEADER ==> IsSignatureOf(buf, signature)
    ensures
      var m := Deserialize(c, r, buf);
      && (m.Some? <==> && |buf| >= HEADER && c.decode(buf[HEADER..]).Some?
                       && (r.K256Receiver? ==> NoSignature(buf) || c.parses(signature)))
      && (m.Some? ==>
            && Some(m.value.inner) == c.decode(buf[HEADER..]) && HasNumber(buf, m.value.seqNum)
            && (r.K256Receiver? ==>
                  && m.value.linked == buf[68..100]
                  && m.value.signature == if NoSignature(buf) then K256Linked else K256(signature))
            && (r.HalfSipReceiver? ==>
                  m.value.linked == Zeros(32)
                  && m.value.signature == HalfSipHash([buf[4..8], buf[8..12], buf[12..16], buf[16..20]])))
  {
    if |buf| >= HEADER {
      assert Reverse(buf[4..68]) == signature;
      assert NoSignature(buf) <==> buf[4..68] == Zeros(64) by { ZerosOrNot(buf); }
    }
  }

  lemma ZerosOrNot(buf: Bytes)
    requires |buf| >= HEADER
    ensures NoSignature(buf) <==> buf[4..68] == Zeros(64)
  {
    if buf[4..68] == Zeros(64) {
      forall i | 4 <= i < 68 ensures buf[i] == 0 {
        assert buf[i] == buf[4..68][i - 4];
      }
    }
  }
}
