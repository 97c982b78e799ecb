/** From sender to receiver through the sequencer, for every unbounded stream of messages. */
module SequencerStream {
  // And the coverage of replicas by the packets sent in groups of four.

  import opened Blocks
  import opened Multicast
  import opened Wire
  import opened Sequencing

  lemma NextNumber(i: nat)
    ensures (i % U32 + 1) % U32 == (i + 1) % U32
  {
  }

  /** The sequencer after it has processed the serialized messages of `ms`. */
  function Processed<M>(c: Codec<M>, start: SequencerState, ms: seq<M>): (s: SequencerState)
    requires start.seqNum < U32 && (forall m :: m in ms ==> |c.digest(m)| == 32)
    requires |c.hash([])| == 32 && forall b :: |c.hash(b)| == 32
    ensures s.seqNum == (start.seqNum + |ms|) % U32
    ensures s.crypto.K256Crypto? == start.crypto.K256Crypto?
  {
    if ms == [] then start
    else
      NextNumber(start.seqNum + |ms| - 1);
      ProcessOf(Processed(c, start, ms[..|ms| - 1]), Serialize(c, ms[|ms| - 1]), c.hash).0
  }

  /** What the sequencer makes of message number i. */
  function ProcessAt<M>(c: Codec<M>, start: SequencerState, ms: seq<M>, i: nat): Process
    requires start.seqNum < U32 && (forall m :: m in ms ==> |c.digest(m)| == 32)
    requires |c.hash([])| == 32 && forall b :: |c.hash(b)| == 32
    requires i < |ms|
  {
    ProcessOf(Processed(c, start, ms[..i]), Serialize(c, ms[i]), c.hash).1
  }

  const K256_START: SequencerState := SequencerState(0, K256Crypto([]))

  /** What has been fed to the hasher when message number i arrives: the state of message i - 1. */
  function FedBefore<M>(c: Codec<M>, ms: seq<M>, i: nat): (fed: Bytes)
    requires (forall m :: m in ms ==> |c.digest(m)| == 32) && (forall b :: |c.hash(b)| == 32) && i <= |ms|
    ensures i > 0 ==> |fed| == 52
  {
    if i == 0 then [] else StateBytes(c.hash(FedBefore(c, ms, i - 1)), c.digest(ms[i - 1]), i % U32)
  }

  lemma SerializedParts<M>(c: Codec<M>, m: M)
    requires |c.digest(m)| == 32
    ensures Serialize(c, m)[68..100] == c.digest(m) && Serialize(c, m)[HEADER..] == c.encode(m)
  {
  }

  lemma {:induction false} ProcessedFeeds<M>(c: Codec<M>, ms: seq<M>, i: nat)
    requires (forall m :: m in ms ==> |c.digest(m)| == 32) && (forall b :: |c.hash(b)| == 32) && i <= |ms|
    ensures Processed(c, K256_START, ms[..i]) == SequencerState(i % U32, K256Crypto(FedBefore(c, ms, i)))
    decreases i
  {
    if i != 0 {
      ProcessedFeeds(c, ms, i - 1);
      assert ms[..i][..i - 1] == ms[..i - 1];
      SerializedParts(c, ms[i - 1]);
    }
  }

  /** What the signing sequencer makes of message number i. */
  lemma ProcessAtIs<M>(c: Codec<M>, ms: seq<M>, i: nat)
    requires (forall m :: m in ms ==> |c.digest(m)| == 32) && (forall b :: |c.hash(b)| == 32) && i < |ms|
    ensures ProcessAt(c, K256_START, ms, i) ==
            Process(Serialize(c, ms[i]), (i + 1) % U32, K256Process(c.hash(FedBefore(c, ms, i)), FedBefore(c, ms, i + 1)))
  {
    hide StateBytes, Serialize, Processed;
    ProcessedFeeds(c, ms, i);
    SerializedParts(c, ms[i]);
    NextNumber(i);
  }

  /** What the receiver reads out of a signed packet, whatever follows it in the receive buffer. */
  lemma K256PacketReads<M(!new)>(c: Codec<M>, m: M, seqNum: nat, linked: Bytes, signature: Bytes, tail: Bytes)
    requires CodecOk(c) && seqNum < U32 && |linked| == 32 && |signature| == 64 && c.parses(signature)
    ensures Deserialize(c, K256Receiver, K256Packet(Serialize(c, m), seqNum, linked, signature) + tail)
         == Some(OrderedMulticast(seqNum, K256(signature), linked, m))
  {
    hide BigEndian, FromBigEndian, Serialize;
    var sent := Serialize(c, m);
    var buf := K256Packet(sent, seqNum, linked, signature) + tail;
    SerializedParts(c, m);
    assert buf[0..4] == BigEndian(seqNum);
    BigEndianRoundTrip(seqNum);
    assert buf[4..68] == Reverse(signature);
    assert Reverse(Reverse(signature)) == signature;
    assert Reverse(Zeros(64)) == Zeros(64);
    assert buf[68..100] == linked;
    assert buf[HEADER..] == c.encode(m) + tail;
  }

  /** For every stream of messages: the receiver gets back each message, numbered consecutively (in 32-bit
      arithmetic), signed; the state it recomputes is the one that was signed; its link is the hash of
      the state of the message before, and of nothing for the first. */
  lemma SignedStreamRoundTrip<M(!new)>(c: Codec<M>, ms: seq<M>, i: nat, sign: Bytes -> Bytes, tail: Bytes)
    requires CodecOk(c) && i < |ms|
    requires forall b :: |sign(b)| == 64 && c.parses(sign(b))
    ensures
      var p := ProcessAt(c, K256_START, ms, i);
      && p.crypto.K256Process? && |p.crypto.linked| == 32
      && !Apply(p, sign).overflowed && |Apply(p, sign).packets| == 1
      && var received := Deserialize(c, K256Receiver, Apply(p, sign).packets[0] + tail);
      && received.Some?
      && received.value.seqNum == (i + 1) % U32 && received.value.inner == ms[i]
      && received.value.linked == c.hash(FedBefore(c, ms, i)) && |received.value.linked| == 32
      && StateOf(c, received.value) == FedBefore(c, ms, i + 1) == p.crypto.state
      && received.value.signature == K256(sign(StateOf(c, received.value)))
  {
    hide StateBytes, K256Packet, Deserialize, Serialize, ProcessAt, CodecOk;
    Sizes(c);
    ProcessAtIs(c, ms, i);
    var state := FedBefore(c, ms, i + 1);
    K256PacketReads(c, ms[i], (i + 1) % U32, c.hash(FedBefore(c, ms, i)), sign(state), tail);
  }

  lemma Sizes<M(!new)>(c: Codec<M>)
    requires CodecOk(c)
    ensures (forall m :: |c.digest(m)| == 32) && (forall b :: |c.hash(b)| == 32)
  {
  }

  // ---------- groups of four ----------

  /** What a replica reads out of a packet of the fan-out, whatever follows it in the buffer. */
  lemma HalfSipPacketReads<M(!new)>(c: Codec<M>, r: ReplicaIndex, m: M, seqNum: nat, offset: nat, tail: Bytes)
    requires CodecOk(c) && seqNum < U32 && offset + 3 < 0x100
    ensures Deserialize(c, HalfSipReceiver(r), HalfSipPacket(Serialize(c, m), seqNum, offset) + tail)
         == Some(OrderedMulticast(seqNum, HalfSipHash(CodesFor(offset)), Zeros(32), m))
  {
    hide BigEndian, FromBigEndian, Serialize;
    var buf := HalfSipPacket(Serialize(c, m), seqNum, offset) + tail;
    SerializedParts(c, m);
    assert buf[0..4] == BigEndian(seqNum);
    BigEndianRoundTrip(seqNum);
    var codes := CodesFor(offset);
    assert buf[4..8] == codes[0] && buf[8..12] == codes[1] && buf[12..16] == codes[2] && buf[16..20] == codes[3];
    assert Codes(buf) == codes;
    assert buf[HEADER..] == Serialize(c, m)[HEADER..] + tail;
  }

  lemma AcceptsOwnGroup(index: ReplicaIndex, k: nat)
    requires index < 0x100 && 4 * k + 3 < 0x100
    ensures Accepts(index, CodesFor(4 * k)) <==> k == index / 4
  {
    var j := index % 4;
    assert CodesFor(4 * k)[j] == [MARK, MARK, MARK, (4 * k + j) as Byte];
  }

  /** The packets of a fan-out that a replica takes. */
  function TakenPackets(index: ReplicaIndex, count: nat): set<nat>
    requires count <= 64
  {
    set k | 0 <= k < count && Accepts(index, CodesFor(4 * k))
  }

  /** The send loop ends without overflow and each replica takes exactly one packet. */
  ghost predicate Covers(n: nat) {
    && Limit(n) <= 252
    && forall r: ReplicaIndex {:trigger TakenPackets(r, (Limit(n) + 3) / 4)} ::
         r < n && r < 0x100 ==> |TakenPackets(r, (Limit(n) + 3) / 4)| == 1
  }

  lemma TakesOnlyOwn(index: ReplicaIndex, count: nat)
    requires index < 0x100 && count <= 64
    ensures TakenPackets(index, count) == if index / 4 < count then {index / 4} else {}
  {
    forall k | 0 <= k < count ensures Accepts(index, CodesFor(4 * k)) <==> k == index / 4 {
      AcceptsOwnGroup(index, k);
    }
  }

  /** The fan-out reaches every replica exactly once for up to 252 replicas, and for no other number. */
  lemma CoverageIff(n: nat)
    requires n > 0
    ensures Covers(n) <==> n <= 252
    ensures Covers(n) ==> (Limit(n) + 3) / 4 == (n + 3) / 4
  {
    hide Accepts;
    var count := (Limit(n) + 3) / 4;
    if n <= 252 {
      forall r: ReplicaIndex | r < n && r < 0x100 ensures |TakenPackets(r, count)| == 1 {
        TakesOnlyOwn(r, count);
      }
    } else if n >= 0x100 && Limit(n) <= 252 {
      TakesOnlyOwn(255, count);
      assert |TakenPackets(255, count)| == 0;
    }
  }

  /** For every stream and up to 252 replicas: message number i reaches each replica in exactly one packet
      that it does not drop, as the original message with a consecutive number. */
  lemma FanOutStreamRoundTrip<M(!new)>(
      c: Codec<M>, n: nat, ms: seq<M>, i: nat, r: ReplicaIndex, sign: Bytes -> Bytes, tail: Bytes)
    requires CodecOk(c) && i < |ms| && 0 < n <= 252 && r < n
    ensures
      var p := ProcessAt(c, SequencerState(0, HalfSipCrypto(n)), ms, i);
      var sends := Apply(p, sign);
      && p.crypto == HalfSipProcess(n) && !sends.overflowed && |sends.packets| == (n + 3) / 4
      && forall k :: 0 <= k < |sends.packets| ==>
           var received := Deserialize(c, HalfSipReceiver(r), sends.packets[k] + tail);
           && received == Some(OrderedMulticast((i + 1) % U32, HalfSipHash(CodesFor(4 * k)), Zeros(32), ms[i]))
           && (Accepts(r, CodesFor(4 * k)) <==> k == r / 4)
  {
    hide HalfSipPacket, Deserialize, Serialize, CodesFor, Accepts, CodecOk, Processed;
    Sizes(c);
    var start := SequencerState(0, HalfSipCrypto(n));
    StaysHalfSip(c, n, ms[..i]);
    var p := ProcessAt(c, start, ms, i);
    NextNumber(i);
    forall k | 0 <= k < (n + 3) / 4
      ensures Deserialize(c, HalfSipReceiver(r), HalfSipPacket(Serialize(c, ms[i]), p.seqNum, 4 * k) + tail)
           == Some(OrderedMulticast((i + 1) % U32, HalfSipHash(CodesFor(4 * k)), Zeros(32), ms[i]))
      ensures Accepts(r, CodesFor(4 * k)) <==> k == r / 4
    {
      HalfSipPacketReads(c, r, ms[i], p.seqNum, 4 * k, tail);
      AcceptsOwnGroup(r, k);
    }
  }

  lemma {:induction false} StaysHalfSip<M>(c: Codec<M>, n: nat, ms: seq<M>)
    requires (forall m :: m in ms ==> |c.digest(m)| == 32) && (forall b :: |c.hash(b)| == 32)
    ensures Processed(c, SequencerState(0, HalfSipCrypto(n)), ms).crypto == HalfSipCrypto(n)
    decreases |ms|
  {
    if ms != [] {
      StaysHalfSip(c, n, ms[..|ms| - 1]);
    }
  }
}
