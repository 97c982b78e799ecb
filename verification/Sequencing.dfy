/** The sequencer: it numbers packets, links each to the state before it, and stamps either a signature
    or, in groups of four replicas, keyed codes. */
module Sequencing {
  import opened Blocks
  import opened Multicast
  import opened Wire

  /** A hasher that has been fed `fed`; taking it leaves a new one behind. */
  datatype Crypto = HalfSipCrypto(n: nat) | K256Crypto(fed: Bytes)

  datatype SequencerState = SequencerState(seqNum: nat, crypto: Crypto)

  datatype ProcessCrypto = HalfSipProcess(n: nat) | K256Process(linked: Bytes, state: Bytes)

  datatype Process = Process(buf: Bytes, seqNum: nat, crypto: ProcessCrypto)

  /** The packets sent, in order, and whether the 8-bit offset overflowed after the last of them. */
  datatype Sends = Sends(packets: seq<Bytes>, overflowed: bool)

  function ProcessOf(s: SequencerState, buf: Bytes, hash: Bytes -> Bytes): (SequencerState, Process)
    requires |buf| >= HEADER && s.seqNum < U32 && |hash([])| == 32
    requires s.crypto.K256Crypto? ==> |hash(s.crypto.fed)| == 32
  {
    var seqNum := (s.seqNum + 1) % U32;
    match s.crypto
    case HalfSipCrypto(n) => (s.(seqNum := seqNum), Process(buf, seqNum, HalfSipProcess(n)))
    case K256Crypto(fed) =>
      var linked := hash(fed);
      var state := StateBytes(linked, buf[68..100], seqNum);
      (SequencerState(seqNum, K256Crypto(state)), Process(buf, seqNum, K256Process(linked, state)))
  }

  class Sequencer {
    var seqNum: nat
    var crypto: Crypto

    ghost function Value(): SequencerState
      reads this
    {
      SequencerState(seqNum, crypto)
    }

    constructor HalfSip(n: nat)
      ensures Value() == SequencerState(0, HalfSipCrypto(n))
    {
      seqNum, crypto := 0, HalfSipCrypto(n);
    }

    constructor K256()
      ensures Value() == SequencerState(0, K256Crypto([]))
    {
      seqNum, crypto := 0, K256Crypto([]);
    }

    method DoProcess(buf: Bytes, hash: Bytes -> Bytes) returns (p: Process)
      requires |buf| >= HEADER && seqNum < U32 && |hash([])| == 32
      requires crypto.K256Crypto? ==> |hash(crypto.fed)| == 32
      modifies this
      ensures (Value(), p) == ProcessOf(old(Value()), buf, hash)
    {
      seqNum := (seqNum + 1) % U32;
      match crypto
      case HalfSipCrypto(n) =>
        p := Process(buf, seqNum, HalfSipProcess(n));
      case K256Crypto(fed) =>
        var digest := buf[68..100];
        var linked := hash(fed);
        var state := StateInternal(linked, digest, seqNum);
        crypto := K256Crypto(state[..]);
        p := Process(buf, seqNum, K256Process(linked, state[..]));
    }
  }

  // ---------- stamping ----------

  function CodesFor(offset: nat): (codes: seq<Bytes>)
    requires offset + 3 < 0x100
    ensures |codes| == 4 && forall j :: 0 <= j < 4 ==> |codes[j]| == 4
  {
    [[MARK, MARK, MARK, offset as Byte], [MARK, MARK, MARK, (offset + 1) as Byte],
     [MARK, MARK, MARK, (offset + 2) as Byte], [MARK, MARK, MARK, (offset + 3) as Byte]]
  }

  function HalfSipPacket(buf: Bytes, seqNum: nat, offset: nat): (r: Bytes)
    requires |buf| >= HEADER && seqNum < U32 && offset + 3 < 0x100
    ensures |r| == |buf|
  {
    var codes := CodesFor(offset);
    BigEndian(seqNum) + codes[0] + codes[1] + codes[2] + codes[3] + buf[20..]
  }

  function K256Packet(buf: Bytes, seqNum: nat, linked: Bytes, signature: Bytes): (r: Bytes)
    requires |buf| >= HEADER && seqNum < U32 && |linked| == 32 && |signature| == 64
    ensures |r| == |buf|
  {
    BigEndian(seqNum) + Reverse(signature) + linked + buf[100..]
  }

  /** The first `count` packets of the fan-out. */
  function FanOut(buf: Bytes, seqNum: nat, count: nat): (r: seq<Bytes>)
    requires |buf| >= HEADER && seqNum < U32 && count <= 64
    ensures |r| == count && forall k :: 0 <= k < count ==> r[k] == HalfSipPacket(buf, seqNum, 4 * k)
  {
    seq(count, k requires 0 <= k < count => HalfSipPacket(buf, seqNum, 4 * k))
  }

  /** The number of replicas is cut to 8 bits; the offset stops fitting when it would pass 252. */
  function Limit(n: nat): nat {
    n % 0x100
  }

  function Apply(p: Process, sign: Bytes -> Bytes): Sends
    requires |p.buf| >= HEADER && p.seqNum < U32
    requires p.crypto.K256Process? ==> |p.crypto.linked| == 32 && |sign(p.crypto.state)| == 64
  {
    match p.crypto
    case HalfSipProcess(n) => Sends(FanOut(p.buf, p.seqNum, (Limit(n) + 3) / 4), Limit(n) > 252)
    case K256Process(linked, state) => Sends([K256Packet(p.buf, p.seqNum, linked, sign(state))], false)
  }

  /** Overwrites the bytes of `buf` from `at` on. */
  method CopyInto(buf: array<Byte>, at: nat, bytes: Bytes)
    requires at + |bytes| <= buf.Length
    modifies buf
    ensures forall k :: 0 <= k < buf.Length ==>
              buf[k] == if at <= k < at + |bytes| then bytes[k - at] else old(buf[k])
  {
    for i := 0 to |bytes|
      invariant forall k :: 0 <= k < buf.Length ==>
                  buf[k] == if at <= k < at + i then bytes[k - at] else old(buf[k])
    {
      buf[at + i] := bytes[i];
    }
  }

  method StampSignature(buf: array<Byte>, ghost was: Bytes, seqNum: nat, linked: Bytes, signature: Bytes)
    requires buf.Length == |was| >= HEADER && seqNum < U32 && |linked| == 32 && |signature| == 64
    requires buf[..] == BigEndian(seqNum) + was[4..]
    modifies buf
    ensures buf[..] == K256Packet(was, seqNum, linked, signature)
  {
    hide BigEndian, Reverse;
    CopyInto(buf, 68, linked);
    CopyInto(buf, 4, Reverse(signature));
  }

  method StampCodes(buf: array<Byte>, ghost was: Bytes, seqNum: nat, offset: nat)
    requires buf.Length == |was| >= HEADER && seqNum < U32 && offset + 3 < 0x100
    requires buf[..4] == BigEndian(seqNum) && buf[20..] == was[20..]
    modifies buf
    ensures buf[..] == HalfSipPacket(was, seqNum, offset)
  {
    hide BigEndian;
    CopyInto(buf, 4, [MARK, MARK, MARK, offset as Byte]);
    CopyInto(buf, 8, [MARK, MARK, MARK, (offset + 1) as Byte]);
    CopyInto(buf, 12, [MARK, MARK, MARK, (offset + 2) as Byte]);
    CopyInto(buf, 16, [MARK, MARK, MARK, (offset + 3) as Byte]);
  }

  method DoApply(buf: array<Byte>, seqNum: nat, crypto: ProcessCrypto, sign: Bytes -> Bytes)
    returns (sends: Sends)
    requires buf.Length >= HEADER && seqNum < U32
    requires crypto.K256Process? ==> |crypto.linked| == 32 && |sign(crypto.state)| == 64
    modifies buf
    ensures sends == Apply(Process(old(buf[..]), seqNum, crypto), sign)
  {
    ghost var was := buf[..];
    CopyInto(buf, 0, BigEndian(seqNum));
    match crypto
    case HalfSipProcess(n) =>
      sends := SendGroups(buf, was, seqNum, n);
    case K256Process(linked, state) =>
      StampSignature(buf, was, seqNum, linked, sign(state));
      sends := Sends([buf[..]], false);
  }

  /** The loop over groups of four replicas. */
  method SendGroups(buf: array<Byte>, ghost was: Bytes, seqNum: nat, n: nat) returns (sends: Sends)
    requires buf.Length == |was| >= HEADER && seqNum < U32
    requires buf[..] == BigEndian(seqNum) + was[4..]
    modifies buf
    ensures sends == Sends(FanOut(was, seqNum, (Limit(n) + 3) / 4), Limit(n) > 252)
  {
    var limit := n % 0x100;
    var offset := 0;
    var packets: seq<Bytes> := [];
    while offset < limit
      invariant offset == 4 * |packets| && |packets| <= (limit + 3) / 4 && offset <= 252
      invariant buf[..4] == BigEndian(seqNum) && buf[20..] == was[20..]
      invariant packets == FanOut(was, seqNum, |packets|)
      decreases limit - offset
    {
      StampCodes(buf, was, seqNum, offset);
      packets := packets + [buf[..]];
      if offset + 4 >= 0x100 {
        return Sends(packets, true);
      }
      offset := offset + 4;
    }
    sends := Sends(packets, false);
  }
}
