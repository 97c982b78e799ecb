/** How an ordered multicast travels. */
module Wire {
  // The 100-byte header in front of the payload, the 52-byte state that is hashed and signed, and what a
  // receiver reads back.

  import opened Blocks
  import opened Multicast

  const HEADER: nat := 100
  const U32: nat := 0x1_0000_0000

  /** The parts that are given from outside: how payloads are encoded and hashed, which hash a state
      gets, and which 64 bytes parse as a signature. */
  datatype Codec<!M> = Codec(
    encode: M -> Bytes,
    decode: Bytes -> Option<M>,
    digest: M -> Bytes,
    hash: Bytes -> Bytes,
    parses: Bytes -> bool)

  /** Decoding ignores trailing bytes; digests and hashes have 32 bytes; zeros are no signature. */
  ghost predicate CodecOk<M(!new)>(c: Codec<M>) {
    && (forall m: M, tail: Bytes :: c.decode(c.encode(m) + tail) == Some(m))
    && (forall m: M :: |c.digest(m)| == 32)
    && (forall b: Bytes :: |c.hash(b)| == 32)
    && !c.parses(Zeros(64))
  }

  function Zeros(n: nat): (r: Bytes)
    ensures |r| == n && forall i :: 0 <= i < n ==> r[i] == 0
  {
    seq(n, i => 0)
  }

  function Reverse(s: Bytes): (r: Bytes)
    ensures |r| == |s| && forall i :: 0 <= i < |s| ==> r[i] == s[|s| - 1 - i]
  {
    seq(|s|, i requires 0 <= i < |s| => s[|s| - 1 - i])
  }

  // ---------- numbers as bytes ----------

  function BigEndian(x: nat): (r: Bytes)
    requires x < U32
    ensures |r| == 4
  {
    [(x / 0x100_0000) as Byte, (x / 0x1_0000 % 0x100) as Byte, (x / 0x100 % 0x100) as Byte, (x % 0x100) as Byte]
  }

  function FromBigEndian(b: Bytes): (x: nat)
    requires |b| == 4
    ensures x < U32
  {
    ((b[0] as nat * 0x100 + b[1] as nat) * 0x100 + b[2] as nat) * 0x100 + b[3] as nat
  }

  lemma BigEndianRoundTrip(x: nat)
    requires x < U32
    ensures FromBigEndian(BigEndian(x)) == x
  {
    assert x / 0x100 == x / 0x1_0000 * 0x100 + x / 0x100 % 0x100;
    assert x / 0x1_0000 == x / 0x100_0000 * 0x100 + x / 0x1_0000 % 0x100;
  }

  /** The most significant byte comes first. */
  lemma BigEndianBytes(x: nat)
    requires x < U32
    ensures
      var b := BigEndian(x);
      x == b[0] as nat * 0x100_0000 + b[1] as nat * 0x1_0000 + b[2] as nat * 0x100 + b[3] as nat
  {
    BigEndianRoundTrip(x);
  }

  // ---------- the signed state ----------

  function Pow2(k: nat): (r: nat)
    ensures r > 0
  {
    if k == 0 then 1 else 2 * Pow2(k - 1)
  }

  /** The exclusive or of the k low bits. */
  function XorBits(a: nat, b: nat, k: nat): (r: nat)
    ensures r < Pow2(k)
  {
    if k == 0 then 0 else 2 * XorBits(a / 2, b / 2, k - 1) + (if a % 2 == b % 2 then 0 else 1)
  }

  lemma {:induction false} XorBitsTwice(a: nat, b: nat, k: nat)
    requires b < Pow2(k)
    ensures XorBits(a, XorBits(a, b, k), k) == b
    decreases k
  {
    if k != 0 {
      XorBitsTwice(a / 2, b / 2, k - 1);
      assert XorBits(a, b, k) / 2 == XorBits(a / 2, b / 2, k - 1);
    }
  }

  lemma ByteIsPow2()
    ensures Pow2(8) == 256
  {
    assert Pow2(4) == 16;
  }

  function Xor(a: Byte, b: Byte): Byte {
    ByteIsPow2();
    XorBits(a as nat, b as nat, 8) as Byte
  }

  lemma XorTwice(a: Byte, b: Byte)
    ensures Xor(a, Xor(a, b)) == b
  {
    ByteIsPow2();
    XorBitsTwice(a as nat, b as nat, 8);
  }

  lemma HalfThenDivide(x: nat, p: nat)
    requires p > 0
    ensures x / (2 * p) == x / 2 / p
  {
    var q, r := x / 2 / p, x / 2 % p;
    assert x / 2 == q * p + r;
    var rest := x - q * (2 * p);
    assert x == 2 * (x / 2) + x % 2;
    assert rest == 2 * r + x % 2 by { assert q * (2 * p) == 2 * (q * p); }
    assert 0 <= rest < 2 * p;
    DivideExactly(x, 2 * p, q, rest);
  }

  lemma DivideExactly(x: nat, d: nat, q: nat, r: nat)
    requires d > 0 && x == q * d + r && r < d
    ensures x / d == q
  {
    var e := x / d - q;
    assert x == (x / d) * d + x % d;
    assert e * d == r - x % d by { assert (x / d) * d - q * d == e * d; }
    assert e >= 1 ==> e * d >= d;
    assert e <= -1 ==> e * d + d <= 0;
  }

  /** Bit i of a number. */
  function Bit(x: nat, i: nat): (r: nat)
    ensures r == 0 || r == 1
  {
    x / Pow2(i) % 2
  }

  lemma BitOfHalf(x: nat, i: nat)
    requires i > 0
    ensures Bit(x, i) == Bit(x / 2, i - 1)
  {
    HalfThenDivide(x, Pow2(i - 1));
  }

  lemma {:induction false} XorBitsBit(a: nat, b: nat, k: nat, i: nat)
    requires i < k
    ensures Bit(XorBits(a, b, k), i) == 0 <==> Bit(a, i) == Bit(b, i)
    decreases k
  {
    hide Bit;
    if i == 0 {
      assert Bit(a, 0) == a % 2 && Bit(b, 0) == b % 2 && Bit(XorBits(a, b, k), 0) == XorBits(a, b, k) % 2 by { BitZero(); }
    } else {
      BitOfHalf(a, i);
      BitOfHalf(b, i);
      BitOfHalf(XorBits(a, b, k), i);
      assert XorBits(a, b, k) / 2 == XorBits(a / 2, b / 2, k - 1);
      XorBitsBit(a / 2, b / 2, k - 1, i - 1);
    }
  }

  lemma BitZero()
    ensures forall x: nat {:trigger Bit(x, 0)} :: Bit(x, 0) == x % 2
  {
    assert Pow2(0) == 1;
  }

  /** What makes it the exclusive or: a bit of it is 0 exactly when the two bits are equal. */
  lemma XorBit(a: Byte, b: Byte, i: nat)
    requires i < 8
    ensures Bit(Xor(a, b) as nat, i) == 0 <==> Bit(a as nat, i) == Bit(b as nat, i)
  {
    ByteIsPow2();
    XorBitsBit(a as nat, b as nat, 8, i);
  }

  lemma {:induction false} SameBits(a: nat, b: nat, k: nat)
    requires a < Pow2(k) && b < Pow2(k) && forall i: nat :: i < k ==> Bit(a, i) == Bit(b, i)
    ensures a == b
    decreases k
  {
    if k != 0 {
      BitZero();
      assert Bit(a, 0) == Bit(b, 0);
      forall i: nat | i < k - 1 ensures Bit(a / 2, i) == Bit(b / 2, i) {
        BitOfHalf(a, i + 1);
        BitOfHalf(b, i + 1);
        assert Bit(a, i + 1) == Bit(b, i + 1);
      }
      SameBits(a / 2, b / 2, k - 1);
    }
  }

  lemma XorZero(a: Byte)
    ensures Xor(a, 0) == a && Xor(0, a) == a
  {
    hide Xor, Bit;
    var x, x', n: nat := Xor(a, 0) as nat, Xor(0, a) as nat, a as nat;
    forall i: nat | i < 8 ensures Bit(x, i) == Bit(n, i) {
      XorBit(a, 0, i);
      BitOfZero(i);
    }
    forall i: nat | i < 8 ensures Bit(x', i) == Bit(n, i) {
      XorBit(0, a, i);
      BitOfZero(i);
    }
    ByteIsPow2();
    SameBits(x, n, 8);
    SameBits(x', n, 8);
  }

  lemma BitOfZero(i: nat)
    ensures Bit(0, i) == 0
  {
    DivideExactly(0, Pow2(i), 0, 0);
  }

  /** Byte i of the state: the linked hash, the digest xor-ed in at 16, and the number at 48. */
  function StateByte(linked: Bytes, digest: Bytes, seqNum: nat, i: nat): Byte
    requires |linked| == 32 && |digest| == 32 && seqNum < U32 && i < 52
  {
    if i < 16 then linked[i]
    else if i < 32 then Xor(linked[i], digest[i - 16])
    else if i < 48 then Xor(0, digest[i - 16])
    else BigEndian(seqNum)[i - 48]
  }

  function StateBytes(linked: Bytes, digest: Bytes, seqNum: nat): (r: Bytes)
    requires |linked| == 32 && |digest| == 32 && seqNum < U32
    ensures |r| == 52
  {
    seq(52, i requires 0 <= i < 52 => StateByte(linked, digest, seqNum, i))
  }

  method StateInternal(linked: Bytes, digest: Bytes, seqNum: nat) returns (state: array<Byte>)
    requires |linked| == 32 && |digest| == 32 && seqNum < U32
    ensures fresh(state) && state[..] == StateBytes(linked, digest, seqNum)
  {
    state := new Byte[52](_ => 0);
    for i := 0 to 32
      invariant forall k :: 0 <= k < i ==> state[k] == linked[k]
      invariant forall k :: i <= k < 52 ==> state[k] == 0
    {
      state[i] := linked[i];
    }
    for i := 0 to 32
      invariant forall k :: 0 <= k < 16 + i ==> state[k] == StateByte(linked, digest, seqNum, k)
      invariant forall k :: 16 + i <= k < 52 ==> state[k] == if k < 32 then linked[k] else 0
    {
      state[16 + i] := Xor(state[16 + i], digest[i]);
    }
    var number := BigEndian(seqNum);
    for i := 0 to 4
      invariant forall k :: 0 <= k < 48 + i ==> state[k] == StateByte(linked, digest, seqNum, k)
    {
      state[48 + i] := number[i];
    }
  }

  /** Without a digest the state is the linked hash and the number, with zeros between them; without a linked hash
      it is the digest and the number, after as many zeros. */
  lemma StateOfOne(bytes: Bytes, seqNum: nat)
    requires |bytes| == 32 && seqNum < U32
    ensures StateBytes(bytes, Zeros(32), seqNum) == bytes + Zeros(16) + BigEndian(seqNum)
    ensures StateBytes(Zeros(32), bytes, seqNum) == Zeros(16) + bytes + BigEndian(seqNum)
  {
    hide Xor, BigEndian;
    var a, b := StateBytes(bytes, Zeros(32), seqNum), StateBytes(Zeros(32), bytes, seqNum);
    forall x: Byte ensures Xor(x, 0) == x && Xor(0, x) == x {
      XorZero(x);
    }
    forall i | 0 <= i < 52
      ensures a[i] == (bytes + Zeros(16) + BigEndian(seqNum))[i] && b[i] == (Zeros(16) + bytes + BigEndian(seqNum))[i]
    {
      assert a[i] == StateByte(bytes, Zeros(32), seqNum, i) && b[i] == StateByte(Zeros(32), bytes, seqNum, i);
    }
  }

  /** What two states must agree in to be equal: the number, the first half of the linked hash, the second
      half of the digest, and the exclusive or of the two other halves. */
  ghost predicate SameState(linked: Bytes, digest: Bytes, seqNum: nat, linked': Bytes, digest': Bytes, seqNum': nat)
    requires |linked| == |linked'| == |digest| == |digest'| == 32
  {
    && seqNum == seqNum'
    && linked[..16] == linked'[..16]
    && digest[16..] == digest'[16..]
    && forall i :: 0 <= i < 16 ==> Xor(linked[16 + i], digest[i]) == Xor(linked'[16 + i], digest'[i])
  }

  /** Exactly when two multicasts have the same 52 bytes to sign. */
  lemma StateBytesEqualIff(linked: Bytes, digest: Bytes, seqNum: nat, linked': Bytes, digest': Bytes, seqNum': nat)
    requires |linked| == |linked'| == |digest| == |digest'| == 32 && seqNum < U32 && seqNum' < U32
    ensures
      StateBytes(linked, digest, seqNum) == StateBytes(linked', digest', seqNum') <==>
      SameState(linked, digest, seqNum, linked', digest', seqNum')
  {
    hide Xor, BigEndian;
    var a, b := StateBytes(linked, digest, seqNum), StateBytes(linked', digest', seqNum');
    if a == b {
      EqualBytesAgree(linked, digest, seqNum, linked', digest', seqNum');
    }
    if SameState(linked, digest, seqNum, linked', digest', seqNum') {
      forall i | 0 <= i < 52 ensures a[i] == b[i] {
        if i < 16 {
          assert linked[..16][i] == linked'[..16][i];
        } else if i < 32 {
          assert Xor(linked[16 + (i - 16)], digest[i - 16]) == Xor(linked'[16 + (i - 16)], digest'[i - 16]);
        } else if i < 48 {
          assert digest[16..][i - 32] == digest'[16..][i - 32];
        }
      }
    }
  }

  lemma EqualBytesAgree(linked: Bytes, digest: Bytes, seqNum: nat, linked': Bytes, digest': Bytes, seqNum': nat)
    requires |linked| == |linked'| == |digest| == |digest'| == 32 && seqNum < U32 && seqNum' < U32
    requires StateBytes(linked, digest, seqNum) == StateBytes(linked', digest', seqNum')
    ensures SameState(linked, digest, seqNum, linked', digest', seqNum')
  {
    hide Xor, BigEndian;
    var a, b := StateBytes(linked, digest, seqNum), StateBytes(linked', digest', seqNum');
    forall i | 0 <= i < 16 ensures linked[i] == linked'[i] {
      assert a[i] == b[i];
    }
    forall i | 16 <= i < 32 ensures digest[i] == digest'[i] {
      assert a[16 + i] == b[16 + i];
      XorTwice(0, digest[i]);
      XorTwice(0, digest'[i]);
    }
    forall i | 0 <= i < 16 ensures Xor(linked[16 + i], digest[i]) == Xor(linked'[16 + i], digest'[i]) {
      assert a[16 + i] == b[16 + i];
    }
    forall i | 0 <= i < 4 ensures BigEndian(seqNum)[i] == BigEndian(seqNum')[i] {
      assert a[48 + i] == b[48 + i];
    }
    assert BigEndian(seqNum) == BigEndian(seqNum');
    BigEndianRoundTrip(seqNum);
    BigEndianRoundTrip(seqNum');
  }

  /** Of two multicasts with the same state, the linked hashes are equal exactly when the digests are. */
  lemma SameStateLinkIffDigest(
      linked: Bytes, digest: Bytes, seqNum: nat, linked': Bytes, digest': Bytes, seqNum': nat)
    requires |linked| == |linked'| == |digest| == |digest'| == 32 && seqNum < U32 && seqNum' < U32
    requires StateBytes(linked, digest, seqNum) == StateBytes(linked', digest', seqNum')
    ensures linked == linked' <==> digest == digest'
  {
    hide Xor, StateBytes;
    StateBytesEqualIff(linked, digest, seqNum, linked', digest', seqNum');
    forall i | 0 <= i < 16 ensures linked[16..][i] == linked'[16..][i] <==> digest[..16][i] == digest'[..16][i] {
      assert Xor(linked[16 + i], digest[i]) == Xor(linked'[16 + i], digest'[i]);
      XorCancels(linked[16 + i], digest[i], linked'[16 + i], digest'[i]);
    }
    assert linked[16..] == linked'[16..] <==> digest[..16] == digest'[..16];
    assert linked == linked[..16] + linked[16..] && linked' == linked'[..16] + linked'[16..];
    assert digest == digest[..16] + digest[16..] && digest' == digest'[..16] + digest'[16..];
  }

  lemma XorCancels(a: Byte, b: Byte, a': Byte, b': Byte)
    requires Xor(a, b) == Xor(a', b')
    ensures a == a' <==> b == b'
  {
    hide Xor;
    XorTwice(a, b);
    XorTwice(a', b');
    XorCommutes(a, b);
    XorCommutes(a', b');
    XorTwice(b, a);
    XorTwice(b', a');
  }

  /** So for a fixed linked hash, the state determines the digest and the number. */
  lemma StateInjective(linked: Bytes, digest: Bytes, seqNum: nat, digest': Bytes, seqNum': nat)
    requires |linked| == 32 && |digest| == 32 && seqNum < U32 && |digest'| == 32 && seqNum' < U32
    requires StateBytes(linked, digest, seqNum) == StateBytes(linked, digest', seqNum')
    ensures digest == digest' && seqNum == seqNum'
  {
    hide StateBytes;
    StateBytesEqualIff(linked, digest, seqNum, linked, digest', seqNum');
    SameStateLinkIffDigest(linked, digest, seqNum, linked, digest', seqNum');
  }

  /** And across linked hashes it does not: the xor overlaps the second half of the hash, so a
      difference there can be made up for by the digest. */
  lemma StateNotInjective()
    returns (linked: Bytes, digest: Bytes, linked': Bytes, digest': Bytes)
    ensures |linked| == 32 && |digest| == 32 && |linked'| == 32 && |digest'| == 32
    ensures linked != linked' && digest != digest'
    ensures StateBytes(linked, digest, 1) == StateBytes(linked', digest', 1)
  {
    hide Xor, StateBytes;
    linked, digest := Zeros(32), Zeros(32)[0 := 1];
    linked', digest' := Zeros(32)[16 := 1], Zeros(32);
    assert linked'[16] != linked[16] && digest'[0] != digest[0];
    XorCommutes(1, 0);
    StateBytesEqualIff(linked, digest, 1, linked', digest', 1);
  }

  lemma XorCommutes(a: Byte, b: Byte)
    ensures Xor(a, b) == Xor(b, a)
  {
    hide XorBits;
    XorSwaps(a as nat, b as nat, 8);
  }

  lemma {:induction false} XorSwaps(a: nat, b: nat, k: nat)
    ensures XorBits(a, b, k) == XorBits(b, a, k)
    decreases k
  {
    if k != 0 {
      XorSwaps(a / 2, b / 2, k - 1);
    }
  }

  // ---------- the header ----------

  function Serialize<M>(c: Codec<M>, m: M): (buf: Bytes)
    requires |c.digest(m)| == 32
    ensures |buf| >= HEADER
  {
    Zeros(20) + c.digest(m)[..8] + Zeros(40) + c.digest(m) + c.encode(m)
  }

  datatype Receiver = HalfSipReceiver(index: ReplicaIndex) | K256Receiver

  function Codes(buf: Bytes): seq<Bytes>
    requires |buf| >= 20
  {
    [buf[4..8], buf[8..12], buf[12..16], buf[16..20]]
  }

  /** None where the source panics: short packets, unparsable signatures, undecodable payloads. */
  function Deserialize<M>(c: Codec<M>, r: Receiver, buf: Bytes): Option<OrderedMulticast<M>> {
    if |buf| < HEADER || c.decode(buf[HEADER..]).None? then None
    else
      var seqNum := FromBigEndian(buf[0..4]);
      var inner := c.decode(buf[HEADER..]).value;
      match r
      case HalfSipReceiver(_) => Some(OrderedMulticast(seqNum, HalfSipHash(Codes(buf)), Zeros(32), inner))
      case K256Receiver =>
        var signature := Reverse(buf[4..68]);
        if buf[4..68] == Zeros(64) then Some(OrderedMulticast(seqNum, K256Linked, buf[68..100], inner))
        else if !c.parses(signature) then None
        else Some(OrderedMulticast(seqNum, K256(signature), buf[68..100], inner))
  }

  /** What the receiver checks a signature against. */
  function StateOf<M>(c: Codec<M>, m: OrderedMulticast<M>): Bytes
    requires |m.linked| == 32 && |c.digest(m.inner)| == 32 && m.seqNum < U32
  {
    StateBytes(m.linked, c.digest(m.inner), m.seqNum)
  }
}
