/** From the requests a sender hands to the sequencer to the log of a Neo replica. */
module OrderedDelivery {
  // Packets of one stream may be lost, repeated and reordered on the way, the delegate may hold one back, and
  // query answers may fill gaps: the log is a gap-free stretch of the original requests, as long as possible.

  import opened Blocks
  import opened Multicast
  import opened Wire
  import opened Sequencing
  import opened SequencerStream
  import opened Neo
  import opened NeoRuns
  import opened NeoLog
  import Delegates

  /** The message is number i of the stream, with its sequence number; its signature does not matter. */
  ghost predicate IsMessage(ms: seq<Request>, m: Message, i: nat) {
    i < |ms| && m.seqNum == (i + 1) % U32 && m.inner == ms[i]
  }

  ghost predicate OfStream(ms: seq<Request>, m: Message) {
    exists i: nat :: IsMessage(ms, m, i)
  }

  ghost predicate AllOfStream(ms: seq<Request>, taken: seq<Message>) {
    forall m :: m in taken ==> OfStream(ms, m)
  }

  // ---------- from packets to the delegate ----------

  ghost predicate SignsOk(c: Codec<Request>, sign: Bytes -> Bytes) {
    forall b :: |sign(b)| == 64 && c.parses(sign(b))
  }

  /** The message is what a receiver of signed packets reads from packet i, with `tail` left in its buffer. */
  ghost predicate SignedRead(
      c: Codec<Request>, ms: seq<Request>, sign: Bytes -> Bytes, i: nat, tail: Bytes, m: Message)
    requires CodecOk(c) && SignsOk(c, sign)
  {
    i < |ms| &&
    var p := ProcessAt(c, K256_START, ms, i);
    && p.crypto.K256Process? && |p.crypto.linked| == 32 && |Apply(p, sign).packets| == 1
    && Deserialize(c, K256Receiver, Apply(p, sign).packets[0] + tail) == Some(m)
  }

  lemma SignedReadIsMessage(
      c: Codec<Request>, ms: seq<Request>, sign: Bytes -> Bytes, i: nat, tail: Bytes, m: Message)
    requires CodecOk(c) && SignsOk(c, sign) && SignedRead(c, ms, sign, i, tail, m)
    ensures IsMessage(ms, m, i) && m.signature.K256?
  {
    hide ProcessAt, Apply, Deserialize, CodecOk;
    SignedStreamRoundTrip(c, ms, i, sign, tail);
  }

  /** The message is what replica r reads from packet k of the fan-out of message i, and does not drop. */
  ghost predicate GroupRead(
      c: Codec<Request>, n: nat, ms: seq<Request>, sign: Bytes -> Bytes, r: ReplicaIndex, i: nat, k: nat, tail: Bytes,
      m: Message)
    requires CodecOk(c)
  {
    i < |ms| && r < n <= 252 &&
    var p := ProcessAt(c, SequencerState(0, HalfSipCrypto(n)), ms, i);
    && p.crypto.HalfSipProcess? && k < |Apply(p, sign).packets|
    && Deserialize(c, HalfSipReceiver(r), Apply(p, sign).packets[k] + tail) == Some(m)
    && Delegates.Fits(Delegates.Nop(r), m)
    && Delegates.Handle(Delegates.Nop(r), 0, m).1.Some?
  }

  /** Then the packet is that of the replica's own group. */
  lemma GroupReadIsMessage(
      c: Codec<Request>, n: nat, ms: seq<Request>, sign: Bytes -> Bytes, r: ReplicaIndex, i: nat, k: nat, tail: Bytes,
      m: Message)
    requires CodecOk(c) && GroupRead(c, n, ms, sign, r, i, k, tail, m)
    ensures IsMessage(ms, m, i) && m.signature.HalfSipHash? && k == r / 4
  {
    hide ProcessAt, Apply, Deserialize, CodecOk, Accepts, CodesFor;
    FanOutStreamRoundTrip(c, n, ms, i, r, sign, tail);
  }

  /** The delegate passes on messages of the stream only. */
  lemma {:induction false} PassedIsOfStream(ms: seq<Request>, events: seq<Delegates.Event<Request>>)
    requires Delegates.Signed(events)
    requires forall d :: d in Delegates.TakenOf(events) ==> OfStream(ms, d.message)
    ensures
      var (slot, passed) := Delegates.Run(events);
      && (forall d :: d in passed ==> OfStream(ms, d.message))
      && (slot.saved.Some? ==> OfStream(ms, slot.saved.value.message))
    decreases |events|
  {
    hide OfStream;
    if events != [] {
      var last := |events| - 1;
      PassedIsOfStream(ms, events[..last]);
      var slot := Delegates.Run(events[..last]).0;
      if slot.saved.Some? {
        UncheckedIsOfStream(ms, slot.saved.value);
      }
      if events[last].Takes? {
        var d := Delegates.Delivery(events[last].remote, events[last].message);
        assert d in Delegates.TakenOf(events);
      }
    }
  }

  lemma UncheckedIsOfStream(ms: seq<Request>, d: Delegates.Delivery<Request>)
    requires OfStream(ms, d.message)
    ensures OfStream(ms, Delegates.Unchecked(d).message)
  {
    var i: nat :| IsMessage(ms, d.message, i);
    assert IsMessage(ms, Delegates.Unchecked(d).message, i);
  }

  // ---------- the log ----------

  lemma HandleOffset(s: State, e: Event)
    requires WellFormed(s) && (e.OwnConfirmArrives? ==> e.own in s.sentConfirms)
    ensures s.seqNumOffset.Some? ==> Handle(s, e).seqNumOffset == s.seqNumOffset
    ensures
      s.seqNumOffset.None? && Handle(s, e).seqNumOffset.Some? ==>
        exists m :: m in TakenBy(s, e) && m.seqNum == Handle(s, e).seqNumOffset.value
  {
    hide WellFormed, HandleRequest, HandleConfirm, HandleQuery, OnPace, HandleLoopback, Take;
    if TakenBy(s, e) == [] {
      QuietLog(s, e);
    } else {
      var m := if e.RequestArrives? then e.message else e.queryOk.request;
      assert m in TakenBy(s, e);
      RequestTakes(s, m);
    }
  }

  ghost predicate IsOffset(taken: seq<Message>, offset: nat) {
    exists m :: m in taken && m.seqNum == offset
  }

  /** A replica counts from the sequence number of a message it has taken. */
  lemma {:induction false} OffsetIsTaken(
      n: nat, f: nat, index: ReplicaIndex, confirm: bool, states: seq<State>, events: seq<Event>)
    requires f < n && index < n && IsRun(Init(n, f, index, confirm), states, events)
    ensures
      var offset := states[|events|].seqNumOffset;
      offset.Some? ==> IsOffset(Taken(states, events), offset.value)
    decreases |events|
  {
    hide Handle;
    if events != [] {
      var last := |events| - 1;
      RunWithoutLast(Init(n, f, index, confirm), states, events);
      OffsetIsTaken(n, f, index, confirm, states[..last + 1], events[..last]);
      HandleOffset(states[last], events[last]);
      assert forall m :: m in Taken(states[..last + 1], events[..last]) ==> m in Taken(states, events);
    }
  }

  /** Counted from a number of the stream, the operation number of a message gives its position. */
  lemma PositionOf(ms: seq<Request>, m: Message, offset: nat, j: nat)
    requires OfStream(ms, m) && |ms| < U32 && 1 <= offset <= |ms| && j <= |ms| + 1 - offset
    requires OpNum(m.seqNum, offset) == j + 1
    ensures IsMessage(ms, m, offset - 1 + j)
  {
    var i: nat :| IsMessage(ms, m, i);
    assert m.seqNum == i + 1;
  }

  ghost predicate Received(taken: seq<Message>, ms: seq<Request>, i: nat) {
    exists m :: m in taken && IsMessage(ms, m, i)
  }

  /** The log is the stretch of the stream that starts at a request that was taken, with sequence number
      `offset`, and ends before the next one that was not. */
  ghost predicate IsStretch(log: seq<Message>, taken: seq<Message>, ms: seq<Request>, offset: nat) {
    && 1 <= offset && offset - 1 + |log| <= |ms|
    && Inner(log) == ms[offset - 1..offset - 1 + |log|]
    && Received(taken, ms, offset - 1) && !Received(taken, ms, offset - 1 + |log|)
  }

  /** For every stream of fewer than 2^32 requests and every run of a replica whose messages are all of this
      stream: the log is the stretch of the original requests that starts at one of those received, its
      first, and ends before the next one that was not received. */
  lemma LogIsStretchOfStream(
      n: nat, f: nat, index: ReplicaIndex, confirm: bool, states: seq<State>, events: seq<Event>, offset: nat,
      ms: seq<Request>)
    requires f < n && index < n && IsRun(Init(n, f, index, confirm), states, events)
    requires states[|events|].seqNumOffset == Some(offset) && AllOfStream(ms, Taken(states, events)) && |ms| < U32
    ensures IsStretch(states[|events|].requests, Taken(states, events), ms, offset)
  {
    hide *;
    assert |states| == |events| + 1 by { RunLength(Init(n, f, index, confirm), states, events); }
    LogIsLongestGapFreePrefix(n, f, index, confirm, states, events, offset);
    OffsetIsTaken(n, f, index, confirm, states, events);
    GapFreeIsStretch(states[|events|].requests, Taken(states, events), offset, ms);
  }

  lemma GapFreeIsStretch(log: seq<Message>, taken: seq<Message>, offset: nat, ms: seq<Request>)
    requires AllOfStream(ms, taken) && |ms| < U32 && IsOffset(taken, offset)
    requires forall j: nat {:trigger InLog(log, taken, offset, j)} :: j < |log| ==> InLog(log, taken, offset, j)
    requires !Delivered(taken, offset, |log| + 1)
    ensures IsStretch(log, taken, ms, offset)
  {
    hide OpNum, OfStream;
    var m0 :| m0 in taken && m0.seqNum == offset;
    var first := FirstOfStream(ms, m0);
    var past := |ms| + 1 - offset;
    if past < |log| {
      assert InLog(log, taken, offset, past);
      PositionOf(ms, log[past], offset, past);
      assert false;
    }
    forall j: nat | j < |log| ensures log[j].inner == ms[first + j] {
      assert InLog(log, taken, offset, j);
      PositionOf(ms, log[j], offset, j);
    }
    if Received(taken, ms, first + |log|) {
      ReceivedIsDelivered(taken, ms, first, |log|);
      assert false;
    }
  }

  lemma RunLength(start: State, states: seq<State>, events: seq<Event>)
    requires IsRun(start, states, events)
    ensures |states| == |events| + 1
  {
  }

  lemma FirstOfStream(ms: seq<Request>, m: Message) returns (i: nat)
    requires OfStream(ms, m) && |ms| < U32
    ensures IsMessage(ms, m, i) && m.seqNum == i + 1
  {
    i :| IsMessage(ms, m, i);
  }

  lemma ReceivedIsDelivered(taken: seq<Message>, ms: seq<Request>, first: nat, k: nat)
    requires Received(taken, ms, first + k) && |ms| < U32
    ensures Delivered(taken, first + 1, k + 1)
  {
    var m :| m in taken && IsMessage(ms, m, first + k);
    assert OpNum(m.seqNum, first + 1) == k + 1;
  }

  ghost predicate AllReceived(taken: seq<Message>, ms: seq<Request>) {
    forall i: nat :: i < |ms| ==> Received(taken, ms, i)
  }

  lemma WholeStretch(log: seq<Message>, taken: seq<Message>, ms: seq<Request>)
    requires IsStretch(log, taken, ms, 1) && AllReceived(taken, ms)
    ensures Inner(log) == ms
  {
    assert ms[0..|ms|] == ms;
  }

  /** If the first message of the stream is the first one taken and every one has been taken, in whatever order
      after it, the log is the stream. */
  lemma AllReceivedIsLogged(
      n: nat, f: nat, index: ReplicaIndex, confirm: bool, states: seq<State>, events: seq<Event>, ms: seq<Request>)
    requires f < n && index < n && IsRun(Init(n, f, index, confirm), states, events)
    requires states[|events|].seqNumOffset == Some(1) && AllOfStream(ms, Taken(states, events)) && |ms| < U32
    requires AllReceived(Taken(states, events), ms)
    ensures Inner(states[|events|].requests) == ms
  {
    hide IsRun, IsStretch, AllReceived;
    assert |states| == |events| + 1 by { RunLength(Init(n, f, index, confirm), states, events); }
    LogIsStretchOfStream(n, f, index, confirm, states, events, 1, ms);
    WholeStretch(states[|events|].requests, Taken(states, events), ms);
  }

  // ---------- from sender to log ----------

  type Arrivals = seq<Delegates.Event<Request>>

  /** Everything a delegate takes in has been read from a signed packet of the stream. */
  ghost predicate ReadFromStream(c: Codec<Request>, ms: seq<Request>, sign: Bytes -> Bytes, arrivals: Arrivals)
    requires CodecOk(c) && SignsOk(c, sign)
  {
    && Delegates.Signed(arrivals)
    && forall d :: d in Delegates.TakenOf(arrivals) ==> exists i, tail :: SignedRead(c, ms, sign, i, tail, d.message)
  }

  ghost predicate SamePayload(m: Message, m': Message) {
    m.seqNum == m'.seqNum && m.inner == m'.inner
  }

  ghost predicate PassedBy(a: Arrivals, d: Delegates.Delivery<Request>, m: Message) {
    Delegates.Signed(a) && d in Delegates.Run(a).1 && SamePayload(d.message, m)
  }

  /** One of the delegates has passed on this request under this number. */
  ghost predicate PassedOn(delegates: seq<Arrivals>, m: Message) {
    exists a, d :: a in delegates && PassedBy(a, d, m)
  }

  lemma PassedOnIsOfStream(
      c: Codec<Request>, ms: seq<Request>, sign: Bytes -> Bytes, delegates: seq<Arrivals>, m: Message)
    requires CodecOk(c) && SignsOk(c, sign) && forall a :: a in delegates ==> ReadFromStream(c, ms, sign, a)
    requires PassedOn(delegates, m)
    ensures OfStream(ms, m)
  {
    hide SignedRead, OfStream, SamePayload, CodecOk, SignsOk;
    var a, d :| a in delegates && PassedBy(a, d, m);
    forall e | e in Delegates.TakenOf(a) ensures OfStream(ms, e.message) {
      var i, tail :| SignedRead(c, ms, sign, i, tail, e.message);
      SignedReadIsMessage(c, ms, sign, i, tail, e.message);
      NumberIsOfStream(ms, e.message, e.message, i);
    }
    PassedIsOfStream(ms, a);
    SamePayloadOfStream(ms, d.message, m);
  }

  lemma NumberIsOfStream(ms: seq<Request>, m: Message, m': Message, i: nat)
    requires IsMessage(ms, m, i) && SamePayload(m, m')
    ensures OfStream(ms, m')
  {
    assert IsMessage(ms, m', i);
  }

  lemma SamePayloadOfStream(ms: seq<Request>, m: Message, m': Message)
    requires OfStream(ms, m) && SamePayload(m, m')
    ensures OfStream(ms, m')
  {
    var i: nat :| IsMessage(ms, m, i);
    NumberIsOfStream(ms, m, m', i);
  }

  /** Signed packets, end to end. What the delegates of any replicas take in was read from the packets that the
      sequencer makes of `ms`; every message a replica takes, from its own delegate or in a query answer, is one
      that a delegate has passed on. Then its log is a stretch of `ms`, and all of it if the first request was
      the first one taken and every other one was taken. */
  lemma SignedStreamIsLogged(
      c: Codec<Request>, ms: seq<Request>, sign: Bytes -> Bytes, delegates: seq<Arrivals>,
      n: nat, f: nat, index: ReplicaIndex, confirm: bool, states: seq<State>, events: seq<Event>, offset: nat)
    requires |ms| < U32 && CodecOk(c) && SignsOk(c, sign)
    requires forall a :: a in delegates ==> ReadFromStream(c, ms, sign, a)
    requires f < n && index < n && IsRun(Init(n, f, index, confirm), states, events)
    requires states[|events|].seqNumOffset == Some(offset)
    requires forall m :: m in Taken(states, events) ==> PassedOn(delegates, m)
    ensures
      var log, taken := states[|events|].requests, Taken(states, events);
      IsStretch(log, taken, ms, offset) && (offset == 1 && AllReceived(taken, ms) ==> Inner(log) == ms)
  {
    hide IsRun, PassedOn, OfStream, IsStretch, Taken, ReadFromStream, CodecOk, SignsOk, AllReceived;
    assert |states| == |events| + 1 by { RunLength(Init(n, f, index, confirm), states, events); }
    var log, taken := states[|events|].requests, Taken(states, events);
    forall m | m in taken ensures OfStream(ms, m) {
      PassedOnIsOfStream(c, ms, sign, delegates, m);
    }
    LogIsStretchOfStream(n, f, index, confirm, states, events, offset, ms);
    if offset == 1 && AllReceived(taken, ms) {
      WholeStretch(log, taken, ms);
    }
  }

  /** Some replica has read this request under this number from a packet of the fan-out that it does not drop. */
  ghost predicate GroupPassedOn(c: Codec<Request>, n: nat, ms: seq<Request>, sign: Bytes -> Bytes, m: Message)
    requires CodecOk(c)
  {
    exists r, i, k, tail, m' :: GroupRead(c, n, ms, sign, r, i, k, tail, m') && SamePayload(m', m)
  }

  /** The same for packets with codes, in groups of four replicas. */
  lemma GroupStreamIsLogged(
      c: Codec<Request>, ms: seq<Request>, sign: Bytes -> Bytes,
      n: nat, f: nat, index: ReplicaIndex, confirm: bool, states: seq<State>, events: seq<Event>, offset: nat)
    requires CodecOk(c) && |ms| < U32
    requires f < n && index < n && IsRun(Init(n, f, index, confirm), states, events)
    requires states[|events|].seqNumOffset == Some(offset)
    requires forall m :: m in Taken(states, events) ==> GroupPassedOn(c, n, ms, sign, m)
    ensures
      var log, taken := states[|events|].requests, Taken(states, events);
      IsStretch(log, taken, ms, offset) && (offset == 1 && AllReceived(taken, ms) ==> Inner(log) == ms)
  {
    hide IsRun, GroupRead, OfStream, IsStretch, Taken, CodecOk, AllReceived, SamePayload;
    assert |states| == |events| + 1 by { RunLength(Init(n, f, index, confirm), states, events); }
    var log, taken := states[|events|].requests, Taken(states, events);
    forall m | m in taken ensures OfStream(ms, m) {
      var r, i, k, tail, m' :| GroupRead(c, n, ms, sign, r, i, k, tail, m') && SamePayload(m', m);
      GroupReadIsMessage(c, n, ms, sign, r, i, k, tail, m');
      NumberIsOfStream(ms, m', m, i);
    }
    LogIsStretchOfStream(n, f, index, confirm, states, events, offset, ms);
    if offset == 1 && AllReceived(taken, ms) {
      WholeStretch(log, taken, ms);
    }
  }
}
