/** Runs of n correct Neo replicas in confirm mode whose logs agree, and the invariant that every run
    keeps.

    Each confirm reaches each replica at most once, in any order relative to other confirms and to
    requests. */
module NeoConfirmNet {
  import opened Blocks
  import opened Quorums
  import opened Neo
  import opened NeoRuns
  import opened NeoBuffers

  /** The replicas, the confirms of others each has received, and its own that have come back. */
  datatype Net = Net(
    states: map<ReplicaIndex, State>,
    received: map<ReplicaIndex, set<Confirm>>,
    back: map<ReplicaIndex, set<Confirm>>)

  ghost function SentByOthers(states: map<ReplicaIndex, State>, r: ReplicaIndex): set<Confirm> {
    set q, m | q in states && q != r && m in states[q].sentConfirms :: m
  }

  ghost predicate Hosts(net: Net, r: ReplicaIndex) {
    r in net.states && r in net.received && r in net.back
  }

  /** Each confirm arrives at most once; queries ask for an operation number, which starts at 1. */
  ghost predicate Enabled(net: Net, r: ReplicaIndex, e: Event)
    requires Hosts(net, r)
  {
    match e
    case ConfirmArrives(m) => m in SentByOthers(net.states, r) && m !in net.received[r]
    case OwnConfirmArrives(m) => m in net.states[r].sentConfirms && m !in net.back[r]
    case QueryArrives(q) => q.opNum > 0
    case _ => true
  }

  ghost predicate StepBy(net: Net, net': Net, r: ReplicaIndex, e: Event) {
    && Hosts(net, r) && WellFormed(net.states[r]) && net.states[r].status.Running? && Enabled(net, r, e)
    && net' == Net(net.states[r := Handle(net.states[r], e)],
                   net.received[r := net.received[r] + if e.ConfirmArrives? then {e.confirm} else {}],
                   net.back[r := net.back[r] + if e.OwnConfirmArrives? then {e.own} else {}])
  }

  /** Logs agree: they hold requests of one stream. */
  ghost predicate Agreeing(net: Net, stream: nat -> Request) {
    forall r :: r in net.states ==> Follows(net.states[r].requests, stream)
  }

  ghost predicate Next(net: Net, net': Net, stream: nat -> Request) {
    (exists r, e :: StepBy(net, net', r, e)) && Agreeing(net', stream)
  }

  ghost function InitNet(n: nat, f: nat): Net {
    Net(map r | r in Replicas(n) :: Init(n, f, r, true),
        map r | r in Replicas(n) :: {},
        map r | r in Replicas(n) :: {})
  }

  ghost predicate IsRun(n: nat, f: nat, stream: nat -> Request, run: seq<Net>) {
    && |run| > 0
    && run[0] == InitNet(n, f)
    && forall i :: 0 <= i < |run| - 1 ==> Next(run[i], run[i + 1], stream)
  }

  // ---------- a replica's own confirms ----------

  ghost function EndBefore(sent: seq<Confirm>, i: nat): nat
    requires i <= |sent|
  {
    if i == 0 then 0 else sent[i - 1].end
  }

  ghost predicate StartsAfter(sent: seq<Confirm>, index: ReplicaIndex, i: nat)
    requires i < |sent|
  {
    sent[i].replica == index && sent[i].start == EndBefore(sent, i) + 1 && sent[i].start <= sent[i].end
  }

  /** They cover 1, 2, … up to the local confirmation number without gap or overlap. */
  ghost predicate Contiguous(sent: seq<Confirm>, index: ReplicaIndex, local: nat) {
    && (forall i: nat :: i < |sent| ==> StartsAfter(sent, index, i))
    && local == EndBefore(sent, |sent|)
  }

  ghost predicate InFlight(sent: seq<Confirm>, back: set<Confirm>) {
    sent != [] && sent[|sent| - 1] !in back
  }

  /** At most the last one is in flight, and the own entry tells whether one is. */
  ghost predicate OwnOk(s: State, back: set<Confirm>) {
    && (forall m :: m in back ==> m in s.sentConfirms)
    && (forall i :: 0 <= i < |s.sentConfirms| - 1 ==> s.sentConfirms[i] in back)
    && s.index in s.remoteConfirmedNums
    && s.remoteConfirmedNums[s.index] ==
         if InFlight(s.sentConfirms, back) then s.sentConfirms[|s.sentConfirms| - 1].start - 1 else s.localConfirmedNum
  }

  ghost predicate Signs(sent: seq<Confirm>, stream: nat -> Request) {
    forall m :: m in sent ==> DigestOf(stream, m)
  }

  ghost predicate SenderOk(s: State, stream: nat -> Request) {
    Contiguous(s.sentConfirms, s.index, s.localConfirmedNum) && Signs(s.sentConfirms, stream)
  }

  ghost predicate ReceiverOk(s: State, sent: set<Confirm>, received: set<Confirm>, back: set<Confirm>, stream: nat -> Request) {
    && s.status.Running?
    && Sound(s, stream) && Receives(s, sent, received) && AllSettled(s) && OwnOk(s, back)
  }

  /** A replica is running, or stopped on too many requests out of order. */
  ghost predicate ReplicaOk(
      n: nat, f: nat, r: ReplicaIndex, s: State, sent: set<Confirm>, received: set<Confirm>, back: set<Confirm>,
      stream: nat -> Request)
  {
    && WellFormed(s) && s.confirm && s.n == n && s.f == f && s.index == r
    && SenderOk(s, stream)
    && (s.status == Panicked(TooManyReordered) || ReceiverOk(s, sent, received, back, stream))
  }

  ghost predicate Inv(n: nat, f: nat, stream: nat -> Request, net: Net) {
    && net.states.Keys == net.received.Keys == net.back.Keys == Replicas(n)
    && forall r :: r in net.states ==>
         ReplicaOk(n, f, r, net.states[r], SentByOthers(net.states, r), net.received[r], net.back[r], stream)
  }

  // ---------- what is in the net is well formed ----------

  lemma {:induction false} ContiguousOrder(sent: seq<Confirm>, index: ReplicaIndex, local: nat, i: nat, j: nat)
    requires Contiguous(sent, index, local) && i < j < |sent|
    ensures sent[i].end < sent[j].start
    decreases j
  {
    assert StartsAfter(sent, index, j) && StartsAfter(sent, index, j - 1);
    if i + 1 < j {
      ContiguousOrder(sent, index, local, i, j - 1);
    }
  }

  lemma ContiguousEnds(sent: seq<Confirm>, index: ReplicaIndex, local: nat, m: Confirm)
    requires Contiguous(sent, index, local) && m in sent
    ensures m.replica == index && 0 < m.start <= m.end <= local
  {
    var i :| 0 <= i < |sent| && sent[i] == m;
    assert StartsAfter(sent, index, i) && StartsAfter(sent, index, |sent| - 1);
    if i < |sent| - 1 {
      ContiguousOrder(sent, index, local, i, |sent| - 1);
    }
  }

  lemma ContiguousDisjoint(sent: seq<Confirm>, index: ReplicaIndex, local: nat, m: Confirm, m': Confirm)
    requires Contiguous(sent, index, local) && m in sent && m' in sent && m != m'
    ensures m.end < m'.start || m'.end < m.start
  {
    var i :| 0 <= i < |sent| && sent[i] == m;
    var j :| 0 <= j < |sent| && sent[j] == m';
    if i < j {
      ContiguousOrder(sent, index, local, i, j);
    } else {
      ContiguousOrder(sent, index, local, j, i);
    }
  }

  ghost predicate SendersOk(n: nat, states: map<ReplicaIndex, State>, stream: nat -> Request) {
    && states.Keys == Replicas(n)
    && forall r :: r in states ==> states[r].index == r && SenderOk(states[r], stream)
  }

  lemma OthersOk(n: nat, states: map<ReplicaIndex, State>, stream: nat -> Request, r: ReplicaIndex)
    requires SendersOk(n, states, stream)
    ensures SentOk(n, r, stream, SentByOthers(states, r))
  {
    hide Contiguous, DigestOf;
    var sent := SentByOthers(states, r);
    forall m | m in sent ensures m.replica in states && m.replica != r && m in states[m.replica].sentConfirms {
      var q :| q in states && q != r && m in states[q].sentConfirms;
      ContiguousEnds(states[q].sentConfirms, q, states[q].localConfirmedNum, m);
    }
    forall m | m in sent ensures 0 < m.start <= m.end && DigestOf(stream, m) {
      ContiguousEnds(states[m.replica].sentConfirms, m.replica, states[m.replica].localConfirmedNum, m);
    }
    forall m, m' | m in sent && m' in sent && m.replica == m'.replica && m != m'
      ensures m.end < m'.start || m'.end < m.start
    {
      var s := states[m.replica];
      ContiguousDisjoint(s.sentConfirms, s.index, s.localConfirmedNum, m, m');
    }
  }

  // ---------- others send more ----------

  lemma StillBefore(sent: set<Confirm>, m: Confirm, end: nat)
    requires EndOfOne(sent, m.replica, end) && m.end > 0
    requires forall m0 :: m0 in sent && m0.replica == m.replica ==> m0.end < m.end
    ensures end < m.end
  {
  }

  lemma ReceivesMore(s: State, sent: set<Confirm>, sent': set<Confirm>, received: set<Confirm>)
    requires Receives(s, sent, received) && sent <= sent'
    requires forall m :: m in sent' && m !in sent ==>
               m.end > 0 && m.replica != s.index
               && forall m0 :: m0 in sent && m0.replica == m.replica ==> m0.end < m.end
    ensures Receives(s, sent', received)
  {
    hide Buffer1Ok, Buffer2Ok, Accounted;
    var remote := s.remoteConfirmedNums;
    forall i | i in remote && i != s.index ensures EndOfOne(sent', i, remote[i]) {
      assert EndOfOne(sent, i, remote[i]);
    }
    forall m | m in sent' && m.replica in remote && m.end <= remote[m.replica] ensures m in received {
      if m !in sent {
        StillBefore(sent, m, remote[m.replica]);
      }
    }
  }

  // ---------- handlers ----------

  lemma RequestKeeps(
      s: State, sent: set<Confirm>, received: set<Confirm>, back: set<Confirm>, stream: nat -> Request, m: Message)
    requires WellFormed(s) && SentOk(s.n, s.index, stream, sent) && ReceiverOk(s, sent, received, back, stream)
    requires Follows(HandleRequest(s, m).requests, stream)
    ensures
      var r := HandleRequest(s, m);
      r.status == Panicked(TooManyReordered) || ReceiverOk(r, sent, received, back, stream)
  {
    hide SentOk, Receives, AllSettled, Follows, ConfirmedOk, OrderRequest, BuffersOk, OwnConfirms;
    var s1 := WithOffset(s, m);
    var opNum := OpNum(m.seqNum, s1.seqNumOffset.value);
    QuietReceiver(s, s1, sent, received, back, stream);
    if opNum == s.orderedNum + 1 {
      OrderKeeps(s1, sent, received, back, stream, m);
    } else if opNum > s.orderedNum + 1 {
      var r := BufferRequest(s1, opNum, m);
      if r.status.Running? {
        QuietReceiver(s1, r, sent, received, back, stream);
      }
    }
  }

  lemma OrderKeeps(
      s: State, sent: set<Confirm>, received: set<Confirm>, back: set<Confirm>, stream: nat -> Request, m: Message)
    requires WellFormed(s) && SentOk(s.n, s.index, stream, sent) && ReceiverOk(s, sent, received, back, stream)
    requires Follows(OrderRequest(s, m).requests, stream)
    ensures ReceiverOk(OrderRequest(s, m), sent, received, back, stream)
  {
    hide SentOk, Receives, Follows, ConfirmedOk, OrderRequest, BuffersOk, OwnConfirms, AllSettled;
    OrderRequestOk(s, sent, received, stream, m);
    OrderRequestSettles(s, m);
    OrderRequestFields(s, m);
  }

  lemma OrderRequestFields(s: State, m: Message)
    requires WellFormed(s)
    ensures
      var r := OrderRequest(s, m);
      && r.sentConfirms == s.sentConfirms && r.localConfirmedNum == s.localConfirmedNum
      && r.n == s.n && r.f == s.f && r.confirm == s.confirm
  {
    hide DrainRequests, ReachRange;
    LongerLog(s, WithLog(s, DrainRequests(Push(OrderingOf(s), m))));
  }

  /** Changes that confirms have no part in. */
  lemma QuietReceiver(
      s: State, s': State, sent: set<Confirm>, received: set<Confirm>, back: set<Confirm>, stream: nat -> Request)
    requires ReceiverOk(s, sent, received, back, stream) && WellFormed(s')
    requires s' == s.(seqNumOffset := s'.seqNumOffset, reorderingRequests := s'.reorderingRequests,
                      sentQueries := s'.sentQueries, sentQueryOks := s'.sentQueryOks)
    ensures ReceiverOk(s', sent, received, back, stream)
  {
    hide Receives, Follows, ConfirmedOk, AllSettled, WellFormed, Sound;
    SameReceives(s, s', sent, received);
    SameSound(s, s', stream);
    SameSettled(s, s');
  }

  lemma SentInRemote(s: State, sent: set<Confirm>, received: set<Confirm>, stream: nat -> Request, m: Confirm)
    requires SentOk(s.n, s.index, stream, sent) && m in sent
    ensures m.replica < s.n
  {
  }

  lemma OwnSame(s: State, r: State, back: set<Confirm>)
    requires OwnOk(s, back) && SameOwn(s, r)
    requires r.sentConfirms == s.sentConfirms && r.localConfirmedNum == s.localConfirmedNum
    ensures OwnOk(r, back)
  {
  }

  lemma ConfirmKeeps(
      s: State, sent: set<Confirm>, received: set<Confirm>, back: set<Confirm>, stream: nat -> Request, m: Confirm)
    requires WellFormed(s) && s.confirm && SentOk(s.n, s.index, stream, sent)
    requires ReceiverOk(s, sent, received, back, stream) && m in sent && m !in received
    ensures ReceiverOk(HandleConfirm(s, m), sent, received + {m}, back, stream)
  {
    hide Receives, AllSettled, Follows, ConfirmedOk, DoConfirm1, BuffersOk, OwnConfirms, SentOk, OwnOk;
    SentInRemote(s, sent, received, stream, m);
    InRemote(s, sent, received, m);
    if m.end > s.orderedNum {
      var r := HandleConfirm(s, m);
      BufferConfirm(s, m);
      BufferLaterOk(s, sent, received, m);
      SameSound(s, r, stream);
      SameSettled(s, r);
      OwnSame(s, r, back);
    } else {
      Confirm1Ok(s, sent, received, stream, m);
      Confirm1Settles(s, m);
      OwnSame(s, DoConfirm1(s, m), back);
    }
  }

  /** The confirm that comes back is the one in flight, so that it follows the own entry. */
  lemma BackIsInFlight(s: State, back: set<Confirm>, m: Confirm)
    requires OwnOk(s, back) && Contiguous(s.sentConfirms, s.index, s.localConfirmedNum)
    requires m in s.sentConfirms && m !in back
    ensures m == s.sentConfirms[|s.sentConfirms| - 1] && InFlight(s.sentConfirms, back)
    ensures m.start == s.remoteConfirmedNums[s.index] + 1 && m.end == s.localConfirmedNum && m.start <= m.end
  {
    ContiguousEnds(s.sentConfirms, s.index, s.localConfirmedNum, m);
  }

  lemma LoopbackKeeps(
      s: State, sent: set<Confirm>, received: set<Confirm>, back: set<Confirm>, stream: nat -> Request, m: Confirm)
    requires WellFormed(s) && s.confirm && SentOk(s.n, s.index, stream, sent)
    requires ReceiverOk(s, sent, received, back, stream) && SenderOk(s, stream)
    requires m in s.sentConfirms && m !in back
    ensures ReceiverOk(HandleLoopback(s, m), sent, received, back + {m}, stream)
  {
    hide Receives, AllSettled, Follows, ConfirmedOk, BuffersOk, Contiguous;
    BackIsInFlight(s, back, m);
    OwnRaised(s, sent, received, m.end);
    OwnSettled(s, sent, received, m.end);
    RaiseKeeps(s, s.index, m.end);
    var s1 := s.(remoteConfirmedNums := s.remoteConfirmedNums[s.index := m.end]);
    var r := UpdateConfirmNum(s1);
    assert r == HandleLoopback(s, m);
    NotGoneBackRuns(s1);
    SameReceives(s1, r, sent, received);
    SameSettled(s1, r);
    OwnBack(s, r, back, m);
  }

  lemma NotGoneBackRuns(s: State)
    requires WellFormed(s) && s.confirm && s.status.Running? && ConfirmedOk(UpdateConfirmNum(s))
    ensures UpdateConfirmNum(s).status.Running?
  {
  }

  lemma OwnBack(s: State, r: State, back: set<Confirm>, m: Confirm)
    requires OwnOk(s, back) && m in s.sentConfirms && m == s.sentConfirms[|s.sentConfirms| - 1]
    requires m.end == s.localConfirmedNum
    requires r.sentConfirms == s.sentConfirms && r.localConfirmedNum == s.localConfirmedNum && r.index == s.index
    requires r.remoteConfirmedNums == s.remoteConfirmedNums[s.index := m.end]
    ensures OwnOk(r, back + {m})
  {
  }

  lemma PaceKeeps(
      s: State, sent: set<Confirm>, received: set<Confirm>, back: set<Confirm>, stream: nat -> Request)
    requires WellFormed(s) && s.confirm && ReceiverOk(s, sent, received, back, stream) && SenderOk(s, stream)
    ensures ReceiverOk(OnPace(s), sent, received, back, stream)
  {
    hide Receives, AllSettled, ConfirmedOk, BuffersOk, OwnConfirms;
    var r := OnPace(s);
    if r != s {
      var k := |s.sentConfirms|;
      var m := r.sentConfirms[k];
      assert r.sentConfirms == s.sentConfirms + [m];
      SentLater(s, m);
      SameReceives(s, r, sent, received);
      SameSettled(s, r);
      PacedSound(s, r, stream);
      OwnSent(s, r, back, m);
    }
  }

  lemma OwnSent(s: State, r: State, back: set<Confirm>, m: Confirm)
    requires OwnOk(s, back) && Contiguous(s.sentConfirms, s.index, s.localConfirmedNum) && m !in s.sentConfirms
    requires s.remoteConfirmedNums[s.index] == s.localConfirmedNum && m.start == s.localConfirmedNum + 1
    requires r.sentConfirms == s.sentConfirms + [m] && r.remoteConfirmedNums == s.remoteConfirmedNums
    requires r.index == s.index
    ensures OwnOk(r, back)
  {
    if s.sentConfirms != [] {
      assert StartsAfter(s.sentConfirms, s.index, |s.sentConfirms| - 1);
      assert !InFlight(s.sentConfirms, back);
    }
  }

  /** A replica sends a confirm only when none is in flight, and it is a new one. */
  lemma SentLater(s: State, m: Confirm)
    requires Contiguous(s.sentConfirms, s.index, s.localConfirmedNum) && m.start == s.localConfirmedNum + 1
    ensures m !in s.sentConfirms
  {
    if m in s.sentConfirms {
      ContiguousEnds(s.sentConfirms, s.index, s.localConfirmedNum, m);
      assert false;
    }
  }

  lemma PacedSound(s: State, r: State, stream: nat -> Request)
    requires Sound(s, stream) && WellFormed(r)
    requires r == s.(sentConfirms := r.sentConfirms, localConfirmedNum := r.localConfirmedNum)
    ensures Sound(r, stream)
  {
  }

  lemma SenderSame(s: State, r: State, stream: nat -> Request)
    requires SenderOk(s, stream) && r.sentConfirms == s.sentConfirms
    requires r.index == s.index && r.localConfirmedNum == s.localConfirmedNum
    ensures SenderOk(r, stream)
  {
  }

  lemma RequestSender(s: State, m: Message)
    requires WellFormed(s)
    ensures
      var r := HandleRequest(s, m);
      && r.sentConfirms == s.sentConfirms && r.localConfirmedNum == s.localConfirmedNum
      && r.n == s.n && r.f == s.f && r.index == s.index && r.confirm == s.confirm
  {
    hide OrderRequest, BufferRequest, BuffersOk, OwnConfirms;
    OrderRequestFields(WithOffset(s, m), m);
  }

  lemma QueryOkKeeps(
      s: State, sent: set<Confirm>, received: set<Confirm>, back: set<Confirm>, stream: nat -> Request, ok: QueryOk)
    requires WellFormed(s) && SentOk(s.n, s.index, stream, sent) && ReceiverOk(s, sent, received, back, stream)
    requires Follows(HandleQueryOk(s, ok).requests, stream)
    ensures
      var r := HandleQueryOk(s, ok);
      r.status == Panicked(TooManyReordered) || ReceiverOk(r, sent, received, back, stream)
  {
    hide SentOk, ReceiverOk, Follows, HandleRequest, WellFormed;
    if ok.opNum == s.orderedNum + 1 && s.status.Running? {
      RequestKeeps(s, sent, received, back, stream, ok.request);
      var s1 := HandleRequest(s, ok.request);
      if s1.status.Running? {
        QuietReceiver(s1, HandleQueryOk(s, ok), sent, received, back, stream);
      }
    }
  }

  ghost function ReceivedBy(e: Event): set<Confirm> {
    if e.ConfirmArrives? then {e.confirm} else {}
  }

  ghost function BackBy(e: Event): set<Confirm> {
    if e.OwnConfirmArrives? then {e.own} else {}
  }

  ghost predicate Admits(s: State, sent: set<Confirm>, received: set<Confirm>, back: set<Confirm>, e: Event) {
    match e
    case ConfirmArrives(m) => m in sent && m !in received
    case OwnConfirmArrives(m) => m in s.sentConfirms && m !in back
    case QueryArrives(q) => q.opNum > 0
    case _ => true
  }

  lemma HandleReceives(
      s: State, sent: set<Confirm>, received: set<Confirm>, back: set<Confirm>, stream: nat -> Request, e: Event)
    requires WellFormed(s) && s.confirm && SentOk(s.n, s.index, stream, sent) && SenderOk(s, stream)
    requires ReceiverOk(s, sent, received, back, stream) && Admits(s, sent, received, back, e)
    requires Follows(Handle(s, e).requests, stream)
    ensures
      var r := Handle(s, e);
      r.status == Panicked(TooManyReordered) || ReceiverOk(r, sent, received + ReceivedBy(e), back + BackBy(e), stream)
  {
    hide SentOk, ReceiverOk, Follows, HandleRequest, HandleConfirm, HandleLoopback, HandleQueryOk, OnPace, SenderOk;
    assert received + {} == received && back + {} == back;
    match e
    case RequestArrives(m) => RequestKeeps(s, sent, received, back, stream, m);
    case ConfirmArrives(m) => ConfirmKeeps(s, sent, received, back, stream, m);
    case OwnConfirmArrives(m) => LoopbackKeeps(s, sent, received, back, stream, m);
    case QueryArrives(q) => QueryKeeps(s, sent, received, back, stream, q);
    case QueryOkArrives(ok) => QueryOkKeeps(s, sent, received, back, stream, ok);
    case Pace => PaceKeeps(s, sent, received, back, stream);
  }

  lemma QueryKeeps(
      s: State, sent: set<Confirm>, received: set<Confirm>, back: set<Confirm>, stream: nat -> Request, q: Query)
    requires WellFormed(s) && ReceiverOk(s, sent, received, back, stream) && q.opNum > 0
    ensures ReceiverOk(HandleQuery(s, q), sent, received, back, stream)
  {
    hide Receives, AllSettled, Follows, ConfirmedOk, BuffersOk, OwnConfirms;
    QuietReceiver(s, HandleQuery(s, q), sent, received, back, stream);
  }

  /** What a replica does with its own confirms, whatever it handles. */
  lemma HandleSends(s: State, stream: nat -> Request, e: Event)
    requires WellFormed(s) && SenderOk(s, stream) && (e.OwnConfirmArrives? ==> e.own in s.sentConfirms)
    requires Follows(s.requests, stream)
    ensures
      var r := Handle(s, e);
      && SenderOk(r, stream) && r.n == s.n && r.f == s.f && r.index == s.index && r.confirm == s.confirm
      && s.sentConfirms <= r.sentConfirms
      && (forall m :: m in r.sentConfirms && m !in s.sentConfirms ==> m.replica == s.index && m.start > s.localConfirmedNum)
  {
    hide BuffersOk, OwnConfirms, HandleRequest, DoConfirm1, UpdateConfirmNum, DoSendConfirm, SenderOk;
    var r := Handle(s, e);
    match e
    case RequestArrives(m) => RequestSender(s, m); SenderSame(s, r, stream);
    case QueryOkArrives(ok) => RequestSender(s, ok.request); SenderSame(s, r, stream);
    case Pace => PaceSends(s, stream);
    case _ => SenderSame(s, r, stream);
  }

  lemma PaceSends(s: State, stream: nat -> Request)
    requires WellFormed(s) && SenderOk(s, stream) && Follows(s.requests, stream)
    ensures
      var r := OnPace(s);
      && SenderOk(r, stream) && r.n == s.n && r.f == s.f && r.index == s.index && r.confirm == s.confirm
      && s.sentConfirms <= r.sentConfirms
      && (forall m :: m in r.sentConfirms && m !in s.sentConfirms ==> m.replica == s.index && m.start > s.localConfirmedNum)
  {
    hide BuffersOk, OwnConfirms;
    var r := OnPace(s);
    if r != s {
      var k := |s.sentConfirms|;
      var m := r.sentConfirms[k];
      assert r.sentConfirms == s.sentConfirms + [m];
      forall i: nat | i < k + 1 ensures StartsAfter(r.sentConfirms, r.index, i) {
        if i < k {
          assert StartsAfter(s.sentConfirms, s.index, i);
        }
      }
      assert DigestOf(stream, m);
    }
  }

  // ---------- one step ----------

  lemma InvSenders(n: nat, f: nat, stream: nat -> Request, net: Net)
    requires Inv(n, f, stream, net)
    ensures SendersOk(n, net.states, stream)
  {
    hide SenderOk, ReceiverOk, WellFormed;
    forall r | r in net.states ensures net.states[r].index == r && SenderOk(net.states[r], stream) {
      assert ReplicaOk(n, f, r, net.states[r], SentByOthers(net.states, r), net.received[r], net.back[r], stream);
    }
  }

  /** The replica that takes the step. */
  lemma StepperKeeps(n: nat, f: nat, stream: nat -> Request, net: Net, net': Net, r: ReplicaIndex, e: Event)
    requires Inv(n, f, stream, net) && StepBy(net, net', r, e) && Follows(Handle(net.states[r], e).requests, stream)
    requires Follows(net.states[r].requests, stream)
    ensures ReplicaOk(n, f, r, net'.states[r], SentByOthers(net.states, r), net'.received[r], net'.back[r], stream)
    ensures
      var s, s' := net.states[r], net'.states[r];
      && s.sentConfirms <= s'.sentConfirms
      && (forall m :: m in s'.sentConfirms && m !in s.sentConfirms ==> m.replica == r && m.start > s.localConfirmedNum)
  {
    hide SenderOk, ReceiverOk, WellFormed, Follows, Handle, SentByOthers, SendersOk, SentOk;
    var s := net.states[r];
    assert ReplicaOk(n, f, r, s, SentByOthers(net.states, r), net.received[r], net.back[r], stream);
    InvSenders(n, f, stream, net);
    OthersOk(n, net.states, stream, r);
    HandleSends(s, stream, e);
    HandleReceives(s, SentByOthers(net.states, r), net.received[r], net.back[r], stream, e);
  }

  lemma OthersMore(
      n: nat, states: map<ReplicaIndex, State>, states': map<ReplicaIndex, State>, stream: nat -> Request,
      r: ReplicaIndex, q: ReplicaIndex)
    requires SendersOk(n, states, stream) && r in states && r in states' && states' == states[r := states'[r]]
    requires states[r].sentConfirms <= states'[r].sentConfirms
    requires forall m :: m in states'[r].sentConfirms && m !in states[r].sentConfirms ==>
               m.replica == r && m.start > states[r].localConfirmedNum && m.start <= m.end
    ensures
      var sent, sent' := SentByOthers(states, q), SentByOthers(states', q);
      && sent <= sent'
      && (q == r ==> sent' == sent)
      && forall m :: m in sent' && m !in sent ==>
           m.end > 0 && m.replica != q
           && forall m0 :: m0 in sent && m0.replica == m.replica ==> m0.end < m.end
  {
    hide Contiguous, Signs;
    var sent, sent' := SentByOthers(states, q), SentByOthers(states', q);
    forall m | m in sent ensures m in sent' {
      var i :| i in states && i != q && m in states[i].sentConfirms;
      assert i in states' && m in states'[i].sentConfirms;
    }
    forall m | m in sent' && m !in sent
      ensures r != q && m in states'[r].sentConfirms && m !in states[r].sentConfirms
    {
      var i :| i in states' && i != q && m in states'[i].sentConfirms;
      assert i == r;
    }
    forall m, m0 | m in sent' && m !in sent && m0 in sent && m0.replica == m.replica ensures m0.end < m.end {
      var i :| i in states && i != q && m0 in states[i].sentConfirms;
      ContiguousEnds(states[i].sentConfirms, i, states[i].localConfirmedNum, m0);
    }
  }

  lemma StepKeeps(n: nat, f: nat, stream: nat -> Request, net: Net, net': Net)
    requires Inv(n, f, stream, net) && Agreeing(net, stream) && Next(net, net', stream)
    ensures Inv(n, f, stream, net')
  {
    hide ReplicaOk, SendersOk, Follows, Handle, SentByOthers, WellFormed;
    var r, e :| StepBy(net, net', r, e);
    assert r in net'.states && net'.states[r] == Handle(net.states[r], e);
    StepperKeeps(n, f, stream, net, net', r, e);
    InvSenders(n, f, stream, net);
    NewEnds(n, f, r, net'.states[r], SentByOthers(net.states, r), net'.received[r], net'.back[r], stream);
    forall q | q in net'.states
      ensures ReplicaOk(n, f, q, net'.states[q], SentByOthers(net'.states, q), net'.received[q], net'.back[q], stream)
    {
      OthersMore(n, net.states, net'.states, stream, r, q);
      assert ReplicaOk(n, f, q, net'.states[q], SentByOthers(net.states, q), net'.received[q], net'.back[q], stream);
      ReplicaMore(n, f, q, net'.states[q], SentByOthers(net.states, q), SentByOthers(net'.states, q),
                  net'.received[q], net'.back[q], stream);
    }
  }

  lemma NewEnds(
      n: nat, f: nat, r: ReplicaIndex, s: State, sent: set<Confirm>, received: set<Confirm>, back: set<Confirm>,
      stream: nat -> Request)
    requires ReplicaOk(n, f, r, s, sent, received, back, stream)
    ensures forall m :: m in s.sentConfirms ==> m.start <= m.end
  {
    hide ReceiverOk, Contiguous, WellFormed;
  }

  lemma ReplicaMore(
      n: nat, f: nat, r: ReplicaIndex, s: State, sent: set<Confirm>, sent': set<Confirm>, received: set<Confirm>,
      back: set<Confirm>, stream: nat -> Request)
    requires ReplicaOk(n, f, r, s, sent, received, back, stream) && sent <= sent'
    requires forall m :: m in sent' && m !in sent ==>
               m.end > 0 && m.replica != r
               && forall m0 :: m0 in sent && m0.replica == m.replica ==> m0.end < m.end
    ensures ReplicaOk(n, f, r, s, sent', received, back, stream)
  {
    hide SenderOk, Sound, Receives, AllSettled, OwnOk, WellFormed;
    if ReceiverOk(s, sent, received, back, stream) {
      ReceivesMore(s, sent, sent', received);
    }
  }

  // ---------- runs ----------

  lemma InitReplica(n: nat, f: nat, r: ReplicaIndex, sent: set<Confirm>, stream: nat -> Request)
    requires f < n && r < n && sent == {}
    ensures ReplicaOk(n, f, r, Init(n, f, r, true), sent, {}, {}, stream)
  {
    hide SortUnstable, Values, ExecutedUpTo, ConfirmedOf;
    InitCommits(n, f, r, true);
    assert EndOfOne({}, r, 0);
  }

  lemma InitInv(n: nat, f: nat, stream: nat -> Request)
    requires f < n
    ensures Inv(n, f, stream, InitNet(n, f)) && Agreeing(InitNet(n, f), stream)
  {
    hide ReplicaOk;
    var net := InitNet(n, f);
    forall r | r in net.states
      ensures ReplicaOk(n, f, r, net.states[r], SentByOthers(net.states, r), net.received[r], net.back[r], stream)
    {
      assert SentByOthers(net.states, r) == {};
      InitReplica(n, f, r, {}, stream);
    }
  }

  lemma {:induction false} RunInv(n: nat, f: nat, stream: nat -> Request, run: seq<Net>)
    requires f < n && IsRun(n, f, stream, run)
    ensures Inv(n, f, stream, run[|run| - 1]) && Agreeing(run[|run| - 1], stream)
    decreases |run|
  {
    hide Inv, StepBy, Agreeing;
    if |run| == 1 {
      InitInv(n, f, stream);
    } else {
      var shorter := run[..|run| - 1];
      forall i | 0 <= i < |shorter| - 1 ensures Next(shorter[i], shorter[i + 1], stream) {
        assert Next(run[i], run[i + 1], stream);
      }
      assert Next(run[|run| - 2], run[|run| - 1], stream);
      RunInv(n, f, stream, shorter);
      StepKeeps(n, f, stream, run[|run| - 2], run[|run| - 1]);
    }
  }
}
