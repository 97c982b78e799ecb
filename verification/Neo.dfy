/** The Neo replica: a gap-free log over a sequenced stream, its verified prefix, and confirms.

    The stream may lose, reorder or repeat messages. In confirm mode only what enough replicas have
    confirmed is executed. `State` is the replica as a value, with one function per handler; the
    class in module NeoReplica has the same fields and its methods compute these functions. */
module Neo {
  import opened Blocks
  import opened Quorums
  import opened Multicast

  type Message = OrderedMulticast<Request>

  /** A digest over requests hashed one after the other, and the range of operations it covers. */
  datatype Confirm = Confirm(digest: seq<Request>, start: nat, end: nat, replica: ReplicaIndex)

  datatype Query = Query(opNum: nat, replica: ReplicaIndex)

  datatype QueryOk = QueryOk(opNum: nat, request: Message)

  datatype Reply = Reply(requestNum: nat, result: Result, epochNum: nat, seqNum: nat, replica: ReplicaIndex)

  /** The assertions, lookups and slices that can stop a replica. */
  datatype Panic =
    | TooManyReordered | NotConfirming | OwnConfirmSkips | UnknownReplica
    | ConfirmRepeats | RangeOutOfLog | DigestMismatch | ConfirmGoesBack

  datatype Status = Running | Panicked(why: Panic)

  /** `committed` and the `sent` fields record, in order, the operation numbers passed to `do_commit`
      and the messages handed to the network. */
  datatype State = State(
    n: nat,
    f: nat,
    index: ReplicaIndex,
    seqNumOffset: Option<nat>,
    reorderingRequests: map<nat, Message>,
    requests: seq<Message>,
    orderedNum: nat,
    verifiedNum: nat,
    replies: map<ClientIndex, Reply>,
    app: App,
    confirm: bool,
    confirmedNum: nat,
    localConfirmedNum: nat,
    remoteConfirmedNums: map<ReplicaIndex, nat>,
    reorderingConfirms1: map<nat, seq<Confirm>>,
    reorderingConfirms2: map<(ReplicaIndex, nat), Confirm>,
    status: Status,
    committed: seq<nat>,
    sentReplies: seq<(ClientIndex, Reply)>,
    sentConfirms: seq<Confirm>,
    sentQueries: seq<Query>,
    sentQueryOks: seq<(ReplicaIndex, QueryOk)>)

  const QUERY_THRESHOLD: nat := 100

  function Init(n: nat, f: nat, index: ReplicaIndex, confirm: bool): State {
    State(n, f, index, None, map[], [], 0, 0, map[], [], confirm, 0, 0,
          if confirm then map i | i in Replicas(n) :: 0 else map[],
          map[], map[], Running, [], [], [], [], [])
  }

  /** The operation number of a message, in 32-bit arithmetic that wraps around. */
  function OpNum(seqNum: nat, offset: nat): nat {
    (seqNum - offset + 1) % 0x1_0000_0000
  }

  function Inner(requests: seq<Message>): (r: seq<Request>)
    ensures |r| == |requests| && forall i :: 0 <= i < |r| ==> r[i] == requests[i].inner
  {
    seq(|requests|, i requires 0 <= i < |requests| => requests[i].inner)
  }

  // ---------- executing ----------

  /** `replies` is consulted, but nothing ever fills it. */
  function DoCommit(s: State, opNum: nat): (r: State)
    requires 0 < opNum <= |s.requests|
    ensures r == s.(app := r.app, committed := s.committed + [opNum], sentReplies := r.sentReplies)
  {
    var request := s.requests[opNum - 1];
    var client := request.inner.client;
    var s1 := s.(committed := s.committed + [opNum]);
    if client in s.replies && s.replies[client].requestNum > request.inner.num then s1
    else if client in s.replies && s.replies[client].requestNum == request.inner.num then
      s1.(sentReplies := s.sentReplies + [(client, s.replies[client])])
    else
      var (app, result) := Execute(s.app, request.inner.op);
      s1.(app := app,
          sentReplies := s.sentReplies + [(client, Reply(request.inner.num, result, 0, request.seqNum, s.index))])
  }

  /** Commits the operations from + 1 .. upTo. */
  function CommitRange(s: State, lo: nat, hi: nat): (r: State)
    requires lo <= hi <= |s.requests|
    ensures r == s.(app := r.app, committed := r.committed, sentReplies := r.sentReplies)
    decreases hi
  {
    if lo == hi then s else DoCommit(CommitRange(s, lo, hi - 1), hi)
  }

  // ---------- the confirmation number ----------

  /** The entries of `remoteConfirmedNums`, in the order of replica indices. */
  function Values(remote: map<ReplicaIndex, nat>, n: nat): (r: seq<nat>)
    requires Replicas(n) <= remote.Keys
    ensures |r| == n
  {
    if n == 0 then [] else Values(remote, n - 1) + [remote[n - 1]]
  }

  predicate SortedNums(s: seq<nat>) {
    forall i, j :: 0 <= i < j < |s| ==> s[i] <= s[j]
  }

  function InsertSorted(s: seq<nat>, x: nat): (r: seq<nat>)
    requires SortedNums(s)
    ensures SortedNums(r) && multiset(r) == multiset(s) + multiset{x} && |r| == |s| + 1
    ensures forall i :: 0 <= i < |r| ==> r[i] == x || r[i] in s
    decreases |s|
  {
    if s == [] || s[|s| - 1] <= x then s + [x]
    else
      assert s == s[..|s| - 1] + [s[|s| - 1]];
      var r := InsertSorted(s[..|s| - 1], x);
      r + [s[|s| - 1]]
  }

  /** The standard library's in-place sort of a vector, by what it leaves. */
  function SortUnstable(s: seq<nat>): (r: seq<nat>)
    ensures SortedNums(r) && multiset(r) == multiset(s) && |r| == |s|
  {
    if s == [] then []
    else
      assert s == s[..|s| - 1] + [s[|s| - 1]];
      InsertSorted(SortUnstable(s[..|s| - 1]), s[|s| - 1])
  }

  // ---------- what every replica keeps ----------

  ghost predicate ConfirmsAt(confirms1: map<nat, seq<Confirm>>, end: nat)
    requires end in confirms1
  {
    forall c :: c in confirms1[end] ==> c.end == end
  }

  ghost predicate EarlyConfirm(confirms2: map<(ReplicaIndex, nat), Confirm>, n: nat, length: nat, key: (ReplicaIndex, nat))
    requires key in confirms2
  {
    var c := confirms2[key];
    c.replica == key.0 && c.start == key.1 && c.end <= length && key.0 < n
  }

  ghost predicate BuffersOk(
      confirms1: map<nat, seq<Confirm>>, confirms2: map<(ReplicaIndex, nat), Confirm>, n: nat, length: nat)
  {
    && (forall e {:trigger ConfirmsAt(confirms1, e)} :: e in confirms1 ==> ConfirmsAt(confirms1, e))
    && (forall k {:trigger EarlyConfirm(confirms2, n, length, k)} :: k in confirms2 ==>
          EarlyConfirm(confirms2, n, length, k))
  }

  ghost predicate OwnConfirms(confirms: seq<Confirm>, confirm: bool, index: ReplicaIndex, localConfirmedNum: nat) {
    forall c :: c in confirms ==> confirm && c.replica == index && 0 < c.start <= c.end <= localConfirmedNum
  }

  ghost predicate WellFormed(s: State) {
    && s.f < s.n && s.index < s.n
    && s.orderedNum == |s.requests|
    && s.verifiedNum <= s.orderedNum
    && s.localConfirmedNum <= s.orderedNum
    && s.confirmedNum <= s.orderedNum
    && (s.confirm ==> s.remoteConfirmedNums.Keys == Replicas(s.n))
    && (forall i :: i in s.remoteConfirmedNums ==> s.remoteConfirmedNums[i] <= s.orderedNum)
    && BuffersOk(s.reorderingConfirms1, s.reorderingConfirms2, s.n, s.orderedNum)
    && OwnConfirms(s.sentConfirms, s.confirm, s.index, s.localConfirmedNum)
  }

  lemma {:induction false} ValuesBounded(remote: map<ReplicaIndex, nat>, n: nat, bound: nat)
    requires Replicas(n) <= remote.Keys && forall i :: i in remote ==> remote[i] <= bound
    ensures forall v :: v in Values(remote, n) ==> v <= bound
  {
    if n > 0 {
      ValuesBounded(remote, n - 1, bound);
    }
  }

  /** Element f of the sorted confirmation numbers. */
  function ConfirmedOf(remote: map<ReplicaIndex, nat>, n: nat, f: nat): nat
    requires Replicas(n) <= remote.Keys && f < n
  {
    SortUnstable(Values(remote, n))[f]
  }

  lemma ConfirmedOfBounded(remote: map<ReplicaIndex, nat>, n: nat, f: nat, bound: nat)
    requires Replicas(n) <= remote.Keys && f < n && forall i :: i in remote ==> remote[i] <= bound
    ensures ConfirmedOf(remote, n, f) <= bound
  {
    ValuesBounded(remote, n, bound);
    var values := Values(remote, n);
    var sorted := SortUnstable(values);
    assert sorted[f] in multiset(sorted);
    assert sorted[f] in values;
  }

  function UpdateConfirmNum(s: State): (r: State)
    requires WellFormed(s) && s.confirm
    ensures WellFormed(r)
    ensures r == s.(confirmedNum := r.confirmedNum, app := r.app, committed := r.committed,
                    sentReplies := r.sentReplies, status := r.status)
  {
    ConfirmedOfBounded(s.remoteConfirmedNums, s.n, s.f, s.orderedNum);
    var newConfirmedNum := ConfirmedOf(s.remoteConfirmedNums, s.n, s.f);
    if newConfirmedNum < s.confirmedNum then s.(status := Panicked(ConfirmGoesBack))
    else CommitRange(s, s.confirmedNum, newConfirmedNum).(confirmedNum := newConfirmedNum)
  }

  // ---------- confirms ----------

  function DoSendConfirm(s: State): (r: State)
    requires WellFormed(s) && s.confirm
    ensures WellFormed(r)
  {
    if s.localConfirmedNum < s.orderedNum && s.localConfirmedNum == s.remoteConfirmedNums[s.index] then
      var c := Confirm(Inner(s.requests[s.localConfirmedNum..]), s.localConfirmedNum + 1, s.orderedNum, s.index);
      s.(sentConfirms := s.sentConfirms + [c], localConfirmedNum := s.orderedNum)
    else s
  }

  /** Whether the range of a confirm is a slice of a log of this length. */
  predicate RangeInLog(c: Confirm, length: nat) {
    0 < c.start && 0 < c.end && c.start - 1 <= c.end <= length
  }

  function DoConfirm2(s: State, c: Confirm): (r: State)
    requires WellFormed(s) && s.confirm && c.replica in s.remoteConfirmedNums
    ensures WellFormed(r) && r.remoteConfirmedNums.Keys == s.remoteConfirmedNums.Keys
    ensures r == s.(remoteConfirmedNums := r.remoteConfirmedNums, confirmedNum := r.confirmedNum,
                    app := r.app, committed := r.committed, sentReplies := r.sentReplies, status := r.status)
  {
    if !RangeInLog(c, |s.requests|) then s.(status := Panicked(RangeOutOfLog))
    else if Inner(s.requests[c.start - 1..c.end]) != c.digest then s.(status := Panicked(DigestMismatch))
    else UpdateConfirmNum(s.(remoteConfirmedNums := s.remoteConfirmedNums[c.replica := c.end]))
  }

  /** Takes the confirms of a replica that were buffered behind the one just handled. */
  function DrainConfirms(s: State, i: ReplicaIndex): (r: State)
    requires WellFormed(s) && s.confirm && i in s.remoteConfirmedNums
    ensures WellFormed(r)
    ensures r == s.(remoteConfirmedNums := r.remoteConfirmedNums, reorderingConfirms2 := r.reorderingConfirms2,
                    confirmedNum := r.confirmedNum, app := r.app, committed := r.committed,
                    sentReplies := r.sentReplies, status := r.status)
    decreases |s.reorderingConfirms2|
  {
    var key := (i, s.remoteConfirmedNums[i] + 1);
    if s.status.Running? && key in s.reorderingConfirms2 then
      WithoutEarlyConfirm(s, key);
      DrainConfirms(DoConfirm2(Without2(s, key), s.reorderingConfirms2[key]), i)
    else s
  }

  function Without2(s: State, key: (ReplicaIndex, nat)): State {
    s.(reorderingConfirms2 := s.reorderingConfirms2 - {key})
  }

  lemma WithoutEarlyConfirm(s: State, key: (ReplicaIndex, nat))
    requires WellFormed(s) && key in s.reorderingConfirms2
    ensures WellFormed(Without2(s, key))
    ensures s.reorderingConfirms2[key].replica == key.0 && s.reorderingConfirms2[key].start == key.1
    ensures |Without2(s, key).reorderingConfirms2| < |s.reorderingConfirms2|
  {
    var confirms2 := s.reorderingConfirms2 - {key};
    assert s.reorderingConfirms2.Keys == confirms2.Keys + {key};
    assert EarlyConfirm(s.reorderingConfirms2, s.n, s.orderedNum, key);
    forall k | k in confirms2 ensures EarlyConfirm(confirms2, s.n, s.orderedNum, k) {
      assert EarlyConfirm(s.reorderingConfirms2, s.n, s.orderedNum, k);
    }
  }

  function DoConfirm1(s: State, c: Confirm): (r: State)
    requires WellFormed(s) && s.confirm && c.end <= s.orderedNum
    ensures WellFormed(r)
    ensures r == s.(remoteConfirmedNums := r.remoteConfirmedNums, reorderingConfirms2 := r.reorderingConfirms2,
                    confirmedNum := r.confirmedNum, app := r.app, committed := r.committed,
                    sentReplies := r.sentReplies, status := r.status)
  {
    if s.status.Panicked? then s
    else if c.replica !in s.remoteConfirmedNums then s.(status := Panicked(UnknownReplica))
    else
      var confirmedNum := s.remoteConfirmedNums[c.replica];
      if c.start <= confirmedNum then s.(status := Panicked(ConfirmRepeats))
      else if c.start != confirmedNum + 1 then
        BufferEarlyConfirm(s, c);
        s.(reorderingConfirms2 := s.reorderingConfirms2[(c.replica, c.start) := c])
      else DrainConfirms(DoConfirm2(s, c), c.replica)
  }

  lemma BufferEarlyConfirm(s: State, c: Confirm)
    requires WellFormed(s) && s.confirm && c.end <= s.orderedNum && c.replica in s.remoteConfirmedNums
    ensures WellFormed(s.(reorderingConfirms2 := s.reorderingConfirms2[(c.replica, c.start) := c]))
  {
    var confirms2 := s.reorderingConfirms2[(c.replica, c.start) := c];
    forall k | k in confirms2 ensures EarlyConfirm(confirms2, s.n, s.orderedNum, k) {
      if k != (c.replica, c.start) {
        assert EarlyConfirm(s.reorderingConfirms2, s.n, s.orderedNum, k);
      }
    }
  }

  function ConfirmAll(s: State, confirms: seq<Confirm>): (r: State)
    requires WellFormed(s) && s.confirm && forall c :: c in confirms ==> c.end <= s.orderedNum
    ensures WellFormed(r)
    ensures r == s.(remoteConfirmedNums := r.remoteConfirmedNums, reorderingConfirms2 := r.reorderingConfirms2,
                    confirmedNum := r.confirmedNum, app := r.app, committed := r.committed,
                    sentReplies := r.sentReplies, status := r.status)
    decreases |confirms|
  {
    if confirms == [] then s else ConfirmAll(DoConfirm1(s, confirms[0]), confirms[1..])
  }

  // ---------- the log ----------

  /** The log, the requests buffered behind it and the last verified position. */
  datatype Ordering = Ordering(log: seq<Message>, buffered: map<nat, Message>, verifiedNum: nat)

  function Push(o: Ordering, m: Message): Ordering {
    Ordering(o.log + [m], o.buffered, if m.Verified() then |o.log| + 1 else o.verifiedNum)
  }

  /** Moves buffered requests that follow the log onto it. */
  function DrainRequests(o: Ordering): (r: Ordering)
    requires o.verifiedNum <= |o.log|
    ensures o.log <= r.log && o.verifiedNum <= r.verifiedNum <= |r.log|
    decreases |o.buffered|
  {
    var next := |o.log| + 1;
    if next in o.buffered then
      FewerRequests(o.buffered, next);
      DrainRequests(Push(o.(buffered := o.buffered - {next}), o.buffered[next]))
    else o
  }

  lemma FewerRequests(buffered: map<nat, Message>, key: nat)
    requires key in buffered
    ensures |buffered - {key}| < |buffered|
  {
    assert buffered.Keys == (buffered - {key}).Keys + {key};
  }

  function OrderingOf(s: State): Ordering {
    Ordering(s.requests, s.reorderingRequests, s.verifiedNum)
  }

  /** The new log, before acting on what became verified. */
  function WithLog(s: State, o: Ordering): State {
    s.(requests := o.log, orderedNum := |o.log|, reorderingRequests := o.buffered)
  }

  lemma LongerLog(s: State, r: State)
    requires WellFormed(s) && s.requests <= r.requests && r.orderedNum == |r.requests|
    requires r == s.(orderedNum := r.orderedNum, requests := r.requests, reorderingRequests := r.reorderingRequests)
    ensures WellFormed(r)
  {
    forall k | k in r.reorderingConfirms2 ensures EarlyConfirm(r.reorderingConfirms2, r.n, r.orderedNum, k) {
      assert EarlyConfirm(s.reorderingConfirms2, s.n, s.orderedNum, k);
    }
  }

  /** The settings of a replica never change, and it takes back nothing of its log or its confirms. */
  ghost predicate Alike(s: State, r: State) {
    && r.n == s.n && r.f == s.f && r.index == s.index && r.confirm == s.confirm
    && s.requests <= r.requests && s.sentConfirms <= r.sentConfirms
  }

  /** What happens to an operation when the verified prefix reaches it. */
  function Reach(s: State, opNum: nat): (r: State)
    requires WellFormed(s) && 0 < opNum <= s.orderedNum
    ensures WellFormed(r)
    ensures r == s.(remoteConfirmedNums := r.remoteConfirmedNums, reorderingConfirms1 := r.reorderingConfirms1,
                    reorderingConfirms2 := r.reorderingConfirms2,
                    confirmedNum := r.confirmedNum, app := r.app, committed := r.committed,
                    sentReplies := r.sentReplies, status := r.status)
  {
    if s.status.Panicked? then s
    else if !s.confirm then DoCommit(s, opNum)
    else if opNum in s.reorderingConfirms1 then
      WithoutConfirms(s, opNum);
      ConfirmAll(Without1(s, opNum), s.reorderingConfirms1[opNum])
    else s
  }

  function Without1(s: State, end: nat): State {
    s.(reorderingConfirms1 := s.reorderingConfirms1 - {end})
  }

  lemma WithoutConfirms(s: State, end: nat)
    requires WellFormed(s) && end in s.reorderingConfirms1
    ensures WellFormed(Without1(s, end)) && forall c :: c in s.reorderingConfirms1[end] ==> c.end == end
  {
    assert ConfirmsAt(s.reorderingConfirms1, end);
    var confirms1 := s.reorderingConfirms1 - {end};
    forall e | e in confirms1 ensures ConfirmsAt(confirms1, e) {
      assert ConfirmsAt(s.reorderingConfirms1, e);
    }
  }

  /** Operations lo + 1 .. hi, in order. */
  function ReachRange(s: State, lo: nat, hi: nat): (r: State)
    requires WellFormed(s) && lo <= hi <= s.orderedNum
    ensures WellFormed(r)
    ensures r == s.(remoteConfirmedNums := r.remoteConfirmedNums, reorderingConfirms1 := r.reorderingConfirms1,
                    reorderingConfirms2 := r.reorderingConfirms2,
                    confirmedNum := r.confirmedNum, app := r.app, committed := r.committed,
                    sentReplies := r.sentReplies, status := r.status)
    decreases hi
  {
    if lo == hi then s else Reach(ReachRange(s, lo, hi - 1), hi)
  }

  function DoQuery(s: State): State {
    s.(sentQueries := s.sentQueries + [Query(s.orderedNum + 1, s.index)])
  }

  /** A request that is not the next one waits; too many waiting ones stop the replica. */
  function BufferRequest(s: State, opNum: nat, m: Message): (r: State)
    requires WellFormed(s)
    ensures WellFormed(r)
    ensures r == s.(reorderingRequests := s.reorderingRequests[opNum := m], status := r.status,
                    sentQueries := r.sentQueries)
  {
    var s1 := s.(reorderingRequests := s.reorderingRequests[opNum := m]);
    if |s1.reorderingRequests| >= QUERY_THRESHOLD + 1000 then s1.(status := Panicked(TooManyReordered))
    else if |s1.reorderingRequests| == QUERY_THRESHOLD then DoQuery(s1)
    else s1
  }

  /** The next request, and what waited for it, go onto the log; what they verify is acted upon. */
  function OrderRequest(s: State, m: Message): (r: State)
    requires WellFormed(s)
    ensures WellFormed(r) && Alike(s, r)
    ensures OrderingOf(r) == DrainRequests(Push(OrderingOf(s), m)) && r.seqNumOffset == s.seqNumOffset
  {
    var o := DrainRequests(Push(OrderingOf(s), m));
    LongerLog(s, WithLog(s, o));
    ReachRange(WithLog(s, o), s.verifiedNum, o.verifiedNum).(verifiedNum := o.verifiedNum)
  }

  function WithOffset(s: State, m: Message): (r: State)
    ensures WellFormed(s) ==> WellFormed(r)
    ensures r == s.(seqNumOffset := r.seqNumOffset) && r.seqNumOffset.Some?
  {
    if s.seqNumOffset.None? then s.(seqNumOffset := Some(m.seqNum)) else s
  }

  // ---------- handlers ----------

  function HandleRequest(s: State, m: Message): (r: State)
    requires WellFormed(s)
    ensures WellFormed(r) && Alike(s, r)
  {
    if s.status.Panicked? then s
    else
      var s1 := WithOffset(s, m);
      var opNum := OpNum(m.seqNum, s1.seqNumOffset.value);
      if opNum < s.orderedNum + 1 then s1
      else if opNum != s.orderedNum + 1 then BufferRequest(s1, opNum, m)
      else OrderRequest(s1, m)
  }

  function HandleConfirm(s: State, c: Confirm): (r: State)
    requires WellFormed(s)
    ensures WellFormed(r) && Alike(s, r)
  {
    if s.status.Panicked? then s
    else if !s.confirm then s.(status := Panicked(NotConfirming))
    else if c.end > s.orderedNum then
      BufferConfirm(s, c);
      s.(reorderingConfirms1 := Buffered1(s, c))
    else DoConfirm1(s, c)
  }

  function Buffered1(s: State, c: Confirm): map<nat, seq<Confirm>> {
    s.reorderingConfirms1[c.end := (if c.end in s.reorderingConfirms1 then s.reorderingConfirms1[c.end] else []) + [c]]
  }

  lemma BufferConfirm(s: State, c: Confirm)
    requires WellFormed(s)
    ensures WellFormed(s.(reorderingConfirms1 := Buffered1(s, c)))
  {
    forall e | e in Buffered1(s, c) ensures ConfirmsAt(Buffered1(s, c), e) {
      assert e in s.reorderingConfirms1 ==> ConfirmsAt(s.reorderingConfirms1, e);
    }
  }

  /** A replica's own confirm coming back. */
  function HandleLoopback(s: State, c: Confirm): (r: State)
    requires WellFormed(s) && c in s.sentConfirms
    ensures WellFormed(r) && Alike(s, r)
  {
    if s.status.Panicked? then s
    else
      var evicted := s.remoteConfirmedNums[s.index];
      var s1 := s.(remoteConfirmedNums := s.remoteConfirmedNums[s.index := c.end]);
      if evicted + 1 != c.start then s1.(status := Panicked(OwnConfirmSkips))
      else UpdateConfirmNum(s1)
  }

  function HandleQuery(s: State, q: Query): (r: State)
    requires WellFormed(s)
    ensures WellFormed(r) && r == s.(sentQueryOks := r.sentQueryOks, status := r.status)
  {
    if s.status.Panicked? then s
    else if q.opNum == 0 then s.(status := Panicked(RangeOutOfLog))
    else if q.opNum <= s.orderedNum then Answer(s, q, s.requests[q.opNum - 1])
    else if q.opNum in s.reorderingRequests then Answer(s, q, s.reorderingRequests[q.opNum])
    else s
  }

  function Answer(s: State, q: Query, m: Message): State {
    var m' := if m.signature.K256Unverified? then m.(signature := K256(m.signature.signature)) else m;
    s.(sentQueryOks := s.sentQueryOks + [(q.replica, QueryOk(q.opNum, m'))])
  }

  function HandleQueryOk(s: State, ok: QueryOk): (r: State)
    requires WellFormed(s)
    ensures WellFormed(r) && Alike(s, r)
  {
    if s.status.Panicked? || ok.opNum != s.orderedNum + 1 then s
    else
      var s1 := HandleRequest(s, ok.request);
      if s1.status.Running? && |s1.reorderingRequests| >= QUERY_THRESHOLD then DoQuery(s1) else s1
  }

  function OnPace(s: State): (r: State)
    requires WellFormed(s)
    ensures WellFormed(r) && Alike(s, r)
  {
    if s.status.Running? && s.confirm then DoSendConfirm(s) else s
  }
}
