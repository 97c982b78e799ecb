/** One Neo replica over all runs: any interleaving of requests (lost, reordered, repeated or
    equivocated), confirms, queries and paces.

    Every handler keeps the verified prefix, the confirmation number and the execution of operations
    1, 2, … in order, once each. */
module NeoRuns {
  import opened Blocks
  import opened Neo
  import opened NeoConfirm

  datatype Event =
    | RequestArrives(message: Message)
    | ConfirmArrives(confirm: Confirm)
    | OwnConfirmArrives(own: Confirm)
    | QueryArrives(query: Query)
    | QueryOkArrives(queryOk: QueryOk)
    | Pace

  ghost function Handle(s: State, e: Event): (r: State)
    requires WellFormed(s) && (e.OwnConfirmArrives? ==> e.own in s.sentConfirms)
    ensures WellFormed(r) && Alike(s, r)
  {
    match e
    case RequestArrives(m) => HandleRequest(s, m)
    case ConfirmArrives(c) => HandleConfirm(s, c)
    case OwnConfirmArrives(c) => HandleLoopback(s, c)
    case QueryArrives(q) => HandleQuery(s, q)
    case QueryOkArrives(ok) => HandleQueryOk(s, ok)
    case Pace => OnPace(s)
  }

  // ---------- operations are committed in order, once each ----------

  function UpTo(k: nat): (r: seq<nat>)
    ensures |r| == k && forall i :: 0 <= i < k ==> r[i] == i + 1
  {
    seq(k, i requires 0 <= i < k => i + 1)
  }

  /** The answer to the operation at (zero-based) position i of the log. */
  function ReplyAt(log: seq<Message>, i: nat, index: ReplicaIndex): (ClientIndex, Reply)
    requires i < |log|
  {
    (log[i].inner.client, Reply(log[i].inner.num, Ran(Inner(log[..i + 1])), 0, log[i].seqNum, index))
  }

  /** Exactly the operations 1 .. k have been committed, in this order, and answered. */
  ghost predicate ExecutedUpTo(s: State, k: nat) {
    && s.replies == map[]
    && k <= |s.requests|
    && s.committed == UpTo(k)
    && s.app == Ran(Inner(s.requests[..k]))
    && |s.sentReplies| == k
    && forall i: nat :: i < k ==> s.sentReplies[i] == ReplyAt(s.requests, i, s.index)
  }

  lemma DoCommitExecutes(s: State, k: nat)
    requires ExecutedUpTo(s, k) && k < |s.requests|
    ensures ExecutedUpTo(DoCommit(s, k + 1), k + 1)
  {
    var log, s' := s.requests, DoCommit(s, k + 1);
    assert log[..k + 1] == log[..k] + [log[k]];
    var inner := Inner(log[..k + 1]);
    assert inner[..k] == Inner(log[..k]);
    forall i: nat | i < k + 1 ensures s'.sentReplies[i] == ReplyAt(log, i, s.index) {
      if i < k {
        assert s'.sentReplies[i] == s.sentReplies[i];
      }
    }
  }

  lemma {:induction false} CommitRangeExecutes(s: State, lo: nat, hi: nat)
    requires ExecutedUpTo(s, lo) && lo <= hi <= |s.requests|
    ensures ExecutedUpTo(CommitRange(s, lo, hi), hi)
    decreases hi
  {
    hide ExecutedUpTo, DoCommit;
    if lo < hi {
      CommitRangeExecutes(s, lo, hi - 1);
      DoCommitExecutes(CommitRange(s, lo, hi - 1), hi - 1);
    }
  }

  lemma ExecutedLonger(s: State, s': State, k: nat)
    requires ExecutedUpTo(s, k) && s.requests <= s'.requests
    requires s'.replies == s.replies && s'.committed == s.committed && s'.app == s.app
    requires s'.sentReplies == s.sentReplies && s'.index == s.index
    ensures ExecutedUpTo(s', k)
  {
    assert s'.requests[..k] == s.requests[..k];
    forall i: nat | i < k ensures s'.sentReplies[i] == ReplyAt(s'.requests, i, s'.index) {
      assert s'.requests[..i + 1] == s.requests[..i + 1];
    }
  }

  // ---------- confirm mode ----------

  /** The operations committed are those up to the confirmation number, which is the greatest one
      that n - f replicas have confirmed. */
  ghost predicate ConfirmedOk(s: State) {
    && WellFormed(s) && s.confirm
    && ExecutedUpTo(s, s.confirmedNum)
    && (s.status.Running? ==> s.confirmedNum == ConfirmedOf(s.remoteConfirmedNums, s.n, s.f))
    && s.status != Panicked(ConfirmGoesBack)
  }

  lemma RaiseKeeps(s: State, i: ReplicaIndex, end: nat)
    requires ConfirmedOk(s) && s.status.Running? && i in s.remoteConfirmedNums
    requires s.remoteConfirmedNums[i] <= end <= s.orderedNum
    ensures
      var s1 := s.(remoteConfirmedNums := s.remoteConfirmedNums[i := end]);
      WellFormed(s1) && ConfirmedOk(UpdateConfirmNum(s1))
  {
    hide ExecutedUpTo, ConfirmedOf, BuffersOk, OwnConfirms, CommitRange;
    var s1 := s.(remoteConfirmedNums := s.remoteConfirmedNums[i := end]);
    ExecutedLonger(s, s1, s.confirmedNum);
    ConfirmedOfGrows(s.remoteConfirmedNums, s1.remoteConfirmedNums, s.n, s.f);
    ConfirmedOfBounded(s1.remoteConfirmedNums, s.n, s.f, s.orderedNum);
    var k := ConfirmedOf(s1.remoteConfirmedNums, s.n, s.f);
    CommitRangeExecutes(s1, s.confirmedNum, k);
    ExecutedLonger(CommitRange(s1, s.confirmedNum, k), UpdateConfirmNum(s1), k);
  }

  lemma Confirm2Keeps(s: State, c: Confirm)
    requires WellFormed(s) && s.confirm && c.replica in s.remoteConfirmedNums
    requires ConfirmedOk(s) && s.status.Running?
    requires c.start == s.remoteConfirmedNums[c.replica] + 1
    ensures ConfirmedOk(DoConfirm2(s, c))
  {
    hide ConfirmedOf, BuffersOk, OwnConfirms, UpdateConfirmNum, Ran, UpTo, ReplyAt;
    if RangeInLog(c, |s.requests|) && Inner(s.requests[c.start - 1..c.end]) == c.digest {
      RaiseKeeps(s, c.replica, c.end);
    }
  }

  lemma WithoutStillOk(s: State, key: (ReplicaIndex, nat))
    requires ConfirmedOk(s) && WellFormed(Without2(s, key))
    ensures ConfirmedOk(Without2(s, key))
  {
  }

  lemma {:induction false} DrainConfirmsKeeps(s: State, i: ReplicaIndex)
    requires WellFormed(s) && s.confirm && i in s.remoteConfirmedNums && ConfirmedOk(s)
    ensures ConfirmedOk(DrainConfirms(s, i))
    decreases |s.reorderingConfirms2|
  {
    hide ConfirmedOk, DoConfirm2;
    var key := (i, s.remoteConfirmedNums[i] + 1);
    if s.status.Running? && key in s.reorderingConfirms2 {
      WithoutEarlyConfirm(s, key);
      assert EarlyConfirm(s.reorderingConfirms2, s.n, s.orderedNum, key);
      var s1 := Without2(s, key);
      WithoutStillOk(s, key);
      Confirm2Keeps(s1, s.reorderingConfirms2[key]);
      DrainConfirmsKeeps(DoConfirm2(s1, s.reorderingConfirms2[key]), i);
    }
  }

  lemma Confirm1Keeps(s: State, c: Confirm)
    requires ConfirmedOk(s) && c.end <= s.orderedNum
    ensures ConfirmedOk(DoConfirm1(s, c))
  {
    if s.status.Running? && c.replica in s.remoteConfirmedNums {
      if c.start == s.remoteConfirmedNums[c.replica] + 1 {
        Confirm2Keeps(s, c);
        DrainConfirmsKeeps(DoConfirm2(s, c), c.replica);
      }
    }
  }

  lemma {:induction false} ConfirmAllKeeps(s: State, confirms: seq<Confirm>)
    requires ConfirmedOk(s) && forall c :: c in confirms ==> c.end <= s.orderedNum
    ensures ConfirmedOk(ConfirmAll(s, confirms))
    decreases |confirms|
  {
    if confirms != [] {
      Confirm1Keeps(s, confirms[0]);
      ConfirmAllKeeps(DoConfirm1(s, confirms[0]), confirms[1..]);
    }
  }

  lemma ReachConfirms(s: State, opNum: nat)
    requires WellFormed(s) && s.confirm && ConfirmedOk(s) && 0 < opNum <= s.orderedNum
    ensures ConfirmedOk(Reach(s, opNum))
  {
    hide ExecutedUpTo, ConfirmedOf, ConfirmAll, BuffersOk, OwnConfirms;
    if s.status.Running? && opNum in s.reorderingConfirms1 {
      WithoutConfirms(s, opNum);
      SameConfirmed(s, Without1(s, opNum));
      ConfirmAllKeeps(Without1(s, opNum), s.reorderingConfirms1[opNum]);
    }
  }

  lemma SameConfirmed(s: State, s': State)
    requires ConfirmedOk(s) && WellFormed(s') && s' == s.(reorderingConfirms1 := s'.reorderingConfirms1)
    ensures ConfirmedOk(s')
  {
  }

  lemma {:induction false} ReachRangeConfirms(s: State, lo: nat, hi: nat)
    requires WellFormed(s) && s.confirm && ConfirmedOk(s) && lo <= hi <= s.orderedNum
    ensures ConfirmedOk(ReachRange(s, lo, hi))
    decreases hi
  {
    hide ConfirmedOk, WellFormed, Reach;
    if lo < hi {
      ReachRangeConfirms(s, lo, hi - 1);
      ReachConfirms(ReachRange(s, lo, hi - 1), hi);
    }
  }

  // ---------- without confirm mode ----------

  lemma {:induction false} ReachRangeExecutes(s: State, lo: nat, hi: nat)
    requires WellFormed(s) && !s.confirm && s.status.Running? && ExecutedUpTo(s, lo) && lo <= hi <= s.orderedNum
    ensures ExecutedUpTo(ReachRange(s, lo, hi), hi) && ReachRange(s, lo, hi).status.Running?
    decreases hi
  {
    hide ExecutedUpTo, BuffersOk, OwnConfirms, DoCommit;
    if lo < hi {
      ReachRangeExecutes(s, lo, hi - 1);
      DoCommitExecutes(ReachRange(s, lo, hi - 1), hi - 1);
    }
  }

  // ---------- the verified prefix ----------

  /** The last position of the log holding a verified message, 0 if there is none. */
  function LastVerified(log: seq<Message>): (k: nat)
    ensures k <= |log|
    ensures k > 0 ==> log[k - 1].Verified()
    ensures forall i :: k <= i < |log| ==> !log[i].Verified()
  {
    if log == [] then 0
    else if log[|log| - 1].Verified() then |log|
    else LastVerified(log[..|log| - 1])
  }

  lemma PushVerified(o: Ordering, m: Message)
    requires o.verifiedNum == LastVerified(o.log)
    ensures Push(o, m).verifiedNum == LastVerified(Push(o, m).log)
  {
    assert (o.log + [m])[..|o.log|] == o.log;
  }

  lemma {:induction false} DrainVerified(o: Ordering)
    requires o.verifiedNum == LastVerified(o.log)
    ensures DrainRequests(o).verifiedNum == LastVerified(DrainRequests(o).log)
    decreases |o.buffered|
  {
    var next := |o.log| + 1;
    if next in o.buffered {
      FewerRequests(o.buffered, next);
      var o1 := o.(buffered := o.buffered - {next});
      PushVerified(o1, o.buffered[next]);
      DrainVerified(Push(o1, o.buffered[next]));
    }
  }

  // ---------- the invariant ----------

  ghost predicate CommitOk(s: State) {
    && WellFormed(s)
    && s.verifiedNum == LastVerified(s.requests)
    && (s.confirm ==> ConfirmedOk(s))
    && (!s.confirm ==> ExecutedUpTo(s, s.verifiedNum))
    && s.status != Panicked(ConfirmGoesBack)
  }

  lemma InitCommits(n: nat, f: nat, index: ReplicaIndex, confirm: bool)
    requires f < n && index < n
    ensures WellFormed(Init(n, f, index, confirm)) && CommitOk(Init(n, f, index, confirm))
  {
    hide SortUnstable, Values;
    var s := Init(n, f, index, confirm);
    if confirm {
      ConfirmedOfBounded(s.remoteConfirmedNums, n, f, 0);
    }
    assert Inner(s.requests[..0]) == [];
  }

  lemma OrderRequestCommits(s: State, m: Message)
    requires CommitOk(s) && s.status.Running?
    ensures CommitOk(OrderRequest(s, m))
  {
    hide ExecutedUpTo, ConfirmedOf, DrainRequests, ReachRange, LastVerified, BuffersOk, OwnConfirms;
    var o0 := Push(OrderingOf(s), m);
    PushVerified(OrderingOf(s), m);
    DrainVerified(o0);
    var o := DrainRequests(o0);
    var s1 := WithLog(s, o);
    LongerLog(s, s1);
    if s.confirm {
      ExecutedLonger(s, s1, s.confirmedNum);
      ReachRangeConfirms(s1, s.verifiedNum, o.verifiedNum);
      ConfirmedRaised(ReachRange(s1, s.verifiedNum, o.verifiedNum), o.verifiedNum);
    } else {
      ExecutedLonger(s, s1, s.verifiedNum);
      ReachRangeExecutes(s1, s.verifiedNum, o.verifiedNum);
      var s2 := ReachRange(s1, s.verifiedNum, o.verifiedNum);
      ExecutedLonger(s2, s2.(verifiedNum := o.verifiedNum), o.verifiedNum);
    }
  }

  lemma ConfirmedRaised(s: State, verifiedNum: nat)
    requires ConfirmedOk(s) && verifiedNum <= s.orderedNum
    ensures ConfirmedOk(s.(verifiedNum := verifiedNum))
  {
  }

  /** Steps that leave the log, the confirmations and the application alone. */
  ghost predicate NoCommit(s: State, s': State) {
    && WellFormed(s')
    && s'.n == s.n && s'.f == s.f && s'.index == s.index && s'.confirm == s.confirm
    && s'.requests == s.requests && s'.verifiedNum == s.verifiedNum
    && s'.replies == s.replies && s'.app == s.app && s'.committed == s.committed && s'.sentReplies == s.sentReplies
    && s'.confirmedNum == s.confirmedNum && s'.remoteConfirmedNums == s.remoteConfirmedNums
    && (s'.status.Running? ==> s.status.Running?) && s'.status != Panicked(ConfirmGoesBack)
  }

  lemma NoCommitKeeps(s: State, s': State)
    requires CommitOk(s) && NoCommit(s, s')
    ensures CommitOk(s')
  {
  }

  lemma OffsetQuiet(s: State, m: Message)
    requires WellFormed(s) && s.status.Running?
    ensures NoCommit(s, WithOffset(s, m))
  {
  }

  lemma BufferQuiet(s: State, opNum: nat, m: Message)
    requires WellFormed(s) && s.status.Running?
    ensures NoCommit(s, BufferRequest(s, opNum, m))
  {
  }

  lemma QueryQuiet(s: State, q: Query)
    requires WellFormed(s) && s.status != Panicked(ConfirmGoesBack)
    ensures NoCommit(s, HandleQuery(s, q))
  {
  }

  lemma PaceQuiet(s: State)
    requires WellFormed(s) && s.status != Panicked(ConfirmGoesBack)
    ensures NoCommit(s, OnPace(s))
  {
  }

  lemma RequestCommits(s: State, m: Message)
    requires WellFormed(s) && CommitOk(s)
    ensures CommitOk(HandleRequest(s, m))
  {
    hide CommitOk, NoCommit, OrderRequest, BufferRequest;
    if s.status.Running? {
      var s1 := WithOffset(s, m);
      OffsetQuiet(s, m);
      NoCommitKeeps(s, s1);
      var opNum := OpNum(m.seqNum, s1.seqNumOffset.value);
      if opNum == s.orderedNum + 1 {
        OrderRequestCommits(s1, m);
      } else if opNum > s.orderedNum + 1 {
        BufferQuiet(s1, opNum, m);
        NoCommitKeeps(s1, BufferRequest(s1, opNum, m));
      }
    }
  }

  lemma ConfirmCommits(s: State, c: Confirm)
    requires CommitOk(s)
    ensures CommitOk(HandleConfirm(s, c))
  {
    if s.status.Running? && s.confirm && c.end <= s.orderedNum {
      Confirm1Keeps(s, c);
    } else {
      NoCommitKeeps(s, HandleConfirm(s, c));
    }
  }

  lemma LoopbackCommits(s: State, c: Confirm)
    requires CommitOk(s) && c in s.sentConfirms
    ensures CommitOk(HandleLoopback(s, c))
  {
    hide ConfirmedOf, BuffersOk, LastVerified, ReplyAt, UpTo;
    if s.status.Running? && s.remoteConfirmedNums[s.index] + 1 == c.start {
      RaiseKeeps(s, s.index, c.end);
    }
  }

  lemma QueryOkCommits(s: State, ok: QueryOk)
    requires WellFormed(s) && CommitOk(s)
    ensures CommitOk(HandleQueryOk(s, ok))
  {
    hide CommitOk, HandleRequest;
    if s.status.Running? && ok.opNum == s.orderedNum + 1 {
      RequestCommits(s, ok.request);
      NotGoneBack(HandleRequest(s, ok.request));
      NoCommitKeeps(HandleRequest(s, ok.request), HandleQueryOk(s, ok));
    }
  }

  lemma NotGoneBack(s: State)
    requires CommitOk(s)
    ensures WellFormed(s) && s.status != Panicked(ConfirmGoesBack)
  {
  }

  lemma HandleCommits(s: State, e: Event)
    requires CommitOk(s) && (e.OwnConfirmArrives? ==> e.own in s.sentConfirms)
    ensures CommitOk(Handle(s, e))
  {
    hide CommitOk, NoCommit, HandleRequest, HandleConfirm, HandleLoopback, HandleQuery, HandleQueryOk, OnPace, WellFormed;
    NotGoneBack(s);
    match e
    case RequestArrives(m) => RequestCommits(s, m);
    case ConfirmArrives(c) => ConfirmCommits(s, c);
    case OwnConfirmArrives(c) => LoopbackCommits(s, c);
    case QueryArrives(q) =>
      QueryQuiet(s, q);
      NoCommitKeeps(s, HandleQuery(s, q));
    case QueryOkArrives(ok) => QueryOkCommits(s, ok);
    case Pace =>
      PaceQuiet(s);
      NoCommitKeeps(s, OnPace(s));
  }
}
