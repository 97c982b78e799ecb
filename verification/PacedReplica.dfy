/** The delegate in front of a Neo replica that does not wait for confirms: when every message is signed
    and arrives in order, the replica has committed all of them after each pace. */
module PacedReplica {
  import opened Blocks
  import opened Neo
  import opened NeoRuns
  import Delegates

  type Events = seq<Delegates.Event<Request>>
  type Deliveries = seq<Delegates.Delivery<Request>>

  /** The replica after it has handled what the delegate passed on. */
  function Fed(start: State, passed: Deliveries): (s: State)
    requires WellFormed(start)
    ensures WellFormed(s)
  {
    if passed == [] then start
    else HandleRequest(Fed(start, passed[..|passed| - 1]), passed[|passed| - 1].message)
  }

  /** Every message is signed, and they carry consecutive numbers from `first` on. */
  ghost predicate InOrder(taken: Deliveries, first: nat) {
    && first < 0x1_0000_0000 && |taken| < 0x1_0000_0000
    && forall k :: 0 <= k < |taken| ==>
         taken[k].message.signature.K256? && taken[k].message.seqNum == (first + k) % 0x1_0000_0000
  }

  /** The log is made of the first messages taken in; nothing waits for another. */
  ghost predicate LogIs(s: State, taken: Deliveries, first: nat) {
    && CommitOk(s) && !s.confirm && s.status.Running?
    && s.reorderingRequests == map[]
    && s.seqNumOffset == (if s.requests == [] then None else Some(first))
    && |s.requests| <= |taken|
    && forall j :: 0 <= j < |s.requests| ==> s.requests[j].inner == taken[j].message.inner
  }

  /** One more message than the log is held back, and it is the last one; or none is, and the log is
      verified up to its end. */
  ghost predicate HeldIsLast(saved: Option<Delegates.Delivery<Request>>, s: State, taken: Deliveries) {
    match saved
    case Some(d) => |s.requests| + 1 == |taken| && d == taken[|taken| - 1]
    case None => |s.requests| == |taken| == s.verifiedNum
  }

  lemma NextOpNum(first: nat, k: nat)
    requires first < 0x1_0000_0000 && k + 1 < 0x1_0000_0000
    ensures OpNum((first + k) % 0x1_0000_0000, first) == k + 1
  {
    if first + k >= 0x1_0000_0000 {
      assert (first + k) % 0x1_0000_0000 == first + k - 0x1_0000_0000;
    }
  }

  /** A message with the next number goes straight onto the log. */
  lemma NextIsLogged(s: State, m: Message, first: nat)
    requires WellFormed(s) && CommitOk(s) && !s.confirm && s.status.Running? && s.reorderingRequests == map[]
    requires s.seqNumOffset == if s.requests == [] then None else Some(first)
    requires s.requests == [] ==> m.seqNum == first
    requires OpNum(m.seqNum, first) == |s.requests| + 1
    ensures
      var r := HandleRequest(s, m);
      && CommitOk(r) && !r.confirm && r.status.Running? && r.reorderingRequests == map[]
      && r.seqNumOffset == Some(first) && r.requests == s.requests + [m]
      && (m.Verified() ==> r.verifiedNum == |r.requests|)
  {
    hide OpNum, CommitOk, ExecutedUpTo, BuffersOk, OwnConfirms, ReachRange;
    RequestCommits(s, m);
    var s1 := WithOffset(s, m);
    var o := Push(OrderingOf(s1), m);
    assert DrainRequests(o) == o;
    OffsetQuiet(s, m);
    NoCommitKeeps(s, s1);
    NextRuns(s1, m);
  }

  lemma NextRuns(s: State, m: Message)
    requires WellFormed(s) && CommitOk(s) && !s.confirm && s.status.Running?
    ensures OrderRequest(s, m).status.Running?
  {
    var o := DrainRequests(Push(OrderingOf(s), m));
    LongerLog(s, WithLog(s, o));
    ExecutedLonger(s, WithLog(s, o), s.verifiedNum);
    ReachRangeExecutes(WithLog(s, o), s.verifiedNum, o.verifiedNum);
  }

  /** Feeding the message that follows the log. */
  lemma FeedNext(s: State, taken: Deliveries, first: nat, m: Message)
    requires InOrder(taken, first) && LogIs(s, taken, first) && |s.requests| < |taken|
    requires m == taken[|s.requests|].message || m == Delegates.Unchecked(taken[|s.requests|]).message
    ensures
      var r := HandleRequest(s, m);
      && LogIs(r, taken, first) && |r.requests| == |s.requests| + 1
      && (m.Verified() ==> r.verifiedNum == |r.requests|)
  {
    hide HandleRequest, OpNum, ExecutedUpTo, LastVerified;
    var k := |s.requests|;
    NextOpNum(first, k);
    NextIsLogged(s, m, first);
  }

  lemma LongerTaken(s: State, taken: Deliveries, more: Deliveries, first: nat)
    requires LogIs(s, taken, first) && taken <= more
    ensures LogIs(s, more, first)
  {
    hide CommitOk;
  }

  lemma TakenMore(events: Events)
    requires events != []
    ensures
      var e := events[|events| - 1];
      Delegates.TakenOf(events) == Delegates.TakenOf(events[..|events| - 1])
        + if e.Takes? then [Delegates.Delivery(e.remote, e.message)] else []
  {
  }

  lemma FedMore(start: State, passed: Deliveries, o: Option<Delegates.Delivery<Request>>)
    requires WellFormed(start)
    ensures Fed(start, passed + Delegates.AsSeq(o)) ==
            if o.Some? then HandleRequest(Fed(start, passed), o.value.message) else Fed(start, passed)
  {
    if o.Some? {
      assert (passed + [o.value])[..|passed|] == passed;
    } else {
      assert passed + [] == passed;
    }
  }

  lemma InitLog(n: nat, f: nat, index: ReplicaIndex, first: nat)
    requires f < n && index < n
    ensures WellFormed(Init(n, f, index, false)) && LogIs(Init(n, f, index, false), [], first)
  {
    assert Inner([]) == [];
  }

  lemma {:induction false} PacedInvariant(n: nat, f: nat, index: ReplicaIndex, events: Events, first: nat)
    requires f < n && index < n && Delegates.Signed(events) && InOrder(Delegates.TakenOf(events), first)
    ensures
      var (d, passed) := Delegates.Run(events);
      var taken := Delegates.TakenOf(events);
      && WellFormed(Init(n, f, index, false))
      && LogIs(Fed(Init(n, f, index, false), passed), taken, first)
      && HeldIsLast(d.saved, Fed(Init(n, f, index, false), passed), taken)
    decreases |events|
  {
    hide HandleRequest, CommitOk, WellFormed, LogIs, InOrder, Fed;
    var start := Init(n, f, index, false);
    InitLog(n, f, index, first);
    if events == [] {
      FedNone(start);
      assert start.verifiedNum == 0;
    } else {
      var last := |events| - 1;
      TakenMore(events);
      var taken := Delegates.TakenOf(events);
      SignedLast(events, taken, first);
      InOrderPrefix(taken, Delegates.TakenOf(events[..last]), first);
      PacedInvariant(n, f, index, events[..last], first);
      var (d, passed) := Delegates.Run(events[..last]);
      var more := Delegates.Step(d, events[last]).1;
      var s := Fed(start, passed);
      FedMore(start, passed, more);
      LongerTaken(s, Delegates.TakenOf(events[..last]), taken, first);
      if more.Some? {
        FeedNext(s, taken, first, more.value.message);
      }
    }
  }

  lemma FedNone(start: State)
    requires WellFormed(start)
    ensures Fed(start, []) == start
  {
  }

  lemma InOrderPrefix(taken: Deliveries, shorter: Deliveries, first: nat)
    requires InOrder(taken, first) && shorter <= taken
    ensures InOrder(shorter, first)
  {
  }

  lemma SignedLast(events: Events, taken: Deliveries, first: nat)
    requires events != [] && taken == Delegates.TakenOf(events) && InOrder(taken, first)
    ensures events[|events| - 1].Takes? ==> events[|events| - 1].message.Verified()
  {
    TakenMore(events);
    if events[|events| - 1].Takes? {
      assert taken[|taken| - 1].message == events[|events| - 1].message;
    }
  }

  /** If every message is signed and taken in in order, then after each pace the replica has committed the
      requests of all messages taken in so far, in order and once each. */
  lemma CommitsAllAfterPace(n: nat, f: nat, index: ReplicaIndex, events: Events, first: nat)
    requires f < n && index < n && Delegates.Signed(events) && InOrder(Delegates.TakenOf(events), first)
    requires events != [] && events[|events| - 1] == Delegates.Paces
    ensures
      var taken := Delegates.TakenOf(events);
      var s := Fed(Init(n, f, index, false), Delegates.Run(events).1);
      && s.status.Running? && |s.requests| == |taken|
      && (forall j :: 0 <= j < |taken| ==> s.requests[j].inner == taken[j].message.inner)
      && ExecutedUpTo(s, |taken|)
  {
    PacedInvariant(n, f, index, events, first);
  }
}
