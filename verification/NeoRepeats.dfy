/** When a Neo replica executes one request twice: `replies` is consulted but never filled. */
module NeoRepeats {
  // So a request that the sequencer stamped twice runs at both of its positions, with two results.

  import opened Blocks
  import opened Neo
  import opened NeoRuns
  import opened NeoLog

  ghost predicate SameRequest(a: Request, b: Request) {
    a.client == b.client && a.num == b.num
  }

  /** The first k positions of the log hold no request of a client twice. */
  ghost predicate NoRequestTwice(log: seq<Message>, k: nat)
    requires k <= |log|
  {
    forall i, j :: 0 <= i < j < k ==> !SameRequest(log[i].inner, log[j].inner)
  }

  /** No client is sent two results for one of its requests. */
  ghost predicate AnsweredOnce(replies: seq<(ClientIndex, Reply)>) {
    forall i, j :: 0 <= i < j < |replies| && replies[i].0 == replies[j].0 ==>
      replies[i].1.requestNum != replies[j].1.requestNum
  }

  ghost function ExecutedNum(s: State): nat {
    if s.confirm then s.confirmedNum else s.verifiedNum
  }

  /** In every run, every request is answered once exactly when the executed part of the log holds it once:
      nothing else filters repeats. Different positions get different results. */
  lemma AnsweredOnceIff(
      n: nat, f: nat, index: ReplicaIndex, confirm: bool, states: seq<State>, events: seq<Event>)
    requires f < n && index < n && IsRun(Init(n, f, index, confirm), states, events)
    ensures
      var s := states[|events|];
      && ExecutedNum(s) <= |s.requests|
      && (AnsweredOnce(s.sentReplies) <==> NoRequestTwice(s.requests, ExecutedNum(s)))
      && forall i, j :: 0 <= i < j < |s.sentReplies| ==> s.sentReplies[i].1.result != s.sentReplies[j].1.result
  {
    hide StepOf;
    CommitsInOrderOnce(n, f, index, confirm, states, events);
    ConfirmKept(n, f, index, confirm, states, events);
    var s := states[|events|];
    RepliesOnceIff(s, ExecutedNum(s));
  }

  lemma RepliesOnceIff(s: State, k: nat)
    requires ExecutedUpTo(s, k)
    ensures AnsweredOnce(s.sentReplies) <==> NoRequestTwice(s.requests, k)
    ensures forall i, j :: 0 <= i < j < |s.sentReplies| ==> s.sentReplies[i].1.result != s.sentReplies[j].1.result
  {
    var log, replies := s.requests, s.sentReplies;
    forall i: nat | i < k
      ensures replies[i].0 == log[i].inner.client && replies[i].1.requestNum == log[i].inner.num
      ensures |replies[i].1.result| == i + 1
    {
      assert replies[i] == ReplyAt(log, i, s.index);
    }
    if AnsweredOnce(replies) {
      forall i, j | 0 <= i < j < k ensures !SameRequest(log[i].inner, log[j].inner) {
        assert replies[i].0 == replies[j].0 ==> replies[i].1.requestNum != replies[j].1.requestNum;
      }
    }
    if NoRequestTwice(log, k) {
      forall i, j | 0 <= i < j < k && replies[i].0 == replies[j].0
        ensures replies[i].1.requestNum != replies[j].1.requestNum
      {
        assert !SameRequest(log[i].inner, log[j].inner);
      }
    }
  }

  /** A request stamped under two consecutive numbers, with two signatures that verify. */
  lemma StampedTwiceRunsTwice(n: nat, f: nat, index: ReplicaIndex, first: Message, second: Message)
    requires f < n && index < n && first.inner == second.inner && first.Verified() && second.Verified()
    requires second.seqNum == first.seqNum + 1
    ensures
      var s := HandleRequest(HandleRequest(Init(n, f, index, false), first), second);
      && s.status.Running? && s.sentReplies == [ReplyAt([first, second], 0, index), ReplyAt([first, second], 1, index)]
      && !AnsweredOnce(s.sentReplies)
  {
    hide HandleRequest, CommitOk, WellFormed;
    var s := Init(n, f, index, false);
    InitCommits(n, f, index, false);
    TakesNext(s, first);
    var s1 := HandleRequest(s, first);
    TakesNext(s1, second);
    var s2 := HandleRequest(s1, second);
    assert s2.requests == [first, second];
    assert ExecutedUpTo(s2, 2) by { CommitsVerified(s2); }
    assert s2.sentReplies == [ReplyAt(s2.requests, 0, index), ReplyAt(s2.requests, 1, index)];
  }

  lemma CommitsVerified(s: State)
    requires CommitOk(s) && !s.confirm
    ensures ExecutedUpTo(s, s.verifiedNum)
  {
  }

  /** A verified request with the next number is ordered and verifies the whole log. */
  lemma TakesNext(s: State, m: Message)
    requires WellFormed(s) && CommitOk(s) && s.status.Running? && !s.confirm && s.reorderingRequests == map[]
    requires s.verifiedNum == |s.requests| && m.Verified()
    requires s.seqNumOffset.None? ==> s.requests == []
    requires s.seqNumOffset.Some? ==> OpNum(m.seqNum, s.seqNumOffset.value) == |s.requests| + 1
    ensures
      var s' := HandleRequest(s, m);
      && WellFormed(s') && CommitOk(s') && s'.status.Running? && !s'.confirm && s'.reorderingRequests == map[]
      && s'.requests == s.requests + [m] && s'.verifiedNum == |s'.requests| && s'.index == s.index
      && s'.seqNumOffset == (if s.seqNumOffset.None? then Some(m.seqNum) else s.seqNumOffset)
  {
    hide CommitOk, ReachRange, DoCommit, BuffersOk, OwnConfirms, ExecutedUpTo, DoQuery;
    RequestCommits(s, m);
    var s1 := WithOffset(s, m);
    var o := Push(OrderingOf(s1), m);
    assert DrainRequests(o) == o;
    LongerLog(s1, WithLog(s1, o));
    ReachOne(WithLog(s1, o), s.verifiedNum);
  }

  lemma ReachOne(s: State, k: nat)
    requires WellFormed(s) && s.status.Running? && !s.confirm && k + 1 <= s.orderedNum
    ensures ReachRange(s, k, k + 1).status.Running?
  {
    hide WellFormed;
    assert ReachRange(s, k, k) == s;
  }

  lemma {:induction false} ConfirmKept(
      n: nat, f: nat, index: ReplicaIndex, confirm: bool, states: seq<State>, events: seq<Event>)
    requires f < n && index < n && IsRun(Init(n, f, index, confirm), states, events)
    ensures states[|events|].confirm == confirm
    decreases |events|
  {
    hide Handle;
    if events != [] {
      var last := |events| - 1;
      RunWithoutLast(Init(n, f, index, confirm), states, events);
      ConfirmKept(n, f, index, confirm, states[..last + 1], events[..last]);
      HandleKeepsMode(states[last], events[last]);
    }
  }

  lemma HandleKeepsMode(s: State, e: Event)
    requires WellFormed(s) && (e.OwnConfirmArrives? ==> e.own in s.sentConfirms)
    ensures Handle(s, e).confirm == s.confirm
  {
    hide WellFormed;
  }
}
