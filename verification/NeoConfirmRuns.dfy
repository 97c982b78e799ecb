/** Neo in confirm mode with n correct replicas whose logs agree, over all runs. */
module NeoConfirmRuns {
  // Each confirm reaches each replica at most once, in any order. No assertion about confirms fails, every
  // replica's own confirms partition its log with at most one in flight, and what it records of another
  // replica advances over that replica's confirms without a gap.

  import opened Blocks
  import opened Neo
  import opened NeoRuns
  import opened NeoBuffers
  import opened NeoConfirmNet

  /** What s records of replica q is the end of one of its confirms, all up to it have been received, and
      the next one, if received, waits only for the log to be verified up to its end. */
  ghost predicate NoGap(s: State, sent: set<Confirm>, received: set<Confirm>, q: ReplicaIndex) {
    && q in s.remoteConfirmedNums
    && EndOfOne(sent, q, s.remoteConfirmedNums[q])
    && (forall m :: m in sent && m.replica == q && m.end <= s.remoteConfirmedNums[q] ==> m in received)
    && (forall m :: m in received && m.replica == q && m.start == s.remoteConfirmedNums[q] + 1 ==>
          WaitsForLog(s.reorderingConfirms1, m))
  }

  lemma NextWaitsForLog(s: State, sent: set<Confirm>, received: set<Confirm>, q: ReplicaIndex)
    requires Receives(s, sent, received) && AllSettled(s) && Disjoint(sent) && q < s.n && q != s.index
    ensures NoGap(s, sent, received, q)
  {
    hide Buffer1Ok, Buffer2Ok, EndOfOne, WaitsForLog;
    assert Settled(s, q);
  }

  lemma ReplicaFacts(
      n: nat, f: nat, r: ReplicaIndex, s: State, sent: set<Confirm>, received: set<Confirm>, back: set<Confirm>,
      stream: nat -> Request)
    requires ReplicaOk(n, f, r, s, sent, received, back, stream) && SentOk(n, r, stream, sent)
    ensures s.status == Running || s.status == Panicked(TooManyReordered)
    ensures Contiguous(s.sentConfirms, r, s.localConfirmedNum) && s.localConfirmedNum <= s.orderedNum
    ensures s.status == Running ==>
              && OwnOk(s, back) && ExecutedUpTo(s, s.confirmedNum)
              && forall q: ReplicaIndex :: q < n && q != r ==> NoGap(s, sent, received, q)
  {
    hide Contiguous, OwnOk, ExecutedUpTo, BuffersOk, OwnConfirms, NoGap, Receives, AllSettled, SentOk, Follows, Signs;
    if s.status == Running {
      SentDisjoint(n, r, stream, sent);
      forall q: ReplicaIndex | q < n && q != r ensures NoGap(s, sent, received, q) {
        NextWaitsForLog(s, sent, received, q);
      }
    }
  }

  /** Over every run: none of the assertions and lookups about confirms ever fails, so that a replica stops
      only on too many requests out of order; its own confirms cover its log from 1 on without gap or
      overlap, with at most one in flight; and what it records of each other replica has no gap. */
  lemma ConfirmsNeverFail(n: nat, f: nat, stream: nat -> Request, run: seq<Net>, r: ReplicaIndex)
    requires f < n && r < n && IsRun(n, f, stream, run)
    ensures
      var net := run[|run| - 1];
      && Hosts(net, r)
      && var s, sent := net.states[r], SentByOthers(net.states, r);
      && (s.status == Running || s.status == Panicked(TooManyReordered))
      && Contiguous(s.sentConfirms, r, s.localConfirmedNum) && s.localConfirmedNum <= s.orderedNum
      && (s.status == Running ==>
            && OwnOk(s, net.back[r])
            && ExecutedUpTo(s, s.confirmedNum)
            && forall q: ReplicaIndex :: q < n && q != r ==> NoGap(s, sent, net.received[r], q))
  {
    hide Next, Contiguous, OwnOk, ExecutedUpTo, BuffersOk, OwnConfirms, NoGap, ReplicaOk, SentByOthers, Agreeing,
      SentOk, SendersOk;
    RunInv(n, f, stream, run);
    var net := run[|run| - 1];
    var s, sent := net.states[r], SentByOthers(net.states, r);
    assert ReplicaOk(n, f, r, s, sent, net.received[r], net.back[r], stream);
    InvSenders(n, f, stream, net);
    OthersOk(n, net.states, stream, r);
    ReplicaFacts(n, f, r, s, sent, net.received[r], net.back[r], stream);
  }
}
