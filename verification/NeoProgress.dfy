/** What Neo replicas in confirm mode must do: confirm, count and execute as soon as nothing is missing. */
module NeoProgress {
  // At a pace a replica confirms everything new unless a confirm of its own is in flight; a confirm waits only for a
  // log that is not verified up to its end; and what n - f replicas have confirmed to a replica is executed by it.

  import opened Blocks
  import opened Quorums
  import opened Neo
  import opened NeoConfirm
  import opened NeoRuns
  import opened NeoBuffers
  import opened NeoConfirmNet
  import opened NeoConfirmRuns

  // ---------- confirms wait for the verified prefix only ----------

  ghost predicate AllBeyond(confirms1: map<nat, seq<Confirm>>, k: nat) {
    forall e :: e in confirms1 ==> e > k
  }

  /** A running replica has released every confirm whose end is verified. */
  ghost predicate WaitsUnverified(s: State) {
    s.status.Running? ==> AllBeyond(s.reorderingConfirms1, s.verifiedNum) && (s.confirm || s.reorderingConfirms1 == map[])
  }

  lemma {:induction false} ReachRangeReleases(s: State, lo: nat, hi: nat)
    requires WellFormed(s) && lo <= hi <= s.orderedNum && AllBeyond(s.reorderingConfirms1, lo)
    requires s.confirm || s.reorderingConfirms1 == map[]
    ensures
      var r := ReachRange(s, lo, hi);
      r.status.Running? ==> AllBeyond(r.reorderingConfirms1, hi) && (s.confirm || r.reorderingConfirms1 == map[])
    decreases hi
  {
    hide WellFormed, DoCommit, ConfirmAll;
    if lo < hi {
      ReachRangeReleases(s, lo, hi - 1);
      ReachReleases(ReachRange(s, lo, hi - 1), hi);
    }
  }

  lemma ReachReleases(s: State, opNum: nat)
    requires WellFormed(s) && 0 < opNum <= s.orderedNum
    ensures
      var r := Reach(s, opNum);
      r.status.Running? ==>
        && s.status.Running?
        && r.reorderingConfirms1 == if s.confirm then s.reorderingConfirms1 - {opNum} else s.reorderingConfirms1
  {
    hide WellFormed, DoCommit, ConfirmAll;
  }

  lemma OrderRequestReleases(s: State, m: Message)
    requires WellFormed(s) && s.status.Running? && WaitsUnverified(s)
    ensures WaitsUnverified(OrderRequest(s, m))
  {
    hide WellFormed, DrainRequests, ReachRange;
    assert WellFormed(s) && s.verifiedNum <= |s.requests| by { VerifiedIsOrdered(s); }
    var o := DrainRequests(Push(OrderingOf(s), m));
    var s1 := WithLog(s, o);
    LongerLog(s, s1);
    ReachRangeReleases(s1, s.verifiedNum, o.verifiedNum);
  }

  lemma VerifiedIsOrdered(s: State)
    requires WellFormed(s)
    ensures s.verifiedNum <= |s.requests| == s.orderedNum
  {
  }

  lemma RequestReleases(s: State, m: Message)
    requires WellFormed(s) && WaitsUnverified(s)
    ensures WaitsUnverified(HandleRequest(s, m))
  {
    hide WellFormed, OrderRequest, AllBeyond, OpNum;
    if s.status.Running? && OpNum(m.seqNum, WithOffset(s, m).seqNumOffset.value) == s.orderedNum + 1 {
      OrderRequestReleases(WithOffset(s, m), m);
    }
  }

  lemma ConfirmReleases(s: State, c: Confirm)
    requires WellFormed(s) && WaitsUnverified(s)
    ensures WaitsUnverified(HandleConfirm(s, c))
  {
    hide WellFormed, DoConfirm1;
    VerifiedIsOrdered(s);
    Confirm1Keeps1(s, c);
  }

  lemma Confirm1Keeps1(s: State, c: Confirm)
    requires WellFormed(s)
    ensures s.confirm && c.end <= s.orderedNum ==>
              var r := DoConfirm1(s, c);
              && r.reorderingConfirms1 == s.reorderingConfirms1 && r.verifiedNum == s.verifiedNum
              && r.confirm == s.confirm && (s.status.Panicked? ==> r.status.Panicked?)
  {
    hide WellFormed, DrainConfirms;
  }

  lemma HandleReleases(s: State, e: Event)
    requires WellFormed(s) && (e.OwnConfirmArrives? ==> e.own in s.sentConfirms) && WaitsUnverified(s)
    ensures WaitsUnverified(Handle(s, e))
  {
    hide WellFormed, HandleRequest, HandleConfirm, AllBeyond, UpdateConfirmNum;
    match e
    case RequestArrives(m) => RequestReleases(s, m);
    case ConfirmArrives(c) => ConfirmReleases(s, c);
    case OwnConfirmArrives(c) => LoopbackReleases(s, c);
    case QueryArrives(q) =>
    case QueryOkArrives(ok) => RequestReleases(s, ok.request);
    case Pace =>
      if s.status.Running? && s.confirm {
        PaceKeeps1(s);
      }
  }

  lemma LoopbackReleases(s: State, c: Confirm)
    requires WellFormed(s) && c in s.sentConfirms && WaitsUnverified(s)
    ensures WaitsUnverified(HandleLoopback(s, c))
  {
    hide AllBeyond, ConfirmedOf, BuffersOk;
  }

  lemma PaceKeeps1(s: State)
    requires WellFormed(s) && s.confirm
    ensures
      var r := DoSendConfirm(s);
      && r.reorderingConfirms1 == s.reorderingConfirms1 && r.verifiedNum == s.verifiedNum && r.confirm
      && r.status == s.status
  {
    hide BuffersOk;
  }

  ghost predicate AllReleased(net: Net) {
    forall r :: r in net.states ==> WaitsUnverified(net.states[r])
  }

  lemma StepReleases(net: Net, net': Net, stream: nat -> Request)
    requires AllReleased(net) && Next(net, net', stream)
    ensures AllReleased(net')
  {
    hide WaitsUnverified, Handle, WellFormed, Agreeing;
    var r, e :| StepBy(net, net', r, e);
    HandleReleases(net.states[r], e);
  }

  lemma {:induction false} RunReleases(n: nat, f: nat, stream: nat -> Request, run: seq<Net>)
    requires IsRun(n, f, stream, run)
    ensures AllReleased(run[|run| - 1])
    decreases |run|
  {
    hide Next, AllReleased;
    if |run| == 1 {
      assert AllReleased(run[0]) by { StartReleased(n, f); }
    } else {
      var shorter := run[..|run| - 1];
      forall i | 0 <= i < |shorter| - 1 ensures Next(shorter[i], shorter[i + 1], stream) {
        assert Next(run[i], run[i + 1], stream);
      }
      RunReleases(n, f, stream, shorter);
      assert Next(run[|run| - 2], run[|run| - 1], stream);
      StepReleases(run[|run| - 2], run[|run| - 1], stream);
    }
  }

  lemma StartReleased(n: nat, f: nat)
    ensures AllReleased(InitNet(n, f))
  {
  }

  // ---------- what is confirmed to a replica ----------

  /** Replica q has confirmed operations up to k or more, and all its confirms up to some such end have reached s, whose
      log is verified that far. */
  ghost predicate ConfirmedTo(net: Net, r: ReplicaIndex, q: ReplicaIndex, k: nat)
    requires Hosts(net, r)
  {
    exists m :: ConfirmedWith(net, r, q, k, m)
  }

  ghost predicate ConfirmedWith(net: Net, r: ReplicaIndex, q: ReplicaIndex, k: nat, m: Confirm)
    requires Hosts(net, r)
  {
    && q in net.states && m in net.states[q].sentConfirms && k <= m.end
    && (q == r ==> m in net.back[r])
    && (q != r ==>
          && m.end <= net.states[r].verifiedNum
          && forall m' :: m' in net.states[q].sentConfirms && m'.end <= m.end ==> m' in net.received[r])
  }

  lemma SentInSent(net: Net, r: ReplicaIndex, q: ReplicaIndex, m: Confirm)
    requires q in net.states && q != r && m in net.states[q].sentConfirms
    ensures m in SentByOthers(net.states, r)
  {
  }

  /** Of confirms without gap, the one after an earlier end starts there and ends no later. */
  lemma NextConfirm(sent: seq<Confirm>, q: ReplicaIndex, local: nat, end: nat, m: Confirm) returns (m': Confirm)
    requires Contiguous(sent, q, local) && m in sent && end < m.end
    requires end == 0 || exists i :: 0 <= i < |sent| && sent[i].end == end
    ensures m' in sent && m'.replica == q && m'.start == end + 1 && m'.end <= m.end
  {
    var k: nat :| k < |sent| && sent[k] == m;
    if end == 0 {
      assert StartsAfter(sent, q, 0) && StartsAfter(sent, q, k);
      m' := sent[0];
      if k > 0 {
        ContiguousOrder(sent, q, local, 0, k);
      }
    } else {
      var i: nat :| i < |sent| && sent[i].end == end;
      assert StartsAfter(sent, q, i) && StartsAfter(sent, q, k);
      if k < i {
        ContiguousOrder(sent, q, local, k, i);
        assert false;
      }
      assert i + 1 <= k;
      assert StartsAfter(sent, q, i + 1);
      m' := sent[i + 1];
      if i + 1 < k {
        ContiguousOrder(sent, q, local, i + 1, k);
      }
    }
  }

  /** The facts about a running replica that matter here. */
  lemma RunningFacts(n: nat, f: nat, stream: nat -> Request, run: seq<Net>, r: ReplicaIndex)
    requires f < n && r < n && IsRun(n, f, stream, run)
    requires r in run[|run| - 1].states && run[|run| - 1].states[r].status.Running?
    ensures
      var net := run[|run| - 1];
      var s := net.states[r];
      && Hosts(net, r) && WellFormed(s) && ConfirmedOk(s) && s.n == n && s.f == f && s.index == r && s.confirm
      && net.states.Keys == Replicas(n) && WaitsUnverified(s)
  {
    hide Next, ConfirmedOk, SenderOk, Receives, AllSettled, OwnOk, Follows, WaitsUnverified;
    RunInv(n, f, stream, run);
    RunReleases(n, f, stream, run);
    var net := run[|run| - 1];
    assert ReplicaOk(n, f, r, net.states[r], SentByOthers(net.states, r), net.received[r], net.back[r], stream);
  }

  lemma SendsContiguous(n: nat, f: nat, stream: nat -> Request, run: seq<Net>, q: ReplicaIndex)
    requires f < n && q < n && IsRun(n, f, stream, run)
    ensures
      var net := run[|run| - 1];
      q in net.states && Contiguous(net.states[q].sentConfirms, q, net.states[q].localConfirmedNum)
  {
    hide Next, Contiguous;
    ConfirmsNeverFail(n, f, stream, run, q);
  }

  lemma EntryOfSent(net: Net, r: ReplicaIndex, q: ReplicaIndex, end: nat)
    requires EndOfOne(SentByOthers(net.states, r), q, end) && q in net.states && q != r
    requires forall p :: p in net.states ==> forall m :: m in net.states[p].sentConfirms ==> m.replica == p
    ensures end == 0 || exists i :: 0 <= i < |net.states[q].sentConfirms| && net.states[q].sentConfirms[i].end == end
  {
    if end != 0 {
      var m :| m in SentByOthers(net.states, r) && m.replica == q && m.end == end;
      assert m in net.states[q].sentConfirms;
      var i :| 0 <= i < |net.states[q].sentConfirms| && net.states[q].sentConfirms[i] == m;
    }
  }

  lemma SendersOwn(n: nat, f: nat, stream: nat -> Request, run: seq<Net>)
    requires f < n && IsRun(n, f, stream, run)
    ensures
      var net := run[|run| - 1];
      net.states.Keys == Replicas(n)
      && forall p :: p in net.states ==> forall m :: m in net.states[p].sentConfirms ==> m.replica == p
  {
    hide Next, Contiguous, StepBy, ReplicaOk;
    RunInv(n, f, stream, run);
    var net := run[|run| - 1];
    forall p, m | p in net.states && m in net.states[p].sentConfirms ensures m.replica == p {
      SendsContiguous(n, f, stream, run, p);
      ContiguousEnds(net.states[p].sentConfirms, p, net.states[p].localConfirmedNum, m);
      IsSender(net.states[p].sentConfirms, p, net.states[p].localConfirmedNum, m);
    }
  }

  lemma IsSender(sent: seq<Confirm>, q: ReplicaIndex, local: nat, m: Confirm)
    requires Contiguous(sent, q, local) && m in sent
    ensures m.replica == q
  {
    var k: nat :| k < |sent| && sent[k] == m;
    assert StartsAfter(sent, q, k);
  }

  /** What reached a running replica from another has been counted. */
  lemma OthersCounted(
      n: nat, f: nat, stream: nat -> Request, run: seq<Net>, r: ReplicaIndex, q: ReplicaIndex, k: nat)
    requires f < n && r < n && q < n && q != r && IsRun(n, f, stream, run) && Hosts(run[|run| - 1], r)
    requires run[|run| - 1].states[r].status.Running? && ConfirmedTo(run[|run| - 1], r, q, k)
    ensures
      var s := run[|run| - 1].states[r];
      q in s.remoteConfirmedNums && s.remoteConfirmedNums[q] >= k
  {
    hide Next, Contiguous, OwnOk, ExecutedUpTo, WellFormed, SentByOthers, EndOfOne, ConfirmedOk;
    var net := run[|run| - 1];
    var s, sent := net.states[r], net.states[q].sentConfirms;
    ConfirmsNeverFail(n, f, stream, run, r);
    RunningFacts(n, f, stream, run, r);
    SendsContiguous(n, f, stream, run, q);
    SendersOwn(n, f, stream, run);
    assert NoGap(s, SentByOthers(net.states, r), net.received[r], q);
    var m :| ConfirmedWith(net, r, q, k, m);
    var entry := s.remoteConfirmedNums[q];
    if entry < m.end {
      EntryOfSent(net, r, q, entry);
      var m' := NextConfirm(sent, q, net.states[q].localConfirmedNum, entry, m);
      assert false;
    }
  }

  /** What came back to a running replica has been counted. */
  lemma OwnCounted(n: nat, f: nat, stream: nat -> Request, run: seq<Net>, r: ReplicaIndex, k: nat)
    requires f < n && r < n && IsRun(n, f, stream, run) && Hosts(run[|run| - 1], r)
    requires run[|run| - 1].states[r].status.Running? && ConfirmedTo(run[|run| - 1], r, r, k)
    ensures
      var s := run[|run| - 1].states[r];
      r in s.remoteConfirmedNums && s.remoteConfirmedNums[r] >= k
  {
    hide Next, ExecutedUpTo, WellFormed, SentByOthers, NoGap, ConfirmedOk, Contiguous, WaitsUnverified;
    var net := run[|run| - 1];
    var s := net.states[r];
    ConfirmsNeverFail(n, f, stream, run, r);
    RunningFacts(n, f, stream, run, r);
    var m :| ConfirmedWith(net, r, r, k, m);
    BackIsCounted(s, net.back[r], m);
  }

  lemma BackIsCounted(s: State, back: set<Confirm>, m: Confirm)
    requires OwnOk(s, back) && Contiguous(s.sentConfirms, s.index, s.localConfirmedNum) && m in back
    ensures s.remoteConfirmedNums[s.index] >= m.end
  {
    var sent := s.sentConfirms;
    var i: nat :| i < |sent| && sent[i] == m;
    assert StartsAfter(sent, s.index, |sent| - 1) && StartsAfter(sent, s.index, i);
    if i < |sent| - 1 {
      ContiguousOrder(sent, s.index, s.localConfirmedNum, i, |sent| - 1);
    }
  }

  // ---------- main theorems ----------

  /** In every run: a running replica to which n - f replicas have confirmed operations 1, ..., k, with nothing missing
      in between, has executed them, in order, once each. */
  lemma ConfirmedIsExecuted(
      n: nat, f: nat, stream: nat -> Request, run: seq<Net>, r: ReplicaIndex, k: nat, confirmers: set<ReplicaIndex>)
    requires f < n && r < n && IsRun(n, f, stream, run) && Hosts(run[|run| - 1], r)
    requires run[|run| - 1].states[r].status.Running?
    requires confirmers <= Replicas(n) && |confirmers| >= n - f
    requires forall q :: q in confirmers ==> ConfirmedTo(run[|run| - 1], r, q, k)
    ensures
      var s := run[|run| - 1].states[r];
      s.confirmedNum >= k && |s.committed| >= k && ExecutedUpTo(s, s.confirmedNum)
  {
    hide Next, ConfirmedTo, WellFormed, ConfirmedOf, WaitsUnverified;
    var s := run[|run| - 1].states[r];
    RunningFacts(n, f, stream, run, r);
    forall q | q in confirmers ensures q in s.remoteConfirmedNums && s.remoteConfirmedNums[q] >= k {
      if q == r {
        OwnCounted(n, f, stream, run, r, k);
      } else {
        OthersCounted(n, f, stream, run, r, q, k);
      }
    }
    assert Replicas(n) <= s.remoteConfirmedNums.Keys by { EntriesForAll(s); }
    SubsetSize(confirmers, ConfirmedBy(s.remoteConfirmedNums, n, k));
    ConfirmedOfIsGreatest(s.remoteConfirmedNums, n, f);
  }

  lemma EntriesForAll(s: State)
    requires WellFormed(s) && s.confirm
    ensures Replicas(s.n) <= s.remoteConfirmedNums.Keys
  {
  }

  /** In every run: at a pace a running replica sends a confirm exactly when none of its own is in flight and its log
      goes beyond the last; it covers all that is new, with the requests there. */
  lemma PaceConfirms(n: nat, f: nat, stream: nat -> Request, run: seq<Net>, r: ReplicaIndex)
    requires f < n && r < n && IsRun(n, f, stream, run) && Hosts(run[|run| - 1], r)
    requires run[|run| - 1].states[r].status.Running? && WellFormed(run[|run| - 1].states[r])
    ensures
      var s, back := run[|run| - 1].states[r], run[|run| - 1].back[r];
      var s', end := OnPace(s), EndBefore(s.sentConfirms, |s.sentConfirms|);
      && (InFlight(s.sentConfirms, back) || end == |s.requests| ==> s'.sentConfirms == s.sentConfirms)
      && (!InFlight(s.sentConfirms, back) && end < |s.requests| ==>
            s'.sentConfirms
              == s.sentConfirms + [Confirm(Inner(s.requests)[end..], end + 1, |s.requests|, r)])
  {
    hide Next, ExecutedUpTo, SentByOthers, NoGap, ConfirmedOk, WaitsUnverified, BuffersOk, OwnConfirms;
    ConfirmsNeverFail(n, f, stream, run, r);
    RunningFacts(n, f, stream, run, r);
    var net := run[|run| - 1];
    var s := net.states[r];
    assert Inner(s.requests[s.localConfirmedNum..]) == Inner(s.requests)[s.localConfirmedNum..];
    if InFlight(s.sentConfirms, net.back[r]) {
      assert StartsAfter(s.sentConfirms, r, |s.sentConfirms| - 1);
    }
  }
}
