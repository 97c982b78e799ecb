/** The two levels of buffered confirms of Neo, for correct replicas with agreeing logs: each confirm
    arrives at most once, in any order relative to the others and to the requests it covers.

    Confirms wait first, under the operation they end at, for the log to be verified that far, and then,
    under the operation they start at, for the confirms of the same replica before them. */
module NeoBuffers {
  import opened Blocks
  import opened Quorums
  import opened Neo
  import opened NeoRuns

  // ---------- what has been sent ----------

  /** The ranges that one replica confirms are not empty and do not overlap. */
  ghost predicate Disjoint(sent: set<Confirm>) {
    && (forall m :: m in sent ==> 0 < m.start <= m.end)
    && forall m, m' :: m in sent && m' in sent && m.replica == m'.replica && m != m' ==>
         m.end < m'.start || m'.end < m.start
  }

  /** The digest of a confirm is that of its range of the one stream of requests. */
  ghost predicate DigestOf(stream: nat -> Request, m: Confirm) {
    && 0 < m.start <= m.end
    && |m.digest| == m.end - m.start + 1
    && forall i :: 0 <= i < |m.digest| ==> m.digest[i] == stream(m.start - 1 + i)
  }

  ghost predicate Follows(log: seq<Message>, stream: nat -> Request) {
    forall j :: 0 <= j < |log| ==> log[j].inner == stream(j)
  }

  ghost predicate SentOk(n: nat, index: ReplicaIndex, stream: nat -> Request, sent: set<Confirm>) {
    && Disjoint(sent)
    && forall m :: m in sent ==> m.replica < n && m.replica != index && DigestOf(stream, m)
  }

  // ---------- what one replica has received of it ----------

  predicate WaitsForLog(confirms1: map<nat, seq<Confirm>>, m: Confirm) {
    m.end in confirms1 && m in confirms1[m.end]
  }

  predicate WaitsForEarlier(confirms2: map<(ReplicaIndex, nat), Confirm>, m: Confirm) {
    (m.replica, m.start) in confirms2 && confirms2[(m.replica, m.start)] == m
  }

  ghost predicate EndOfOne(sent: set<Confirm>, i: ReplicaIndex, end: nat) {
    end == 0 || exists m :: m in sent && m.replica == i && m.end == end
  }

  /** The entry for a replica is 0 or the end of one of its confirms; all up to it have arrived. */
  ghost predicate Advances(
      n: nat, index: ReplicaIndex, sent: set<Confirm>, received: set<Confirm>, remote: map<ReplicaIndex, nat>)
  {
    && remote.Keys == Replicas(n)
    && (forall i :: i in remote && i != index ==> EndOfOne(sent, i, remote[i]))
    && (forall m :: m in sent && m.replica in remote && m.end <= remote[m.replica] ==> m in received)
  }

  ghost predicate ListOk(received: set<Confirm>, remote: map<ReplicaIndex, nat>, end: nat, list: seq<Confirm>) {
    && (forall m :: m in list ==> m in received && m.end == end && m.replica in remote && remote[m.replica] < end)
    && forall i, j :: 0 <= i < j < |list| ==> list[i] != list[j]
  }

  ghost predicate Buffer1Ok(
      received: set<Confirm>, remote: map<ReplicaIndex, nat>, confirms1: map<nat, seq<Confirm>>)
  {
    forall e {:trigger ListOk(received, remote, e, confirms1[e])} :: e in confirms1 ==>
      ListOk(received, remote, e, confirms1[e])
  }

  ghost predicate Buffer2Ok(
      received: set<Confirm>, remote: map<ReplicaIndex, nat>, confirms1: map<nat, seq<Confirm>>,
      confirms2: map<(ReplicaIndex, nat), Confirm>)
  {
    forall k :: k in confirms2 ==>
      var m := confirms2[k];
      && k == (m.replica, m.start) && m in received && m.replica in remote && remote[m.replica] < m.start
      && !WaitsForLog(confirms1, m)
  }

  /** Whatever has arrived has been counted or waits in one of the buffers. */
  ghost predicate Accounted(
      received: set<Confirm>, remote: map<ReplicaIndex, nat>, confirms1: map<nat, seq<Confirm>>,
      confirms2: map<(ReplicaIndex, nat), Confirm>)
  {
    forall m :: m in received ==>
      || (m.replica in remote && m.end <= remote[m.replica])
      || WaitsForLog(confirms1, m) || WaitsForEarlier(confirms2, m)
  }

  ghost predicate Receives(s: State, sent: set<Confirm>, received: set<Confirm>) {
    && received <= sent
    && Advances(s.n, s.index, sent, received, s.remoteConfirmedNums)
    && Buffer1Ok(received, s.remoteConfirmedNums, s.reorderingConfirms1)
    && Buffer2Ok(received, s.remoteConfirmedNums, s.reorderingConfirms1, s.reorderingConfirms2)
    && Accounted(received, s.remoteConfirmedNums, s.reorderingConfirms1, s.reorderingConfirms2)
  }

  /** The next confirm of replica i does not wait for earlier ones. */
  predicate Settled(s: State, i: ReplicaIndex) {
    i in s.remoteConfirmedNums ==> (i, s.remoteConfirmedNums[i] + 1) !in s.reorderingConfirms2
  }

  ghost predicate AllSettled(s: State) {
    forall i :: Settled(s, i)
  }

  ghost predicate Sound(s: State, stream: nat -> Request) {
    && WellFormed(s) && s.confirm && s.status.Running?
    && ConfirmedOk(s) && Follows(s.requests, stream)
  }

  /** The entry a replica keeps for itself is left alone. */
  predicate SameOwn(s: State, r: State) {
    && r.index == s.index
    && (s.index in r.remoteConfirmedNums <==> s.index in s.remoteConfirmedNums)
    && (s.index in s.remoteConfirmedNums ==> r.remoteConfirmedNums[s.index] == s.remoteConfirmedNums[s.index])
  }

  // ---------- counting one confirm ----------

  /** A confirm that has not arrived before starts after everything counted. */
  lemma NewIsLater(s: State, sent: set<Confirm>, received: set<Confirm>, m: Confirm)
    requires Disjoint(sent) && Receives(s, sent, received) && m in sent && m !in received
    requires m.replica in s.remoteConfirmedNums && m.replica != s.index
    ensures s.remoteConfirmedNums[m.replica] < m.start
  {
    hide Buffer1Ok, Buffer2Ok, Accounted;
    var end := s.remoteConfirmedNums[m.replica];
    assert EndOfOne(sent, m.replica, end);
    if end > 0 {
      var m0 :| m0 in sent && m0.replica == m.replica && m0.end == end;
    }
  }

  lemma WaitingArrived(s: State, sent: set<Confirm>, received: set<Confirm>, m: Confirm)
    requires Receives(s, sent, received)
    ensures WaitsForLog(s.reorderingConfirms1, m) ==> m in received
    ensures WaitsForEarlier(s.reorderingConfirms2, m) ==> m in received
  {
    if WaitsForLog(s.reorderingConfirms1, m) {
      assert ListOk(received, s.remoteConfirmedNums, m.end, s.reorderingConfirms1[m.end]);
    }
  }

  /** Whatever ends beyond the entry starts beyond the confirm that follows it. */
  ghost predicate FollowsEntry(sent: set<Confirm>, remote: map<ReplicaIndex, nat>, m: Confirm) {
    && m in sent && m.replica in remote && m.start == remote[m.replica] + 1 && m.start <= m.end
    && forall x :: x in sent && x != m && x.replica == m.replica && x.end > remote[m.replica] ==> x.start > m.end
  }

  lemma Buffer1Raised(
      sent: set<Confirm>, received: set<Confirm>, remote: map<ReplicaIndex, nat>, confirms1: map<nat, seq<Confirm>>,
      m: Confirm)
    requires FollowsEntry(sent, remote, m) && received <= sent && m !in received
    requires forall x :: x in sent ==> x.start <= x.end
    requires Buffer1Ok(received, remote, confirms1)
    ensures Buffer1Ok(received + {m}, remote[m.replica := m.end], confirms1)
  {
    forall e | e in confirms1 ensures ListOk(received + {m}, remote[m.replica := m.end], e, confirms1[e]) {
      assert ListOk(received, remote, e, confirms1[e]);
    }
  }

  lemma Buffer2Raised(
      sent: set<Confirm>, received: set<Confirm>, remote: map<ReplicaIndex, nat>, confirms1: map<nat, seq<Confirm>>,
      confirms2: map<(ReplicaIndex, nat), Confirm>, m: Confirm)
    requires FollowsEntry(sent, remote, m) && received <= sent && m !in received
    requires forall x :: x in sent ==> x.start <= x.end
    requires Buffer2Ok(received, remote, confirms1, confirms2)
    ensures Buffer2Ok(received + {m}, remote[m.replica := m.end], confirms1, confirms2)
  {
    hide WaitsForLog;
  }

  lemma AdvancesRaised(
      n: nat, index: ReplicaIndex, sent: set<Confirm>, received: set<Confirm>, remote: map<ReplicaIndex, nat>, m: Confirm)
    requires FollowsEntry(sent, remote, m) && m.replica != index && forall x :: x in sent ==> x.start <= x.end
    requires Advances(n, index, sent, received, remote)
    ensures Advances(n, index, sent, received + {m}, remote[m.replica := m.end])
  {
    var remote' := remote[m.replica := m.end];
    assert remote'.Keys == remote.Keys;
    forall i | i in remote' && i != index ensures EndOfOne(sent, i, remote'[i]) {
      assert i != m.replica ==> EndOfOne(sent, i, remote[i]);
    }
  }

  lemma AccountedRaised(
      sent: set<Confirm>, received: set<Confirm>, remote: map<ReplicaIndex, nat>, confirms1: map<nat, seq<Confirm>>,
      confirms2: map<(ReplicaIndex, nat), Confirm>, m: Confirm)
    requires FollowsEntry(sent, remote, m) && Accounted(received, remote, confirms1, confirms2)
    ensures Accounted(received + {m}, remote[m.replica := m.end], confirms1, confirms2)
  {
    hide WaitsForLog, WaitsForEarlier;
  }

  /** Raising an entry to the end of the confirm that follows it. */
  lemma RaiseReceives(s: State, s': State, sent: set<Confirm>, received: set<Confirm>, m: Confirm)
    requires Disjoint(sent) && Receives(s, sent, received) && m in sent && m !in received
    requires m.replica in s.remoteConfirmedNums && m.replica != s.index
    requires m.start == s.remoteConfirmedNums[m.replica] + 1
    requires s'.remoteConfirmedNums == s.remoteConfirmedNums[m.replica := m.end]
    requires s'.n == s.n && s'.index == s.index
    requires s'.reorderingConfirms1 == s.reorderingConfirms1 && s'.reorderingConfirms2 == s.reorderingConfirms2
    ensures Receives(s', sent, received + {m})
  {
    hide Advances, Buffer1Ok, Buffer2Ok, Accounted;
    var remote := s.remoteConfirmedNums;
    assert FollowsEntry(sent, remote, m);
    AdvancesRaised(s.n, s.index, sent, received, remote, m);
    Buffer1Raised(sent, received, remote, s.reorderingConfirms1, m);
    Buffer2Raised(sent, received, remote, s.reorderingConfirms1, s.reorderingConfirms2, m);
    AccountedRaised(sent, received, remote, s.reorderingConfirms1, s.reorderingConfirms2, m);
  }

  lemma Confirm2Ok(s: State, sent: set<Confirm>, received: set<Confirm>, stream: nat -> Request, m: Confirm)
    requires Sound(s, stream) && SentOk(s.n, s.index, stream, sent) && Receives(s, sent, received)
    requires m in sent && m !in received && m.end <= s.orderedNum
    requires m.replica in s.remoteConfirmedNums && m.start == s.remoteConfirmedNums[m.replica] + 1
    ensures
      var r := DoConfirm2(s, m);
      && Sound(r, stream) && Receives(r, sent, received + {m})
      && r.remoteConfirmedNums == s.remoteConfirmedNums[m.replica := m.end]
  {
    hide Receives, Disjoint, ExecutedUpTo, ConfirmedOf, BuffersOk, OwnConfirms;
    var log := s.requests;
    assert Inner(log[m.start - 1..m.end]) == m.digest;
    RaiseKeeps(s, m.replica, m.end);
    RaiseReceives(s, DoConfirm2(s, m), sent, received, m);
  }

  lemma Buffer1Fewer(
      received: set<Confirm>, remote: map<ReplicaIndex, nat>, confirms1: map<nat, seq<Confirm>>, gone: Confirm)
    requires Buffer1Ok(received, remote, confirms1) && !WaitsForLog(confirms1, gone)
    ensures Buffer1Ok(received - {gone}, remote, confirms1)
  {
    forall e | e in confirms1 ensures ListOk(received - {gone}, remote, e, confirms1[e]) {
      assert ListOk(received, remote, e, confirms1[e]);
    }
  }

  lemma Buffer2Fewer(
      received: set<Confirm>, remote: map<ReplicaIndex, nat>, confirms1: map<nat, seq<Confirm>>,
      confirms2: map<(ReplicaIndex, nat), Confirm>, key: (ReplicaIndex, nat))
    requires Buffer2Ok(received, remote, confirms1, confirms2) && key in confirms2
    ensures Buffer2Ok(received - {confirms2[key]}, remote, confirms1, confirms2 - {key})
  {
    hide WaitsForLog;
  }

  lemma AccountedFewer(
      received: set<Confirm>, remote: map<ReplicaIndex, nat>, confirms1: map<nat, seq<Confirm>>,
      confirms2: map<(ReplicaIndex, nat), Confirm>, key: (ReplicaIndex, nat))
    requires Accounted(received, remote, confirms1, confirms2) && key in confirms2
    ensures Accounted(received - {confirms2[key]}, remote, confirms1, confirms2 - {key})
  {
    hide WaitsForLog;
  }

  /** Taking a confirm out of the second buffer, as if it had not arrived yet. */
  lemma TakeEarly(s: State, sent: set<Confirm>, received: set<Confirm>, key: (ReplicaIndex, nat))
    requires Disjoint(sent) && Receives(s, sent, received) && key in s.reorderingConfirms2
    ensures
      var m := s.reorderingConfirms2[key];
      && m in received && m in sent && key == (m.replica, m.start)
      && Receives(Without2(s, key), sent, received - {m})
  {
    hide EndOfOne, WaitsForLog, WaitsForEarlier, Buffer1Ok, Accounted;
    var m := s.reorderingConfirms2[key];
    Buffer1Fewer(received, s.remoteConfirmedNums, s.reorderingConfirms1, m);
    Buffer2Fewer(received, s.remoteConfirmedNums, s.reorderingConfirms1, s.reorderingConfirms2, key);
    AccountedFewer(received, s.remoteConfirmedNums, s.reorderingConfirms1, s.reorderingConfirms2, key);
  }

  lemma SameSound(s: State, s': State, stream: nat -> Request)
    requires Sound(s, stream) && WellFormed(s')
    requires s' == s.(reorderingConfirms1 := s'.reorderingConfirms1, reorderingConfirms2 := s'.reorderingConfirms2,
                      seqNumOffset := s'.seqNumOffset, reorderingRequests := s'.reorderingRequests,
                      verifiedNum := s'.verifiedNum, sentQueries := s'.sentQueries, sentQueryOks := s'.sentQueryOks)
    ensures Sound(s', stream)
  {
  }

  /** The state after one turn of the loop that drains the confirms of replica i. */
  ghost function DrainedOne(s: State, i: ReplicaIndex): (r: State)
    requires WellFormed(s) && s.confirm && i in s.remoteConfirmedNums
    requires (i, s.remoteConfirmedNums[i] + 1) in s.reorderingConfirms2
    ensures WellFormed(r)
  {
    var key := (i, s.remoteConfirmedNums[i] + 1);
    WithoutEarlyConfirm(s, key);
    DoConfirm2(Without2(s, key), s.reorderingConfirms2[key])
  }

  lemma DrainTurn(s: State, i: ReplicaIndex)
    requires WellFormed(s) && s.confirm && i in s.remoteConfirmedNums
    ensures
      var key := (i, s.remoteConfirmedNums[i] + 1);
      if s.status.Running? && key in s.reorderingConfirms2 then
        var r := DrainedOne(s, i);
        && WellFormed(Without2(s, key)) && s.reorderingConfirms2[key].replica == i
        && s.reorderingConfirms2[key].end <= s.orderedNum
        && r == DoConfirm2(Without2(s, key), s.reorderingConfirms2[key])
        && r.confirm && r.remoteConfirmedNums.Keys == s.remoteConfirmedNums.Keys
        && (forall j :: j in s.remoteConfirmedNums && j != i ==> r.remoteConfirmedNums[j] == s.remoteConfirmedNums[j])
        && r.reorderingConfirms2 == s.reorderingConfirms2 - {key}
        && |r.reorderingConfirms2| < |s.reorderingConfirms2|
        && DrainConfirms(s, i) == DrainConfirms(r, i)
      else DrainConfirms(s, i) == s
  {
    hide WellFormed, UpdateConfirmNum;
    var key := (i, s.remoteConfirmedNums[i] + 1);
    if s.status.Running? && key in s.reorderingConfirms2 {
      WithoutEarlyConfirm(s, key);
      EarlyEnds(s, key);
    }
  }

  lemma {:induction false} DrainConfirmsOk(
      s: State, sent: set<Confirm>, received: set<Confirm>, stream: nat -> Request, i: ReplicaIndex)
    requires Sound(s, stream) && SentOk(s.n, s.index, stream, sent) && Receives(s, sent, received)
    requires WellFormed(s) && s.confirm && s.status.Running? && i in s.remoteConfirmedNums
    ensures
      var r := DrainConfirms(s, i);
      Sound(r, stream) && Receives(r, sent, received)
    decreases |s.reorderingConfirms2|
  {
    hide Receives, ConfirmedOk, Follows, SentOk, DoConfirm2, WellFormed, Without2, DrainConfirms, DrainedOne;
    SentDisjoint(s.n, s.index, stream, sent);
    DrainTurn(s, i);
    var key := (i, s.remoteConfirmedNums[i] + 1);
    if key in s.reorderingConfirms2 {
      TakeEarly(s, sent, received, key);
      var m := s.reorderingConfirms2[key];
      WithoutEarlyConfirm(s, key);
      var s1 := Without2(s, key);
      Without2Fields(s, key);
      SameSound(s, s1, stream);
      Confirm2Ok(s1, sent, received - {m}, stream, m);
      assert received - {m} + {m} == received;
      DrainConfirmsOk(DrainedOne(s, i), sent, received, stream, i);
    }
  }

  /** Draining stops at the first confirm that is missing, and touches only one replica's entry. */
  lemma {:induction false} DrainSettles(s: State, i: ReplicaIndex)
    requires WellFormed(s) && s.confirm && i in s.remoteConfirmedNums
    ensures
      var r := DrainConfirms(s, i);
      && r.remoteConfirmedNums.Keys == s.remoteConfirmedNums.Keys
      && (r.status.Running? ==> Settled(r, i))
      && (forall j :: j in s.remoteConfirmedNums && j != i ==> r.remoteConfirmedNums[j] == s.remoteConfirmedNums[j])
      && r.reorderingConfirms2.Keys <= s.reorderingConfirms2.Keys
    decreases |s.reorderingConfirms2|
  {
    hide WellFormed, DrainConfirms, DrainedOne;
    DrainTurn(s, i);
    var key := (i, s.remoteConfirmedNums[i] + 1);
    if s.status.Running? && key in s.reorderingConfirms2 {
      DrainSettles(DrainedOne(s, i), i);
    }
  }

  ghost predicate SettledIfRunning(s: State) {
    s.status.Running? ==> AllSettled(s)
  }

  lemma Confirm1Settles(s: State, m: Confirm)
    requires WellFormed(s) && s.confirm && m.end <= s.orderedNum && SettledIfRunning(s)
    ensures SettledIfRunning(DoConfirm1(s, m))
  {
    hide DrainConfirms, UpdateConfirmNum, BuffersOk, OwnConfirms;
    var r := DoConfirm1(s, m);
    if s.status.Running? && m.replica in s.remoteConfirmedNums && m.start == s.remoteConfirmedNums[m.replica] + 1 {
      DrainSettles(DoConfirm2(s, m), m.replica);
    }
    if r.status.Running? {
      forall j ensures Settled(r, j) {
        assert Settled(s, j);
      }
    }
  }

  lemma {:induction false} ConfirmAllSettles(s: State, list: seq<Confirm>)
    requires WellFormed(s) && s.confirm && SettledIfRunning(s) && forall m :: m in list ==> m.end <= s.orderedNum
    ensures SettledIfRunning(ConfirmAll(s, list))
    decreases |list|
  {
    hide SettledIfRunning, WellFormed, DoConfirm1;
    if list != [] {
      Confirm1Settles(s, list[0]);
      ConfirmAllSettles(DoConfirm1(s, list[0]), list[1..]);
    }
  }

  lemma {:induction false} ReachRangeSettles(s: State, lo: nat, hi: nat)
    requires WellFormed(s) && s.confirm && SettledIfRunning(s) && lo <= hi <= s.orderedNum
    ensures SettledIfRunning(ReachRange(s, lo, hi))
    decreases hi
  {
    if lo < hi {
      ReachRangeSettles(s, lo, hi - 1);
      ReachSettles(ReachRange(s, lo, hi - 1), hi);
    }
  }

  lemma SameSettled(s: State, s': State)
    requires SettledIfRunning(s) && (s'.status.Running? ==> s.status.Running?)
    requires s'.remoteConfirmedNums == s.remoteConfirmedNums && s'.reorderingConfirms2 == s.reorderingConfirms2
    ensures SettledIfRunning(s')
  {
    if s'.status.Running? {
      forall j ensures Settled(s', j) {
        assert Settled(s, j);
      }
    }
  }

  lemma ReachSettles(s: State, opNum: nat)
    requires WellFormed(s) && s.confirm && SettledIfRunning(s) && 0 < opNum <= s.orderedNum
    ensures SettledIfRunning(Reach(s, opNum))
  {
    hide SettledIfRunning, ConfirmAll, BuffersOk, OwnConfirms;
    if s.status.Running? && opNum in s.reorderingConfirms1 {
      WithoutConfirms(s, opNum);
      SameSettled(s, Without1(s, opNum));
      ConfirmAllSettles(Without1(s, opNum), s.reorderingConfirms1[opNum]);
    }
  }

  lemma OrderRequestSettles(s: State, m: Message)
    requires WellFormed(s) && s.confirm && SettledIfRunning(s)
    ensures SettledIfRunning(OrderRequest(s, m))
  {
    hide SettledIfRunning, DrainRequests, ReachRange, BuffersOk, OwnConfirms;
    var o := DrainRequests(Push(OrderingOf(s), m));
    var s1 := WithLog(s, o);
    LongerLog(s, s1);
    SameSettled(s, s1);
    ReachRangeSettles(s1, s.verifiedNum, o.verifiedNum);
    var s2 := ReachRange(s1, s.verifiedNum, o.verifiedNum);
    SameSettled(s2, s2.(verifiedNum := o.verifiedNum));
  }

  lemma SentDisjoint(n: nat, index: ReplicaIndex, stream: nat -> Request, sent: set<Confirm>)
    requires SentOk(n, index, stream, sent)
    ensures Disjoint(sent)
  {
  }

  lemma Without2Fields(s: State, key: (ReplicaIndex, nat))
    ensures Without2(s, key) == s.(reorderingConfirms2 := s.reorderingConfirms2 - {key})
  {
  }

  lemma EarlyEnds(s: State, key: (ReplicaIndex, nat))
    requires WellFormed(s) && key in s.reorderingConfirms2
    ensures s.reorderingConfirms2[key].end <= s.orderedNum
  {
    assert EarlyConfirm(s.reorderingConfirms2, s.n, s.orderedNum, key);
  }

  /** A confirm that starts too late goes to the second buffer, without displacing another. */
  lemma BufferEarlyOk(s: State, sent: set<Confirm>, received: set<Confirm>, m: Confirm)
    requires Disjoint(sent) && Receives(s, sent, received) && m in sent && m !in received
    requires m.replica in s.remoteConfirmedNums && s.remoteConfirmedNums[m.replica] < m.start
    ensures Receives(s.(reorderingConfirms2 := s.reorderingConfirms2[(m.replica, m.start) := m]), sent, received + {m})
  {
    hide EndOfOne;
    var confirms2 := s.reorderingConfirms2[(m.replica, m.start) := m];
    var more := received + {m};
    forall e | e in s.reorderingConfirms1 ensures ListOk(more, s.remoteConfirmedNums, e, s.reorderingConfirms1[e]) {
      assert ListOk(received, s.remoteConfirmedNums, e, s.reorderingConfirms1[e]);
    }
    WaitingArrived(s, sent, received, m);
    assert (m.replica, m.start) !in s.reorderingConfirms2;
  }

  /** Handling a confirm within the log for the first time. */
  lemma Confirm1Ok(s: State, sent: set<Confirm>, received: set<Confirm>, stream: nat -> Request, m: Confirm)
    requires Sound(s, stream) && SentOk(s.n, s.index, stream, sent) && Receives(s, sent, received)
    requires m in sent && m !in received && m.end <= s.orderedNum
    ensures
      var r := DoConfirm1(s, m);
      Sound(r, stream) && Receives(r, sent, received + {m}) && SameOwn(s, r)
  {
    hide Receives, ConfirmedOk, Follows, DoConfirm2, BuffersOk, OwnConfirms, DrainConfirms;
    InRemote(s, sent, received, m);
    NewIsLater(s, sent, received, m);
    if m.start == s.remoteConfirmedNums[m.replica] + 1 {
      Confirm2Ok(s, sent, received, stream, m);
      DrainConfirmsOk(DoConfirm2(s, m), sent, received + {m}, stream, m.replica);
      DrainSettles(DoConfirm2(s, m), m.replica);
    } else {
      BufferEarlyConfirm(s, m);
      BufferEarlyOk(s, sent, received, m);
      var r := DoConfirm1(s, m);
      SameSound(s, r, stream);
    }
  }

  lemma InRemote(s: State, sent: set<Confirm>, received: set<Confirm>, m: Confirm)
    requires Receives(s, sent, received) && m.replica < s.n
    ensures m.replica in s.remoteConfirmedNums
  {
  }

  // ---------- confirms released by the log ----------

  function SetOf(list: seq<Confirm>): set<Confirm> {
    set m | m in list
  }

  ghost predicate Distinct(list: seq<Confirm>) {
    forall i, j :: 0 <= i < j < |list| ==> list[i] != list[j]
  }

  lemma {:induction false} ConfirmAllOk(
      s: State, sent: set<Confirm>, received: set<Confirm>, stream: nat -> Request, list: seq<Confirm>)
    requires Sound(s, stream) && SentOk(s.n, s.index, stream, sent) && Receives(s, sent, received)
    requires WellFormed(s) && s.confirm && s.status.Running?
    requires Distinct(list) && forall m :: m in list ==> m in sent && m !in received && m.end <= s.orderedNum
    ensures Sound(ConfirmAll(s, list), stream) && Receives(ConfirmAll(s, list), sent, received + SetOf(list))
    ensures SameOwn(s, ConfirmAll(s, list))
    decreases |list|
  {
    hide Sound, SentOk, Receives, WellFormed, DoConfirm1;
    if list == [] {
      assert received + SetOf(list) == received;
    } else {
      Confirm1Ok(s, sent, received, stream, list[0]);
      Confirm1Running(s, stream, list[0]);
      ConfirmAllOk(DoConfirm1(s, list[0]), sent, received + {list[0]}, stream, list[1..]);
      assert received + {list[0]} + SetOf(list[1..]) == received + SetOf(list);
    }
  }

  lemma Confirm1Running(s: State, stream: nat -> Request, m: Confirm)
    requires WellFormed(s) && s.confirm && m.end <= s.orderedNum && Sound(DoConfirm1(s, m), stream)
    ensures DoConfirm1(s, m).status.Running?
  {
  }

  lemma Buffer1Without(
      received: set<Confirm>, remote: map<ReplicaIndex, nat>, confirms1: map<nat, seq<Confirm>>, end: nat)
    requires Buffer1Ok(received, remote, confirms1) && end in confirms1
    ensures Buffer1Ok(received - SetOf(confirms1[end]), remote, confirms1 - {end})
    ensures ListOk(received, remote, end, confirms1[end])
  {
    assert ListOk(received, remote, end, confirms1[end]);
    forall e | e in confirms1 - {end} ensures ListOk(received - SetOf(confirms1[end]), remote, e, confirms1[e]) {
      assert ListOk(received, remote, e, confirms1[e]);
    }
  }

  lemma Buffer2Without(
      received: set<Confirm>, remote: map<ReplicaIndex, nat>, confirms1: map<nat, seq<Confirm>>,
      confirms2: map<(ReplicaIndex, nat), Confirm>, end: nat)
    requires Buffer2Ok(received, remote, confirms1, confirms2) && end in confirms1
    requires ListOk(received, remote, end, confirms1[end])
    ensures Buffer2Ok(received - SetOf(confirms1[end]), remote, confirms1 - {end}, confirms2)
  {
  }

  /** Taking the confirms that end at an operation out of the first buffer, as if they had not arrived. */
  lemma TakeWaiting(s: State, sent: set<Confirm>, received: set<Confirm>, end: nat)
    requires Receives(s, sent, received) && end in s.reorderingConfirms1
    ensures
      var list := s.reorderingConfirms1[end];
      && Distinct(list) && SetOf(list) <= received
      && (forall m :: m in list ==> m.end == end)
      && Receives(Without1(s, end), sent, received - SetOf(list))
  {
    hide Buffer1Ok, Buffer2Ok, EndOfOne, WaitsForEarlier;
    var confirms1, remote := s.reorderingConfirms1, s.remoteConfirmedNums;
    Buffer1Without(received, remote, confirms1, end);
    Buffer2Without(received, remote, confirms1, s.reorderingConfirms2, end);
    forall m | m in received && m !in SetOf(confirms1[end]) && WaitsForLog(confirms1, m)
      ensures WaitsForLog(confirms1 - {end}, m)
    {
    }
  }

  lemma ReachOk(s: State, sent: set<Confirm>, received: set<Confirm>, stream: nat -> Request, opNum: nat)
    requires Sound(s, stream) && SentOk(s.n, s.index, stream, sent) && Receives(s, sent, received)
    requires WellFormed(s) && 0 < opNum <= s.orderedNum
    ensures Sound(Reach(s, opNum), stream) && Receives(Reach(s, opNum), sent, received) && SameOwn(s, Reach(s, opNum))
  {
    hide SentOk, Receives, ConfirmAll, ConfirmedOk, Follows, BuffersOk, OwnConfirms;
    if opNum in s.reorderingConfirms1 {
      var list := s.reorderingConfirms1[opNum];
      WithoutConfirms(s, opNum);
      TakeWaiting(s, sent, received, opNum);
      ReceivedSent(s, sent, received);
      SameSound(s, Without1(s, opNum), stream);
      ConfirmAllOk(Without1(s, opNum), sent, received - SetOf(list), stream, list);
      assert received - SetOf(list) + SetOf(list) == received;
    }
  }

  lemma ReceivedSent(s: State, sent: set<Confirm>, received: set<Confirm>)
    requires Receives(s, sent, received)
    ensures received <= sent
  {
  }

  lemma {:induction false} ReachRangeOk(
      s: State, sent: set<Confirm>, received: set<Confirm>, stream: nat -> Request, lo: nat, hi: nat)
    requires Sound(s, stream) && SentOk(s.n, s.index, stream, sent) && Receives(s, sent, received)
    requires WellFormed(s) && lo <= hi <= s.orderedNum
    ensures Sound(ReachRange(s, lo, hi), stream) && Receives(ReachRange(s, lo, hi), sent, received)
    ensures SameOwn(s, ReachRange(s, lo, hi))
    decreases hi
  {
    hide Sound, SentOk, Receives, WellFormed, Reach;
    if lo < hi {
      ReachRangeOk(s, sent, received, stream, lo, hi - 1);
      ReachOk(ReachRange(s, lo, hi - 1), sent, received, stream, hi);
    }
  }

  // ---------- handlers of the receiving side ----------

  lemma SameReceives(s: State, s': State, sent: set<Confirm>, received: set<Confirm>)
    requires Receives(s, sent, received)
    requires s'.n == s.n && s'.index == s.index && s'.remoteConfirmedNums == s.remoteConfirmedNums
    requires s'.reorderingConfirms1 == s.reorderingConfirms1 && s'.reorderingConfirms2 == s.reorderingConfirms2
    ensures Receives(s', sent, received)
  {
  }

  lemma LongerConfirmed(s: State, o: Ordering)
    requires ConfirmedOk(s) && s.requests <= o.log && WellFormed(WithLog(s, o))
    ensures ConfirmedOk(WithLog(s, o))
  {
    ExecutedLonger(s, WithLog(s, o), s.confirmedNum);
  }

  lemma OrderRequestOk(s: State, sent: set<Confirm>, received: set<Confirm>, stream: nat -> Request, m: Message)
    requires Sound(s, stream) && SentOk(s.n, s.index, stream, sent) && Receives(s, sent, received) && WellFormed(s)
    requires Follows(OrderRequest(s, m).requests, stream)
    ensures Sound(OrderRequest(s, m), stream) && Receives(OrderRequest(s, m), sent, received)
    ensures SameOwn(s, OrderRequest(s, m))
  {
    hide SentOk, Receives, Follows, DrainRequests, ReachRange, BuffersOk, OwnConfirms, ExecutedUpTo, ConfirmedOf;
    var o := DrainRequests(Push(OrderingOf(s), m));
    var s1 := WithLog(s, o);
    LongerLog(s, s1);
    LongerConfirmed(s, o);
    SameReceives(s, s1, sent, received);
    ReachRangeOk(s1, sent, received, stream, s.verifiedNum, o.verifiedNum);
    var s2 := ReachRange(s1, s.verifiedNum, o.verifiedNum);
    var s3 := s2.(verifiedNum := o.verifiedNum);
    ConfirmedRaised(s2, o.verifiedNum);
    SameReceives(s2, s3, sent, received);
  }

  /** A confirm beyond the log goes to the first buffer. */
  lemma BufferLaterOk(s: State, sent: set<Confirm>, received: set<Confirm>, m: Confirm)
    requires WellFormed(s) && Receives(s, sent, received) && m in sent && m !in received
    requires m.replica in s.remoteConfirmedNums && m.end > s.orderedNum
    ensures Receives(s.(reorderingConfirms1 := Buffered1(s, m)), sent, received + {m})
  {
    hide EndOfOne, BuffersOk, OwnConfirms;
    var confirms1, remote := Buffered1(s, m), s.remoteConfirmedNums;
    WaitingArrived(s, sent, received, m);
    forall e | e in confirms1 ensures ListOk(received + {m}, remote, e, confirms1[e]) {
      if e in s.reorderingConfirms1 {
        assert ListOk(received, remote, e, s.reorderingConfirms1[e]);
      }
    }
    forall x | x in received ensures WaitsForLog(confirms1, x) <==> WaitsForLog(s.reorderingConfirms1, x) {
    }
    assert WaitsForLog(confirms1, m);
  }

  /** The own entry plays no part in what is received. */
  lemma OwnRaised(s: State, sent: set<Confirm>, received: set<Confirm>, end: nat)
    requires Receives(s, sent, received) && s.index in s.remoteConfirmedNums
    requires forall m :: m in sent ==> m.replica != s.index
    ensures Receives(s.(remoteConfirmedNums := s.remoteConfirmedNums[s.index := end]), sent, received)
  {
    hide EndOfOne, WaitsForLog, WaitsForEarlier;
    var remote := s.remoteConfirmedNums[s.index := end];
    assert remote.Keys == s.remoteConfirmedNums.Keys;
    forall e | e in s.reorderingConfirms1 ensures ListOk(received, remote, e, s.reorderingConfirms1[e]) {
      assert ListOk(received, s.remoteConfirmedNums, e, s.reorderingConfirms1[e]);
    }
  }

  lemma OwnSettled(s: State, sent: set<Confirm>, received: set<Confirm>, end: nat)
    requires Receives(s, sent, received) && s.index in s.remoteConfirmedNums && AllSettled(s)
    requires forall m :: m in sent ==> m.replica != s.index
    ensures AllSettled(s.(remoteConfirmedNums := s.remoteConfirmedNums[s.index := end]))
  {
    hide Advances, Buffer1Ok, Accounted, WaitsForLog;
    var r := s.(remoteConfirmedNums := s.remoteConfirmedNums[s.index := end]);
    forall i ensures Settled(r, i) {
      assert Settled(s, i);
    }
  }
}
