/** When a Neo replica stops, over any history of one replica. */
module NeoStops {
  // A request stops it when it has to wait and makes 1100 wait; a confirm when it repeats what is recorded, or comes
  // next and does not agree with the log.

  import opened Blocks
  import opened Neo
  import opened NeoConfirm
  import opened NeoRuns
  import opened NeoLog

  const TOO_MANY: nat := 1100

  /** How many messages wait, this one included, if it does not extend the log; 0 if it is no later operation. */
  ghost function WaitingWith(s: State, m: Message): nat {
    var offset := if s.seqNumOffset.None? then m.seqNum else s.seqNumOffset.value;
    var k := OpNum(m.seqNum, offset);
    if k > |s.requests| + 1 then |s.reorderingRequests.Keys + {k}| else 0
  }

  lemma BufferStops(s: State, k: nat, m: Message)
    requires WellFormed(s) && s.status.Running?
    ensures
      BufferRequest(s, k, m).status
        == if |s.reorderingRequests.Keys + {k}| >= TOO_MANY then Panicked(TooManyReordered) else Running
  {
    hide BuffersOk, OwnConfirms;
    assert s.reorderingRequests[k := m].Keys == s.reorderingRequests.Keys + {k};
    assert |s.reorderingRequests[k := m]| == |s.reorderingRequests[k := m].Keys|;
  }

  /** Without confirms, where nothing else can stop it: a request stops a running replica if and only if it has to wait
      and 1100 wait with it. */
  lemma RequestStopsIff(
      n: nat, f: nat, index: ReplicaIndex, states: seq<State>, events: seq<Event>, m: Message)
    requires f < n && index < n && IsRun(Init(n, f, index, false), states, events)
    requires states[|events|].status.Running?
    ensures WellFormed(states[|events|])
    ensures
      var s := states[|events|];
      HandleRequest(s, m).status == if WaitingWith(s, m) >= TOO_MANY then Panicked(TooManyReordered) else Running
  {
    hide OpNum, BuffersOk, OwnConfirms, OrderRequest, BufferRequest, LogOk;
    RunKeeps(n, f, index, false, states, events);
    var s := states[|events|];
    var s1 := WithOffset(s, m);
    var k := OpNum(m.seqNum, s1.seqNumOffset.value);
    if k > |s.requests| + 1 {
      BufferStops(s1, k, m);
    } else if k == |s.requests| + 1 {
      OrderRuns(s1, m);
    }
  }

  lemma OrderRuns(s: State, m: Message)
    requires CommitOk(s) && s.status.Running? && !s.confirm
    ensures OrderRequest(s, m).status.Running?
  {
    hide DrainRequests, ReachRange, BuffersOk, OwnConfirms;
    var o := DrainRequests(Push(OrderingOf(s), m));
    LongerLog(s, WithLog(s, o));
    ExecutedLonger(s, WithLog(s, o), s.verifiedNum);
    ReachRangeExecutes(WithLog(s, o), s.verifiedNum, o.verifiedNum);
  }

  /** Its range is a stretch of the log and its digest that of the requests there. */
  ghost predicate AgreesWithLog(log: seq<Message>, c: Confirm) {
    && 0 < c.start <= c.end + 1 && 0 < c.end <= |log|
    && c.digest == Inner(log)[c.start - 1..c.end]
  }

  /** What stops the replica on a confirm that does not go beyond the log, if anything does. */
  ghost predicate Wrong(s: State, c: Confirm) {
    || c.replica !in s.remoteConfirmedNums
    || c.start <= s.remoteConfirmedNums[c.replica]
    || (c.start == s.remoteConfirmedNums[c.replica] + 1 && !AgreesWithLog(s.requests, c))
  }

  lemma Confirm2Runs(s: State, c: Confirm)
    requires CommitOk(s) && s.confirm && s.status.Running? && c.replica in s.remoteConfirmedNums
    requires c.start == s.remoteConfirmedNums[c.replica] + 1
    ensures DoConfirm2(s, c).status.Running? <==> AgreesWithLog(s.requests, c)
    ensures AgreesWithLog(s.requests, c) ==> DoConfirm2(s, c).remoteConfirmedNums == s.remoteConfirmedNums[c.replica := c.end]
  {
    hide ExecutedUpTo, ConfirmedOf, BuffersOk, OwnConfirms, CommitRange;
    if RangeInLog(c, |s.requests|) {
      assert Inner(s.requests[c.start - 1..c.end]) == Inner(s.requests)[c.start - 1..c.end];
      var s1 := s.(remoteConfirmedNums := s.remoteConfirmedNums[c.replica := c.end]);
      RaiseKeeps(s, c.replica, c.end);
      ConfirmedOfGrows(s.remoteConfirmedNums, s1.remoteConfirmedNums, s.n, s.f);
    }
  }

  ghost predicate SameEntries(s: State, s': State) {
    s'.status.Running? && s'.remoteConfirmedNums == s.remoteConfirmedNums
  }

  /** Out of confirm mode any confirm stops the replica. In it, one that goes beyond the log waits; another one stops
      the replica if it is wrong; a right one that is not next waits; a right one that is next is counted, and can
      stop the replica only through one that waited behind. */
  ghost predicate ConfirmOutcome(s: State, c: Confirm, s': State) {
    if !s.confirm then s'.status == Panicked(NotConfirming)
    else if c.end > |s.requests| then
      SameEntries(s, s') && c.end in s'.reorderingConfirms1 && c in s'.reorderingConfirms1[c.end]
    else if Wrong(s, c) then s'.status.Panicked?
    else if c.start > s.remoteConfirmedNums[c.replica] + 1 then
      && SameEntries(s, s')
      && (c.replica, c.start) in s'.reorderingConfirms2 && s'.reorderingConfirms2[(c.replica, c.start)] == c
    else
      (c.replica, c.end + 1) !in s.reorderingConfirms2 ==>
        s'.status.Running? && s'.remoteConfirmedNums == s.remoteConfirmedNums[c.replica := c.end]
  }

  lemma NextConfirmOutcome(s: State, c: Confirm)
    requires CommitOk(s) && s.confirm && s.status.Running? && c.replica in s.remoteConfirmedNums
    requires c.end <= s.orderedNum && c.start == s.remoteConfirmedNums[c.replica] + 1
    ensures
      var s', right := DoConfirm1(s, c), AgreesWithLog(s.requests, c);
      && (!right ==> s'.status.Panicked?)
      && (right && (c.replica, c.end + 1) !in s.reorderingConfirms2 ==>
            s'.status.Running? && s'.remoteConfirmedNums == s.remoteConfirmedNums[c.replica := c.end])
  {
    hide BuffersOk, OwnConfirms, ConfirmedOk, DoConfirm2, AgreesWithLog;
    Confirm2Runs(s, c);
  }

  lemma Outcome(s: State, c: Confirm)
    requires CommitOk(s) && s.status.Running?
    ensures ConfirmOutcome(s, c, HandleConfirm(s, c))
  {
    hide BuffersOk, OwnConfirms, ConfirmedOk, DrainConfirms, DoConfirm2, AgreesWithLog;
    if s.confirm && c.end <= s.orderedNum && c.replica in s.remoteConfirmedNums && c.start == s.remoteConfirmedNums[c.replica] + 1 {
      NextConfirmOutcome(s, c);
    }
  }

  /** What a confirm does in every run. */
  lemma ConfirmStopsIff(
      n: nat, f: nat, index: ReplicaIndex, confirm: bool, states: seq<State>, events: seq<Event>, c: Confirm)
    requires f < n && index < n && IsRun(Init(n, f, index, confirm), states, events)
    requires states[|events|].status.Running?
    ensures WellFormed(states[|events|])
    ensures ConfirmOutcome(states[|events|], c, HandleConfirm(states[|events|], c))
  {
    hide LogOk, ConfirmOutcome, HandleConfirm;
    RunKeeps(n, f, index, confirm, states, events);
    Outcome(states[|events|], c);
  }
}
