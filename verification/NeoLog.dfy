/** The log of one Neo replica over all runs. */
module NeoLog {
  // For any loss, reordering, repetition or equivocation, with query answers mixed in, it is the longest
  // gap-free prefix of what was delivered.

  import opened Blocks
  import opened Neo
  import opened NeoConfirm
  import opened NeoRuns

  // ---------- runs ----------

  ghost predicate StepOf(s: State, e: Event, s': State) {
    && WellFormed(s) && (e.OwnConfirmArrives? ==> e.own in s.sentConfirms)
    && s' == Handle(s, e)
  }

  ghost predicate IsRun(start: State, states: seq<State>, events: seq<Event>) {
    && |states| == |events| + 1
    && states[0] == start
    && forall i :: 0 <= i < |events| ==> StepOf(states[i], events[i], states[i + 1])
  }

  /** The ordered requests an event hands to `handle_request`: its own, or that of a query answer for
      the operation that is missing next. */
  ghost function TakenBy(s: State, e: Event): seq<Message> {
    match e
    case RequestArrives(m) => if s.status.Running? then [m] else []
    case QueryOkArrives(ok) => if s.status.Running? && ok.opNum == s.orderedNum + 1 then [ok.request] else []
    case _ => []
  }

  ghost function Taken(states: seq<State>, events: seq<Event>): seq<Message>
    requires |states| == |events| + 1
    decreases |events|
  {
    if events == [] then []
    else
      var last := |events| - 1;
      Taken(states[..last + 1], events[..last]) + TakenBy(states[last], events[last])
  }

  // ---------- the log invariant ----------

  /** Some delivered request has operation number k. */
  ghost predicate Delivered(taken: seq<Message>, offset: nat, k: nat) {
    exists m :: m in taken && OpNum(m.seqNum, offset) == k
  }

  ghost predicate InLog(log: seq<Message>, taken: seq<Message>, offset: nat, j: nat)
    requires j < |log|
  {
    log[j] in taken && OpNum(log[j].seqNum, offset) == j + 1
  }

  /** The log holds operations 1, 2, ..., |log|; what is buffered lies beyond `gap`; nothing
      delivered is lost. */
  ghost predicate Ordered(
      log: seq<Message>, buffered: map<nat, Message>, taken: seq<Message>, offset: nat, gap: nat)
  {
    && (forall j: nat {:trigger InLog(log, taken, offset, j)} :: j < |log| ==> InLog(log, taken, offset, j))
    && (forall k :: k in buffered ==> k > gap && OpNum(buffered[k].seqNum, offset) == k && buffered[k] in taken)
    && (forall m :: m in taken ==> OpNum(m.seqNum, offset) <= |log| || OpNum(m.seqNum, offset) in buffered)
  }

  ghost predicate LogOk(s: State, taken: seq<Message>) {
    && s.orderedNum == |s.requests|
    && match s.seqNumOffset
       case None => taken == [] && s.requests == [] && s.reorderingRequests == map[]
       case Some(offset) => Ordered(s.requests, s.reorderingRequests, taken, offset, |s.requests| + 1)
  }

  lemma PushOrders(o: Ordering, m: Message, taken: seq<Message>, offset: nat)
    requires Ordered(o.log, o.buffered, taken, offset, |o.log| + 1)
    requires OpNum(m.seqNum, offset) == |o.log| + 1
    ensures Ordered(Push(o, m).log, o.buffered, taken + [m], offset, |o.log| + 1)
  {
    var log := o.log + [m];
    forall j: nat | j < |log| ensures InLog(log, taken + [m], offset, j) {
      if j < |o.log| {
        assert InLog(o.log, taken, offset, j);
      }
    }
  }

  lemma {:induction false} DrainOrders(o: Ordering, taken: seq<Message>, offset: nat)
    requires o.verifiedNum <= |o.log| && Ordered(o.log, o.buffered, taken, offset, |o.log|)
    ensures
      var r := DrainRequests(o);
      Ordered(r.log, r.buffered, taken, offset, |r.log| + 1)
    decreases |o.buffered|
  {
    hide Ordered;
    var next := |o.log| + 1;
    NextMissing(o, taken, offset);
    if next in o.buffered {
      FewerRequests(o.buffered, next);
      DrainOnceOrders(o, taken, offset);
      DrainOrders(Push(o.(buffered := o.buffered - {next}), o.buffered[next]), taken, offset);
    }
  }

  lemma NextMissing(o: Ordering, taken: seq<Message>, offset: nat)
    requires Ordered(o.log, o.buffered, taken, offset, |o.log|)
    ensures |o.log| + 1 !in o.buffered ==> Ordered(o.log, o.buffered, taken, offset, |o.log| + 1)
  {
  }

  lemma DrainOnceOrders(o: Ordering, taken: seq<Message>, offset: nat)
    requires |o.log| + 1 in o.buffered && Ordered(o.log, o.buffered, taken, offset, |o.log|)
    ensures
      var next := |o.log| + 1;
      Ordered(o.log + [o.buffered[next]], o.buffered - {next}, taken, offset, next)
  {
    var log := o.log + [o.buffered[|o.log| + 1]];
    forall j: nat | j < |log| ensures InLog(log, taken, offset, j) {
      if j < |o.log| {
        assert InLog(o.log, taken, offset, j);
      }
    }
  }

  /** The three cases of `handle_request`, for the log and its buffer alone. */
  ghost function Take(o: Ordering, m: Message, offset: nat): Ordering
    requires o.verifiedNum <= |o.log|
  {
    var opNum := OpNum(m.seqNum, offset);
    if opNum < |o.log| + 1 then o
    else if opNum != |o.log| + 1 then o.(buffered := o.buffered[opNum := m])
    else DrainRequests(Push(o, m))
  }

  lemma RequestTakes(s: State, m: Message)
    requires WellFormed(s) && s.status.Running?
    ensures
      var r := HandleRequest(s, m);
      var offset := if s.seqNumOffset.None? then m.seqNum else s.seqNumOffset.value;
      var o := Take(OrderingOf(s), m, offset);
      && r.seqNumOffset == Some(offset) && r.orderedNum == |r.requests|
      && r.requests == o.log && r.reorderingRequests == o.buffered
  {
    hide BuffersOk, OwnConfirms, DrainRequests, OrderRequest, BufferRequest;
  }

  lemma OneMoreDelivered(log: seq<Message>, buffered: map<nat, Message>, taken: seq<Message>, m: Message, offset: nat)
    requires Ordered(log, buffered, taken, offset, |log| + 1) && OpNum(m.seqNum, offset) != |log| + 1
    ensures
      var opNum := OpNum(m.seqNum, offset);
      && (opNum <= |log| ==> Ordered(log, buffered, taken + [m], offset, |log| + 1))
      && (opNum > |log| ==> Ordered(log, buffered[opNum := m], taken + [m], offset, |log| + 1))
  {
    forall j: nat | j < |log| ensures InLog(log, taken + [m], offset, j) {
      assert InLog(log, taken, offset, j);
    }
  }

  lemma RequestOrders(s: State, m: Message, taken: seq<Message>)
    requires WellFormed(s) && LogOk(s, taken) && s.status.Running?
    ensures LogOk(HandleRequest(s, m), taken + [m])
  {
    var offset := if s.seqNumOffset.None? then m.seqNum else s.seqNumOffset.value;
    assert Ordered(s.requests, s.reorderingRequests, taken, offset, |s.requests| + 1) by {
      hide OpNum;
    }
    hide HandleRequest, Take, Ordered;
    RequestTakes(s, m);
    TakeOrders(OrderingOf(s), m, taken, offset);
  }

  lemma TakeOrders(o: Ordering, m: Message, taken: seq<Message>, offset: nat)
    requires o.verifiedNum <= |o.log| && Ordered(o.log, o.buffered, taken, offset, |o.log| + 1)
    ensures
      var r := Take(o, m, offset);
      Ordered(r.log, r.buffered, taken + [m], offset, |r.log| + 1)
  {
    hide DrainRequests;
    if OpNum(m.seqNum, offset) != |o.log| + 1 {
      OneMoreDelivered(o.log, o.buffered, taken, m, offset);
    } else {
      PushOrders(o, m, taken, offset);
      DrainOrders(Push(o, m), taken + [m], offset);
    }
  }

  lemma QuietLog(s: State, e: Event)
    requires WellFormed(s) && (e.OwnConfirmArrives? ==> e.own in s.sentConfirms)
    requires TakenBy(s, e) == []
    ensures
      var r := Handle(s, e);
      && r.seqNumOffset == s.seqNumOffset && r.requests == s.requests && r.orderedNum == s.orderedNum
      && r.reorderingRequests == s.reorderingRequests
  {
    hide BuffersOk, OwnConfirms, DoConfirm1, UpdateConfirmNum, HandleRequest, HandleQueryOk;
    match e
    case RequestArrives(m) => NotTaken(s, m, None);
    case QueryOkArrives(ok) => NotTaken(s, ok.request, Some(ok));
    case _ =>
  }

  lemma NotTaken(s: State, m: Message, ok: Option<QueryOk>)
    requires WellFormed(s)
    ensures s.status.Panicked? ==> HandleRequest(s, m) == s
    ensures ok.Some? && (s.status.Panicked? || ok.value.opNum != s.orderedNum + 1) ==> HandleQueryOk(s, ok.value) == s
  {
  }

  lemma HandleOrders(s: State, e: Event, taken: seq<Message>)
    requires WellFormed(s) && (e.OwnConfirmArrives? ==> e.own in s.sentConfirms) && LogOk(s, taken)
    ensures LogOk(Handle(s, e), taken + TakenBy(s, e))
  {
    if TakenBy(s, e) == [] {
      QuietLog(s, e);
      assert taken + [] == taken;
    } else {
      RequestOrders(s, if e.RequestArrives? then e.message else e.queryOk.request, taken);
    }
  }

  // ---------- main theorems ----------

  lemma InitOk(n: nat, f: nat, index: ReplicaIndex, confirm: bool)
    requires f < n && index < n
    ensures WellFormed(Init(n, f, index, confirm)) && CommitOk(Init(n, f, index, confirm))
    ensures LogOk(Init(n, f, index, confirm), [])
  {
    hide CommitOk;
    InitCommits(n, f, index, confirm);
  }

  lemma {:induction false} RunKeeps(
      n: nat, f: nat, index: ReplicaIndex, confirm: bool, states: seq<State>, events: seq<Event>)
    requires f < n && index < n && IsRun(Init(n, f, index, confirm), states, events)
    ensures
      var s := states[|events|];
      && CommitOk(s) && LogOk(s, Taken(states, events))
      && s.n == n && s.f == f && s.index == index && s.confirm == confirm
    decreases |events|
  {
    InitOk(n, f, index, confirm);
    hide CommitOk, LogOk;
    if events != [] {
      var last := |events| - 1;
      RunWithoutLast(Init(n, f, index, confirm), states, events);
      RunKeeps(n, f, index, confirm, states[..last + 1], events[..last]);
      var s, e := states[last], events[last];
      HandleCommits(s, e);
      HandleOrders(s, e, Taken(states[..last + 1], events[..last]));
    }
  }

  lemma RunWithoutLast(start: State, states: seq<State>, events: seq<Event>)
    requires IsRun(start, states, events) && events != []
    ensures
      var last := |events| - 1;
      IsRun(start, states[..last + 1], events[..last]) && StepOf(states[last], events[last], states[last + 1])
  {
    var last := |events| - 1;
    forall i | 0 <= i < last ensures StepOf(states[..last + 1][i], events[..last][i], states[..last + 1][i + 1]) {
      assert StepOf(states[i], events[i], states[i + 1]);
    }
    assert StepOf(states[last], events[last], states[last + 1]);
  }

  /** In every run: with `offset` the first sequence number seen, the log holds delivered messages with
      operation numbers 1, 2, ..., as far as no number is missing; the next one has not been delivered;
      and what is buffered is exactly what was delivered beyond that, all of it past the gap. */
  lemma LogIsLongestGapFreePrefix(
      n: nat, f: nat, index: ReplicaIndex, confirm: bool, states: seq<State>, events: seq<Event>, offset: nat)
    requires f < n && index < n && IsRun(Init(n, f, index, confirm), states, events)
    requires states[|events|].seqNumOffset == Some(offset)
    ensures
      var s, taken := states[|events|], Taken(states, events);
      && s.orderedNum == |s.requests|
      && (forall j: nat {:trigger InLog(s.requests, taken, offset, j)} :: j < |s.requests| ==>
            InLog(s.requests, taken, offset, j))
      && !Delivered(taken, offset, s.orderedNum + 1)
      && (forall k :: k in s.reorderingRequests <==> k > s.orderedNum && Delivered(taken, offset, k))
      && (forall k :: k in s.reorderingRequests ==>
            k > s.orderedNum + 1 && s.reorderingRequests[k] in taken
            && OpNum(s.reorderingRequests[k].seqNum, offset) == k)
  {
    RunKeeps(n, f, index, confirm, states, events);
    var s, taken := states[|events|], Taken(states, events);
    assert Ordered(s.requests, s.reorderingRequests, taken, offset, |s.requests| + 1);
  }

  /** If all that was delivered comes from one stream of requests, the log is a stretch of that
      stream, from the first sequence number seen. */
  lemma LogFollowsStream(
      n: nat, f: nat, index: ReplicaIndex, confirm: bool, states: seq<State>, events: seq<Event>, offset: nat,
      stream: nat -> Request)
    requires f < n && index < n && IsRun(Init(n, f, index, confirm), states, events)
    requires states[|events|].seqNumOffset == Some(offset) && offset < 0x1_0000_0000
    requires forall m :: m in Taken(states, events) ==> m.seqNum < 0x1_0000_0000 && m.inner == stream(m.seqNum)
    ensures forall j: nat :: j < |states[|events|].requests| ==>
              states[|events|].requests[j].inner == stream((offset + j) % 0x1_0000_0000)
  {
    LogIsLongestGapFreePrefix(n, f, index, confirm, states, events, offset);
    var log, taken := states[|events|].requests, Taken(states, events);
    forall j: nat | j < |log| ensures log[j].inner == stream((offset + j) % 0x1_0000_0000) {
      assert InLog(log, taken, offset, j);
      OpNumInverse(log[j].seqNum, offset, j);
    }
  }

  lemma OpNumInverse(seqNum: nat, offset: nat, j: nat)
    requires seqNum < 0x1_0000_0000 && offset < 0x1_0000_0000 && OpNum(seqNum, offset) == j + 1
    ensures seqNum == (offset + j) % 0x1_0000_0000
  {
    if seqNum + 1 >= offset {
      assert seqNum - offset + 1 < 0x1_0000_0000 || (seqNum - offset + 1 == 0x1_0000_0000);
    }
  }

  /** In every run: `verified_num` is the last verified position of the log; the operations committed
      are 1, 2, ..., once each, up to it, or in confirm mode up to the confirmation number; and that
      number is the greatest one confirmed by at least n - f replicas, within the log. */
  lemma CommitsInOrderOnce(
      n: nat, f: nat, index: ReplicaIndex, confirm: bool, states: seq<State>, events: seq<Event>)
    requires f < n && index < n && IsRun(Init(n, f, index, confirm), states, events)
    ensures
      var s := states[|events|];
      && s.verifiedNum == LastVerified(s.requests)
      && ExecutedUpTo(s, if confirm then s.confirmedNum else s.verifiedNum)
      && s.status != Panicked(ConfirmGoesBack)
      && (confirm && s.status.Running? ==>
            && s.confirmedNum <= s.orderedNum
            && |ConfirmedBy(s.remoteConfirmedNums, n, s.confirmedNum)| >= n - f
            && forall k :: k > s.confirmedNum ==> |ConfirmedBy(s.remoteConfirmedNums, n, k)| < n - f)
  {
    RunKeeps(n, f, index, confirm, states, events);
    var s := states[|events|];
    if confirm && s.status.Running? {
      ConfirmedOfIsGreatest(s.remoteConfirmedNums, n, f);
    }
  }
}
