/** What Neo replicas ask one another and answer: a query for a missing operation brings that operation. */
module NeoQueries {
  import opened Blocks
  import opened Multicast
  import opened Neo
  import opened NeoRuns
  import opened NeoLog

  // ---------- answers ----------

  /** The same operation, with a signature that was left unchecked put back as one to check. */
  ghost predicate Restores(m: Message, held: Message) {
    && m.seqNum == held.seqNum && m.linked == held.linked && m.inner == held.inner
    && (held.signature.K256Unverified? ==> m.signature == K256(held.signature.signature))
    && (!held.signature.K256Unverified? ==> m.signature == held.signature)
  }

  ghost predicate Holds(s: State, k: nat) {
    0 < k <= |s.requests| || k in s.reorderingRequests
  }

  /** What a replica holds for operation k: position k of its log, or what waits for it. */
  ghost function HeldAt(s: State, k: nat): Message
    requires Holds(s, k)
  {
    if 0 < k <= |s.requests| then s.requests[k - 1] else s.reorderingRequests[k]
  }

  /** A running replica answers a query exactly when it holds the operation, with what it holds. */
  lemma QueryAnswered(s: State, q: Query)
    requires WellFormed(s) && s.status.Running? && q.opNum > 0
    ensures
      var s' := HandleQuery(s, q);
      && s'.status.Running?
      && (!Holds(s, q.opNum) ==> s'.sentQueryOks == s.sentQueryOks)
      && (Holds(s, q.opNum) ==>
            && |s'.sentQueryOks| == |s.sentQueryOks| + 1 && s.sentQueryOks <= s'.sentQueryOks
            && s'.sentQueryOks[|s.sentQueryOks|].0 == q.replica
            && s'.sentQueryOks[|s.sentQueryOks|].1.opNum == q.opNum
            && Restores(s'.sentQueryOks[|s.sentQueryOks|].1.request, HeldAt(s, q.opNum)))
  {
    hide BuffersOk, OwnConfirms;
  }

  ghost predicate FromLog(log: seq<Message>, ok: QueryOk) {
    0 < ok.opNum <= |log| && Restores(ok.request, log[ok.opNum - 1])
  }

  ghost predicate FromBuffer(taken: seq<Message>, offset: Option<nat>, ok: QueryOk) {
    offset.Some? && exists m :: m in taken && OpNum(m.seqNum, offset.value) == ok.opNum && Restores(ok.request, m)
  }

  ghost predicate AnswersOk(s: State, taken: seq<Message>) {
    forall a :: a in s.sentQueryOks ==> FromLog(s.requests, a.1) || FromBuffer(taken, s.seqNumOffset, a.1)
  }

  lemma AnswersLater(s: State, s': State, taken: seq<Message>, more: seq<Message>)
    requires AnswersOk(s, taken) && s'.sentQueryOks == s.sentQueryOks && s.requests <= s'.requests
    requires s.seqNumOffset.Some? ==> s'.seqNumOffset == s.seqNumOffset
    ensures AnswersOk(s', taken + more)
  {
    hide Restores, OpNum;
    forall a | a in s'.sentQueryOks ensures FromLog(s'.requests, a.1) || FromBuffer(taken + more, s'.seqNumOffset, a.1) {
      if FromBuffer(taken, s.seqNumOffset, a.1) {
        var m :| m in taken && OpNum(m.seqNum, s.seqNumOffset.value) == a.1.opNum && Restores(a.1.request, m);
        assert m in taken + more;
      }
    }
  }

  lemma QueryAnswersOk(s: State, q: Query, taken: seq<Message>)
    requires WellFormed(s) && LogOk(s, taken) && AnswersOk(s, taken)
    ensures AnswersOk(HandleQuery(s, q), taken)
  {
    hide Restores, OpNum, HandleQuery;
    var s' := HandleQuery(s, q);
    if s.status.Running? && q.opNum > 0 {
      QueryAnswered(s, q);
      if Holds(s, q.opNum) {
        var a := s'.sentQueryOks[|s.sentQueryOks|];
        assert s'.sentQueryOks == s.sentQueryOks + [a];
        if q.opNum > |s.requests| {
          assert s.seqNumOffset.Some? && HeldAt(s, q.opNum) in taken;
        }
      }
    } else {
      NoAnswer(s, q);
    }
  }

  lemma NoAnswer(s: State, q: Query)
    requires WellFormed(s) && (s.status.Panicked? || q.opNum == 0)
    ensures HandleQuery(s, q).sentQueryOks == s.sentQueryOks
  {
  }

  lemma OrderQuiet(s: State, m: Message)
    requires WellFormed(s)
    ensures OrderRequest(s, m).sentQueryOks == s.sentQueryOks && OrderRequest(s, m).sentQueries == s.sentQueries
  {
    hide BuffersOk, OwnConfirms, ReachRange, DrainRequests;
    LongerLog(s, WithLog(s, DrainRequests(Push(OrderingOf(s), m))));
  }

  lemma RequestAnswersNothing(s: State, m: Message)
    requires WellFormed(s)
    ensures HandleRequest(s, m).sentQueryOks == s.sentQueryOks
  {
    hide WellFormed, OrderRequest, OpNum;
    OrderQuiet(WithOffset(s, m), m);
  }

  lemma OthersAnswerNothing(s: State, e: Event)
    requires WellFormed(s) && (e.OwnConfirmArrives? ==> e.own in s.sentConfirms) && !e.QueryArrives?
    ensures Handle(s, e).sentQueryOks == s.sentQueryOks
  {
    hide WellFormed, HandleRequest, DoConfirm1, UpdateConfirmNum;
    match e
    case RequestArrives(m) => RequestAnswersNothing(s, m);
    case QueryOkArrives(ok) => RequestAnswersNothing(s, ok.request);
    case ConfirmArrives(c) =>
    case OwnConfirmArrives(c) =>
    case Pace =>
  }

  lemma {:induction false} RunAnswers(
      n: nat, f: nat, index: ReplicaIndex, confirm: bool, states: seq<State>, events: seq<Event>)
    requires f < n && index < n && IsRun(Init(n, f, index, confirm), states, events)
    ensures AnswersOk(states[|events|], Taken(states, events))
    decreases |events|
  {
    hide AnswersOk, LogOk, HandleQuery, WellFormed;
    if events == [] {
      assert AnswersOk(states[0], []) by { NothingAnswered(n, f, index, confirm); }
    } else {
      var last := |events| - 1;
      RunWithoutLast(Init(n, f, index, confirm), states, events);
      RunAnswers(n, f, index, confirm, states[..last + 1], events[..last]);
      RunKeeps(n, f, index, confirm, states[..last + 1], events[..last]);
      var s, e, taken := states[last], events[last], Taken(states[..last + 1], events[..last]);
      if e.QueryArrives? {
        QueryAnswersOk(s, e.query, taken);
        assert taken + [] == taken;
      } else {
        OthersAnswerNothing(s, e);
        OffsetKept(s, e);
        AnswersLater(s, Handle(s, e), taken, TakenBy(s, e));
      }
    }
  }

  lemma NothingAnswered(n: nat, f: nat, index: ReplicaIndex, confirm: bool)
    ensures AnswersOk(Init(n, f, index, confirm), [])
  {
  }

  lemma OffsetKept(s: State, e: Event)
    requires WellFormed(s) && (e.OwnConfirmArrives? ==> e.own in s.sentConfirms)
    ensures s.seqNumOffset.Some? ==> Handle(s, e).seqNumOffset == s.seqNumOffset
  {
    hide WellFormed, HandleRequest, HandleConfirm, HandleQuery, OnPace, HandleLoopback, Take;
    if TakenBy(s, e) == [] {
      QuietLog(s, e);
    } else {
      RequestTakes(s, if e.RequestArrives? then e.message else e.queryOk.request);
    }
  }

  /** In every run, every answer a replica has sent is, with its number, link and payload and with its signature
      restored, a message it has taken whose operation number is the one asked for. */
  lemma AnswersAreTaken(
      n: nat, f: nat, index: ReplicaIndex, confirm: bool, states: seq<State>, events: seq<Event>,
      a: (ReplicaIndex, QueryOk))
    requires f < n && index < n && IsRun(Init(n, f, index, confirm), states, events)
    requires a in states[|events|].sentQueryOks
    ensures
      var s := states[|events|];
      && s.seqNumOffset.Some?
      && (FromLog(s.requests, a.1) || FromBuffer(Taken(states, events), s.seqNumOffset, a.1))
      && OpNum(a.1.request.seqNum, s.seqNumOffset.value) == a.1.opNum
  {
    hide OpNum;
    RunAnswers(n, f, index, confirm, states, events);
    RunKeeps(n, f, index, confirm, states, events);
    var s := states[|events|];
    if FromLog(s.requests, a.1) {
      assert InLog(s.requests, Taken(states, events), s.seqNumOffset.value, a.1.opNum - 1);
    }
  }

  // ---------- a gap is filled ----------

  /** End to end: a replica whose log ends before operation k asks another one for it. If that one holds it and
      they count from the same sequence number, its answer extends the log of the asker by exactly that
      operation. */
  lemma AnswerFillsGap(
      n: nat, f: nat, asker: ReplicaIndex, answerer: ReplicaIndex, confirm: bool,
      states: seq<State>, events: seq<Event>, states': seq<State>, events': seq<Event>, q: Query)
    requires f < n && asker < n && answerer < n
    requires IsRun(Init(n, f, asker, confirm), states, events) && IsRun(Init(n, f, answerer, confirm), states', events')
    requires
      var a, b := states[|events|], states'[|events'|];
      && a.status.Running? && b.status.Running? && q == Query(a.orderedNum + 1, asker)
      && a.seqNumOffset == b.seqNumOffset && Holds(b, q.opNum)
    ensures WellFormed(states[|events|]) && WellFormed(states'[|events'|])
    ensures
      var a, b := states[|events|], states'[|events'|];
      var answer := HandleQuery(b, q).sentQueryOks;
      && |answer| == |b.sentQueryOks| + 1 && answer[|b.sentQueryOks|].0 == asker
      && var ok := answer[|b.sentQueryOks|].1;
      var log := HandleQueryOk(a, ok).requests;
      && a.requests + [ok.request] <= log
      && Restores(log[q.opNum - 1], HeldAt(b, q.opNum))
  {
    hide Restores, OpNum, HandleQuery, LogOk;
    var a, b := states[|events|], states'[|events'|];
    RunKeeps(n, f, asker, confirm, states, events);
    RunKeeps(n, f, answerer, confirm, states', events');
    assert WellFormed(a) && WellFormed(b);
    QueryAnswered(b, q);
    var ok := HandleQuery(b, q).sentQueryOks[|b.sentQueryOks|].1;
    HeldHasNumber(b, Taken(states', events'), q.opNum);
    RestoredNumber(ok.request, HeldAt(b, q.opNum), b.seqNumOffset);
    NextIsTaken(a, ok);
  }

  lemma HeldHasNumber(s: State, taken: seq<Message>, k: nat)
    requires LogOk(s, taken) && Holds(s, k)
    ensures s.seqNumOffset.Some? && OpNum(HeldAt(s, k).seqNum, s.seqNumOffset.value) == k
  {
    hide OpNum;
    if 0 < k <= |s.requests| {
      assert InLog(s.requests, taken, s.seqNumOffset.value, k - 1);
    }
  }

  lemma RestoredNumber(m: Message, held: Message, offset: Option<nat>)
    requires Restores(m, held) && offset.Some?
    ensures OpNum(m.seqNum, offset.value) == OpNum(held.seqNum, offset.value)
  {
  }

  /** The next operation extends the log, whatever waited behind it. */
  lemma NextIsTaken(s: State, ok: QueryOk)
    requires WellFormed(s) && s.status.Running? && s.seqNumOffset.Some? && ok.opNum == s.orderedNum + 1
    requires OpNum(ok.request.seqNum, s.seqNumOffset.value) == ok.opNum
    ensures s.requests + [ok.request] <= HandleQueryOk(s, ok).requests
  {
    hide HandleRequest, OpNum, WellFormed;
    assert s.orderedNum == |s.requests| by { OrderedIsLength(s); }
    RequestTakes(s, ok.request);
  }

  lemma OrderedIsLength(s: State)
    requires WellFormed(s)
    ensures s.orderedNum == |s.requests|
  {
  }

  // ---------- queries ----------

  /** How many queries a request, handed to a running replica, makes it send: one, when it does not extend the log
      and makes 100 wait. */
  ghost function AskedBy(s: State, m: Message): nat
  {
    var offset := if s.seqNumOffset.None? then m.seqNum else s.seqNumOffset.value;
    var k := OpNum(m.seqNum, offset);
    if k > |s.requests| + 1 && |s.reorderingRequests.Keys + {k}| == QUERY_THRESHOLD then 1 else 0
  }

  /** The queries sent are all for the operation that is missing next. */
  ghost predicate Asks(s: State, s': State, count: nat) {
    && |s'.sentQueries| == |s.sentQueries| + count && s.sentQueries <= s'.sentQueries
    && forall i :: |s.sentQueries| <= i < |s'.sentQueries| ==>
         s'.sentQueries[i] == Query(|s'.requests| + 1, s'.index)
  }

  lemma RequestAsks(s: State, m: Message)
    requires WellFormed(s) && s.status.Running?
    ensures HandleRequest(s, m).status.Running? ==> Asks(s, HandleRequest(s, m), AskedBy(s, m))
  {
    hide OpNum, WellFormed, OrderRequest, BufferRequest;
    var s1 := WithOffset(s, m);
    var k := OpNum(m.seqNum, s1.seqNumOffset.value);
    OrderedIsLength(s);
    if k > |s.requests| + 1 {
      BufferAsks(s1, k, m);
    } else if k == |s.requests| + 1 {
      OrderQuiet(s1, m);
    }
  }

  lemma BufferAsks(s: State, k: nat, m: Message)
    requires WellFormed(s)
    ensures
      Asks(s, BufferRequest(s, k, m), if |s.reorderingRequests.Keys + {k}| == QUERY_THRESHOLD then 1 else 0)
  {
    hide BuffersOk, OwnConfirms;
    assert s.reorderingRequests[k := m].Keys == s.reorderingRequests.Keys + {k};
    assert |s.reorderingRequests[k := m]| == |s.reorderingRequests[k := m].Keys|;
  }

  /** A query answer that is taken makes a replica ask again when at least 100 messages still wait. */
  lemma AnswerAsks(s: State, ok: QueryOk)
    requires WellFormed(s) && s.status.Running?
    ensures ok.opNum != s.orderedNum + 1 ==> HandleQueryOk(s, ok) == s
    ensures
      var s' := HandleQueryOk(s, ok);
      ok.opNum == s.orderedNum + 1 && s'.status.Running? ==>
        Asks(s, s', AskedBy(s, ok.request) + if |s'.reorderingRequests| >= QUERY_THRESHOLD then 1 else 0)
  {
    hide HandleRequest, AskedBy, WellFormed;
    RequestAsks(s, ok.request);
    OrderedIsLength(HandleRequest(s, ok.request));
  }
}
