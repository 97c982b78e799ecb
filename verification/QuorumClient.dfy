/** The client of HotStuff, PBFT and Neo: it completes when enough of the latest replies match. */
module QuorumClient {
  // The three clients differ in what must match, the type `Key` (the result; block digest and result;
  // epoch, sequence number and result), in how many replies must match, and in whether the code also
  // asserts that the number is never exceeded.

  import opened Blocks
  import opened Quorums

  datatype Reply<Key> = Reply(requestNum: nat, key: Key, replica: ReplicaIndex)

  /** `Exactly`: more matches than the threshold fail an assertion. */
  datatype Rule = Exactly | AtLeast

  datatype Status = Running | InvokedTwice | TooManyMatches

  datatype Invoke<Key> = Invoke(op: Op, replies: map<ReplicaIndex, Reply<Key>>)

  /** `sent` and `completed` record, in order, the requests sent and the replies handed to the caller. */
  datatype State<Key> = State(
    threshold: nat,
    rule: Rule,
    requestNum: nat,
    invoke: Option<Invoke<Key>>,
    status: Status,
    sent: seq<(nat, Op)>,
    completed: seq<(nat, Key)>)

  function Init<Key>(threshold: nat, rule: Rule): State<Key> {
    State(threshold, rule, 0, None, Running, [], [])
  }

  function Matching<Key(==)>(replies: map<ReplicaIndex, Reply<Key>>, key: Key): set<ReplicaIndex> {
    set k | k in replies && replies[k].key == key
  }

  function StartInvoke<Key>(s: State<Key>, op: Op): State<Key> {
    if s.status != Running then s
    else if s.invoke.Some? then s.(status := InvokedTwice)
    else s.(requestNum := s.requestNum + 1,
            invoke := Some(Invoke(op, map[])),
            sent := s.sent + [(s.requestNum + 1, op)])
  }

  function HandleReply<Key(==)>(s: State<Key>, reply: Reply<Key>): State<Key> {
    if s.status != Running || reply.requestNum != s.requestNum || s.invoke.None? then s
    else
      var replies := s.invoke.value.replies[reply.replica := reply];
      var matches := |Matching(replies, reply.key)|;
      var kept := s.(invoke := Some(s.invoke.value.(replies := replies)));
      if s.rule == Exactly && matches > s.threshold then kept.(status := TooManyMatches)
      else if matches >= s.threshold then
        s.(invoke := None, completed := s.completed + [(s.requestNum, reply.key)])
      else kept
  }

  class Client<Key(==)> {
    const threshold: nat
    const rule: Rule
    var requestNum: nat
    var invoke: Option<Invoke<Key>>
    var status: Status
    var sent: seq<(nat, Op)>
    var completed: seq<(nat, Key)>

    ghost function Value(): State<Key>
      reads this
    {
      State(threshold, rule, requestNum, invoke, status, sent, completed)
    }

    constructor (threshold: nat, rule: Rule)
      ensures Value() == Init(threshold, rule)
    {
      this.threshold, this.rule := threshold, rule;
      requestNum, invoke, status, sent, completed := 0, None, Running, [], [];
    }

    method DoInvoke(op: Op)
      modifies this
      ensures Value() == StartInvoke(old(Value()), op)
    {
      if status != Running {
        return;
      }
      if invoke.Some? {
        status := InvokedTwice;
        return;
      }
      requestNum := requestNum + 1;
      invoke := Some(Invoke(op, map[]));
      sent := sent + [(requestNum, op)];
    }

    method Handle(reply: Reply<Key>)
      modifies this
      ensures Value() == HandleReply(old(Value()), reply)
    {
      if status != Running || reply.requestNum != requestNum || invoke.None? {
        return;
      }
      var replies := invoke.value.replies[reply.replica := reply];
      invoke := Some(invoke.value.(replies := replies));
      var matches := CountMatching(replies, reply.key);
      if rule == Exactly && matches > threshold {
        status := TooManyMatches;
        return;
      }
      if matches >= threshold {
        invoke := None;
        completed := completed + [(requestNum, reply.key)];
      }
    }
  }

  method CountMatching<Key(==)>(replies: map<ReplicaIndex, Reply<Key>>, key: Key) returns (matches: nat)
    ensures matches == |Matching(replies, key)|
  {
    var rest := replies.Keys;
    ghost var counted: set<ReplicaIndex> := {};
    matches := 0;
    while rest != {}
      invariant rest <= replies.Keys
      invariant counted == Matching(replies, key) - rest && matches == |counted|
      decreases |rest|
    {
      var k :| k in rest;
      rest := rest - {k};
      if replies[k].key == key {
        counted := counted + {k};
        matches := matches + 1;
      }
    }
    assert counted == Matching(replies, key);
  }

  // ---------- runs of one client ----------

  datatype Event<Key> = Invokes(op: Op) | ReplyArrives(reply: Reply<Key>)

  function Handled<Key(==)>(s: State<Key>, e: Event<Key>): State<Key> {
    match e
    case Invokes(op) => StartInvoke(s, op)
    case ReplyArrives(reply) => HandleReply(s, reply)
  }

  function After<Key(==)>(s: State<Key>, events: seq<Event<Key>>): State<Key> {
    if events == [] then s else Handled(After(s, events[..|events| - 1]), events[|events| - 1])
  }

  /** Replies are authenticated: one in the name of a correct replica is among those `said`. */
  ghost predicate Genuine<Key>(faulty: set<ReplicaIndex>, said: set<Reply<Key>>, reply: Reply<Key>) {
    reply.replica !in faulty ==> reply in said
  }

  ghost predicate GenuineEvents<Key>(faulty: set<ReplicaIndex>, said: set<Reply<Key>>, events: seq<Event<Key>>) {
    forall e :: e in events && e.ReplyArrives? ==> Genuine(faulty, said, e.reply)
  }

  /** The replicas that said `key` in reply to request `num`. */
  ghost function Backers<Key(!new)>(said: set<Reply<Key>>, num: nat, key: Key): set<ReplicaIndex> {
    set reply | reply in said && reply.requestNum == num && reply.key == key :: reply.replica
  }

  ghost predicate Backed<Key(!new)>(
      faulty: set<ReplicaIndex>, said: set<Reply<Key>>, threshold: nat, completion: (nat, Key))
  {
    |Backers(said, completion.0, completion.1)| + |faulty| >= threshold
  }

  /** Fewer than the threshold match, whatever the key. */
  ghost predicate Undecided<Key(!new)>(threshold: nat, replies: map<ReplicaIndex, Reply<Key>>) {
    forall key :: |Matching(replies, key)| < threshold
  }

  ghost predicate RepliesOk<Key>(
      faulty: set<ReplicaIndex>, said: set<Reply<Key>>, num: nat, replies: map<ReplicaIndex, Reply<Key>>)
  {
    forall k :: k in replies ==>
      replies[k].replica == k && replies[k].requestNum == num && Genuine(faulty, said, replies[k])
  }

  /** Requests are numbered 1, 2, …; each but a pending last one has completed, once, in order. */
  ghost predicate ClientInv<Key(!new)>(faulty: set<ReplicaIndex>, said: set<Reply<Key>>, s: State<Key>) {
    && s.status != TooManyMatches
    && s.requestNum == |s.sent| == |s.completed| + (if s.invoke.Some? then 1 else 0)
    && (forall i :: 0 <= i < |s.sent| ==> s.sent[i].0 == i + 1)
    && (forall i :: 0 <= i < |s.completed| ==> s.completed[i].0 == i + 1)
    && (forall i :: 0 <= i < |s.completed| ==> Backed(faulty, said, s.threshold, s.completed[i]))
    && (s.invoke.Some? ==>
          && Undecided(s.threshold, s.invoke.value.replies)
          && RepliesOk(faulty, said, s.requestNum, s.invoke.value.replies))
  }

  /** One more reply raises no count by more than one, and lowers all but that of its own key. */
  lemma MatchingMore<Key(!new)>(threshold: nat, replies: map<ReplicaIndex, Reply<Key>>, reply: Reply<Key>)
    requires Undecided(threshold, replies)
    ensures
      var replies' := replies[reply.replica := reply];
      && |Matching(replies', reply.key)| <= threshold
      && (|Matching(replies', reply.key)| < threshold ==> Undecided(threshold, replies'))
  {
    var replies' := replies[reply.replica := reply];
    forall key ensures |Matching(replies', key)| <= |Matching(replies, key)| + (if key == reply.key then 1 else 0) {
      if key == reply.key {
        SubsetSize(Matching(replies', key), Matching(replies, key) + {reply.replica});
      } else {
        SubsetSize(Matching(replies', key), Matching(replies, key));
      }
    }
  }

  lemma MatchingBacked<Key(!new)>(
      faulty: set<ReplicaIndex>, said: set<Reply<Key>>, num: nat, replies: map<ReplicaIndex, Reply<Key>>, key: Key)
    requires RepliesOk(faulty, said, num, replies)
    ensures |Backers(said, num, key)| + |faulty| >= |Matching(replies, key)|
  {
    forall k | k in Matching(replies, key) ensures k in Backers(said, num, key) + faulty {
      if k !in faulty {
        assert replies[k] in said;
      }
    }
    SubsetSize(Matching(replies, key), Backers(said, num, key) + faulty);
  }

  lemma ReplyKeeps<Key(!new)>(faulty: set<ReplicaIndex>, said: set<Reply<Key>>, s: State<Key>, reply: Reply<Key>)
    requires ClientInv(faulty, said, s) && Genuine(faulty, said, reply)
    ensures ClientInv(faulty, said, HandleReply(s, reply))
  {
    hide Matching, Undecided;
    if s.invoke.Some? && reply.requestNum == s.requestNum {
      var replies' := s.invoke.value.replies[reply.replica := reply];
      MatchingMore(s.threshold, s.invoke.value.replies, reply);
      assert RepliesOk(faulty, said, s.requestNum, replies');
      MatchingBacked(faulty, said, s.requestNum, replies', reply.key);
    }
  }

  lemma InvokeKeeps<Key(!new)>(faulty: set<ReplicaIndex>, said: set<Reply<Key>>, s: State<Key>, op: Op)
    requires ClientInv(faulty, said, s) && s.threshold > 0
    ensures ClientInv(faulty, said, StartInvoke(s, op))
  {
    var none: map<ReplicaIndex, Reply<Key>> := map[];
    forall key: Key ensures Matching(none, key) == {} {
    }
  }

  /** Over all runs of a client: the assertion on the number of matches never fails; every invocation
      completes at most once and in order; each completed result was said, in reply to that request, by
      at least threshold - f correct replicas; and while a request is pending, no result has been the
      latest reply of as many replicas as the threshold. */
  lemma {:induction false} AcceptsOnlyBackedResults<Key(!new)>(
      faulty: set<ReplicaIndex>, said: set<Reply<Key>>, threshold: nat, rule: Rule, events: seq<Event<Key>>)
    requires threshold > 0 && GenuineEvents(faulty, said, events)
    ensures ClientInv(faulty, said, After(Init(threshold, rule), events))
    ensures After(Init<Key>(threshold, rule), events).threshold == threshold
    decreases |events|
  {
    if events != [] {
      var last := |events| - 1;
      assert forall e :: e in events[..last] ==> e in events;
      AcceptsOnlyBackedResults(faulty, said, threshold, rule, events[..last]);
      var s := After(Init(threshold, rule), events[..last]);
      match events[last]
      case Invokes(op) => InvokeKeeps(faulty, said, s, op);
      case ReplyArrives(reply) =>
        assert events[last] in events;
        ReplyKeeps(faulty, said, s, reply);
    }
  }

  // ---------- when a client completes, told from the messages alone ----------

  /** The latest reply of each replica to request `num` since the last invocation. */
  function LatestSince<Key(==)>(num: nat, events: seq<Event<Key>>): map<ReplicaIndex, Reply<Key>> {
    if events == [] then map[]
    else
      var before := events[..|events| - 1];
      match events[|events| - 1]
      case Invokes(_) => map[]
      case ReplyArrives(reply) =>
        if reply.requestNum == num then LatestSince(num, before)[reply.replica := reply] else LatestSince(num, before)
  }

  /** What is held for a pending request is exactly the latest replies. */
  ghost predicate Follows<Key>(s: State<Key>, events: seq<Event<Key>>) {
    s.status == Running && s.invoke.Some? ==> s.invoke.value.replies == LatestSince(s.requestNum, events)
  }

  lemma {:induction false} RunFollows<Key>(threshold: nat, rule: Rule, events: seq<Event<Key>>)
    ensures Follows(After(Init<Key>(threshold, rule), events), events)
    decreases |events|
  {
    hide Matching;
    if events != [] {
      RunFollows(threshold, rule, events[..|events| - 1]);
    }
  }

  /** A client that is still running has completed every request it invoked as soon as the latest replies of
      `threshold` replicas match. */
  lemma EnoughCompletes<Key(!new)>(
      faulty: set<ReplicaIndex>, said: set<Reply<Key>>, threshold: nat, rule: Rule, events: seq<Event<Key>>, key: Key)
    requires threshold > 0 && GenuineEvents(faulty, said, events)
    requires After(Init<Key>(threshold, rule), events).status == Running
    requires |Matching(LatestSince(After(Init<Key>(threshold, rule), events).requestNum, events), key)| >= threshold
    ensures
      var s := After(Init<Key>(threshold, rule), events);
      s.invoke.None? && |s.completed| == s.requestNum == |s.sent|
  {
    hide LatestSince, After, Matching;
    RunFollows(threshold, rule, events);
    AcceptsOnlyBackedResults(faulty, said, threshold, rule, events);
    var s := After(Init<Key>(threshold, rule), events);
    if s.invoke.Some? {
      IsUndecided(faulty, said, s, key);
      assert false;
    }
  }

  lemma IsUndecided<Key(!new)>(faulty: set<ReplicaIndex>, said: set<Reply<Key>>, s: State<Key>, key: Key)
    requires ClientInv(faulty, said, s) && s.invoke.Some?
    ensures |Matching(s.invoke.value.replies, key)| < s.threshold
  {
  }

  /** The reply with which `threshold` match completes the request, with what matches. */
  lemma LastReplyCompletes<Key(!new)>(
      faulty: set<ReplicaIndex>, said: set<Reply<Key>>, threshold: nat, rule: Rule, events: seq<Event<Key>>,
      reply: Reply<Key>)
    requires threshold > 0 && GenuineEvents(faulty, said, events)
    requires
      var s := After(Init<Key>(threshold, rule), events);
      && s.status == Running && s.invoke.Some? && reply.requestNum == s.requestNum
      && |Matching(LatestSince(s.requestNum, events + [ReplyArrives(reply)]), reply.key)| >= threshold
    ensures
      var s, s' := After(Init<Key>(threshold, rule), events), After(Init<Key>(threshold, rule), events + [ReplyArrives(reply)]);
      s'.status == Running && s'.completed == s.completed + [(s.requestNum, reply.key)]
  {
    hide Matching;
    RunFollows(threshold, rule, events);
    AcceptsOnlyBackedResults(faulty, said, threshold, rule, events);
    var more, s := events + [ReplyArrives(reply)], After(Init<Key>(threshold, rule), events);
    assert more[..|more| - 1] == events;
    MatchingMore(threshold, s.invoke.value.replies, reply);
  }

  /** A client stops exactly when it is invoked while a request is pending. */
  lemma StopsIff<Key(!new)>(
      faulty: set<ReplicaIndex>, said: set<Reply<Key>>, threshold: nat, rule: Rule, events: seq<Event<Key>>, e: Event<Key>)
    requires threshold > 0 && GenuineEvents(faulty, said, events) && After(Init<Key>(threshold, rule), events).status == Running
    ensures
      var s, s' := After(Init<Key>(threshold, rule), events), After(Init<Key>(threshold, rule), events + [e]);
      s'.status == Running <==> s.invoke.None? || !e.Invokes?
  {
    hide Matching;
    AcceptsOnlyBackedResults(faulty, said, threshold, rule, events);
    var more, s := events + [e], After(Init<Key>(threshold, rule), events);
    assert more[..|more| - 1] == events;
    if e.ReplyArrives? && s.invoke.Some? {
      MatchingMore(threshold, s.invoke.value.replies, e.reply);
    }
  }
}
