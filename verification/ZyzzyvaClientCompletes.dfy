/** When a Zyzzyva client completes, commits and counts, told from the messages it has received alone. */
module ZyzzyvaClientCompletes {
  // The latest responses and the block being committed are functions of the messages that arrived since the
  // invocation. As soon as they suffice, the client completes: it never stays pending with enough of them.

  import opened Blocks
  import opened Quorums
  import opened Zyzzyva
  import opened ZyzzyvaClient
  import opened ZyzzyvaClientRuns

  /** The response has a result for the request. */
  predicate HasResult(client: ClientIndex, num: nat, m: SpecResponse) {
    var position := Position(m.block.requests, client, num);
    position.Some? && position.value < |m.results|
  }

  /** The latest response of each replica, of those with a result for the request, since the last invocation. */
  function LatestSince(client: ClientIndex, num: nat, events: seq<Event>): map<ReplicaIndex, SpecResponse> {
    if events == [] then map[]
    else
      var before := events[..|events| - 1];
      match events[|events| - 1]
      case Invokes(_) => map[]
      case ResponseArrives(m) =>
        if HasResult(client, num, m) then LatestSince(client, num, before)[m.replica := m]
        else LatestSince(client, num, before)
      case LocalCommitArrives(_) => LatestSince(client, num, before)
  }

  /** The block for which n - f, but not n, of the latest responses matched last, since the last invocation. */
  function TargetSince(n: nat, f: nat, client: ClientIndex, num: nat, events: seq<Event>): Option<Digest>
    requires n >= f
  {
    if events == [] then None
    else
      var before := events[..|events| - 1];
      match events[|events| - 1]
      case Invokes(_) => None
      case ResponseArrives(m) =>
        if HasResult(client, num, m) && |Matching(LatestSince(client, num, events), m)| == n - f != n
        then Some(Sha256(m.block)) else TargetSince(n, f, client, num, before)
      case LocalCommitArrives(_) => TargetSince(n, f, client, num, before)
  }

  /** The replicas whose local commit arrived, since the last invocation, for what was then the target. */
  function CommittersSince(n: nat, f: nat, client: ClientIndex, num: nat, events: seq<Event>): set<ReplicaIndex>
    requires n >= f
  {
    if events == [] then {}
    else
      var before := events[..|events| - 1];
      match events[|events| - 1]
      case Invokes(_) => {}
      case ResponseArrives(_) => CommittersSince(n, f, client, num, before)
      case LocalCommitArrives(m) =>
        CommittersSince(n, f, client, num, before)
        + if Some(m.digest) == TargetSince(n, f, client, num, before) then {m.replica} else {}
  }

  /** A pending request is exactly what the messages since its invocation say. */
  ghost predicate Follows(s: ClientState, events: seq<Event>)
    requires s.n >= s.f
  {
    s.status == Active && s.invoke.Some? ==>
      && s.invoke.value.responses == LatestSince(s.index, s.requestNum, events)
      && s.invoke.value.commitDigest
           == (if s.byzantine then TargetSince(s.n, s.f, s.index, s.requestNum, events) else None)
      && s.invoke.value.localCommits
           == (if s.byzantine then CommittersSince(s.n, s.f, s.index, s.requestNum, events) else {})
  }

  lemma ResponseFollows(s: ClientState, events: seq<Event>, m: SpecResponse)
    requires Ready(s) && Follows(s, events)
    ensures Follows(HandleResponse(s, m), events + [ResponseArrives(m)])
  {
    hide Matching, Position;
    var more := events + [ResponseArrives(m)];
    assert more[..|more| - 1] == events;
  }

  lemma LocalCommitFollows(s: ClientState, events: seq<Event>, m: LocalCommit)
    requires Ready(s) && Follows(s, events)
    ensures Follows(HandleLocalCommit(s, m), events + [LocalCommitArrives(m)])
  {
    hide LatestSince;
    var more := events + [LocalCommitArrives(m)];
    assert more[..|more| - 1] == events;
    assert LatestSince(s.index, s.requestNum, more) == LatestSince(s.index, s.requestNum, events) by {
      LatestSame(s.index, s.requestNum, events, m);
    }
  }

  lemma LatestSame(client: ClientIndex, num: nat, events: seq<Event>, m: LocalCommit)
    ensures LatestSince(client, num, events + [LocalCommitArrives(m)]) == LatestSince(client, num, events)
  {
    var more := events + [LocalCommitArrives(m)];
    assert more[..|more| - 1] == events;
  }

  lemma InvokeFollows(s: ClientState, events: seq<Event>, op: Op)
    requires Ready(s) && Follows(s, events)
    ensures Follows(StartInvoke(s, op), events + [Invokes(op)])
  {
    var more := events + [Invokes(op)];
    assert more[..|more| - 1] == events;
  }

  lemma {:induction false} RunFollows(s: ClientState, events: seq<Event>)
    requires Ready(s) && s.invoke.None?
    ensures Follows(After(s, events), events)
    decreases |events|
  {
    hide Follows, HandleResponse, HandleLocalCommit;
    if events == [] {
      assert Follows(s, []) by { NothingPending(s); }
    } else {
      var last := |events| - 1;
      RunFollows(s, events[..last]);
      var t := After(s, events[..last]);
      assert events[..last] + [events[last]] == events;
      match events[last]
      case Invokes(op) => InvokeFollows(t, events[..last], op);
      case ResponseArrives(m) => ResponseFollows(t, events[..last], m);
      case LocalCommitArrives(m) => LocalCommitFollows(t, events[..last], m);
    }
  }

  lemma NothingPending(s: ClientState)
    requires Ready(s) && s.invoke.None?
    ensures Follows(s, [])
  {
  }

  /** The latest responses of all n replicas are for one block with the same results. */
  ghost predicate AllAgree(n: nat, latest: map<ReplicaIndex, SpecResponse>) {
    exists m: SpecResponse :: |Matching(latest, m)| >= n
  }

  /** Both paths, over all runs: a client that is still active has completed every request it invoked as soon as the
      latest responses of all n replicas agree, or, if it is configured for the commit path, n - f replicas have
      sent a local commit for what was the target. The results are those that `AcceptsOnlyProducedResults` describes. */
  lemma EnoughCompletes(
      c: Config, said: set<SpecResponse>, saidCommits: set<LocalCommit>, client: ClientIndex, byzantine: bool,
      events: seq<Event>)
    requires ValidConfig(c) && GenuineEvents(c, said, saidCommits, events)
    requires After(InitClient(c.n, c.f, client, byzantine), events).status == Active
    requires
      var num := After(InitClient(c.n, c.f, client, byzantine), events).requestNum;
      || AllAgree(c.n, LatestSince(client, num, events))
      || (byzantine && |CommittersSince(c.n, c.f, client, num, events)| >= c.n - c.f)
    ensures
      var s := After(InitClient(c.n, c.f, client, byzantine), events);
      && s.invoke.None? && |s.completed| == s.requestNum
      && forall i :: 0 <= i < |s.completed| ==> s.completed[i].num == i + 1 && CompletionOk(c, said, client, s.completed[i])
  {
    hide LatestSince, CommittersSince, TargetSince, CompletionOk, Produced, ResponsesOk;
    var init := InitClient(c.n, c.f, client, byzantine);
    var s := After(init, events);
    RunFollows(init, events);
    AcceptsOnlyProducedResults(c, said, saidCommits, client, byzantine, events);
    if s.invoke.Some? {
      PendingIsShort(c, said, s);
      assert false;
    }
  }

  lemma PendingIsShort(c: Config, said: set<SpecResponse>, s: ClientState)
    requires ClientInv(c, said, s) && s.invoke.Some?
    ensures Undecided(c.n, s.invoke.value.responses) && |s.invoke.value.localCommits| < c.n - c.f
  {
    hide Undecided, Produced;
  }

  /** The response with which all n agree completes the request on the fast path, with the result at the place of
      the client's own request. */
  lemma LastResponseCompletes(s: ClientState, events: seq<Event>, m: SpecResponse)
    requires Ready(s) && s.invoke.None? && After(s, events).status == Active && After(s, events).invoke.Some?
    requires HasResult(s.index, After(s, events).requestNum, m)
    requires |Matching(LatestSince(s.index, After(s, events).requestNum, events + [ResponseArrives(m)]), m)| == s.n
    ensures
      var t, num := After(s, events), After(s, events).requestNum;
      var position := Position(m.block.requests, s.index, num).value;
      After(s, events + [ResponseArrives(m)]).completed
        == t.completed + [Completion(num, m.results[position], Sha256(m.block), Fast)]
  {
    hide Matching;
    RunFollows(s, events);
    var more := events + [ResponseArrives(m)];
    assert more[..|more| - 1] == events;
  }

  /** The response with which n - f agree, and not all, is followed by a commit for its block that carries the
      responses that match it. */
  lemma EnoughSendsCommit(s: ClientState, events: seq<Event>, m: SpecResponse)
    requires Ready(s) && s.invoke.None? && s.byzantine
    requires After(s, events).status == Active && After(s, events).invoke.Some?
    requires HasResult(s.index, After(s, events).requestNum, m)
    ensures
      var t, t' := After(s, events), After(s, events + [ResponseArrives(m)]);
      var latest := LatestSince(s.index, t.requestNum, events + [ResponseArrives(m)]);
      var agreeing := set k | k in Matching(latest, m) :: latest[k];
      t'.sentCommits == t.sentCommits
        + if |Matching(latest, m)| == s.n - s.f != s.n then [Commit(s.index, Sha256(m.block), agreeing)] else []
  {
    hide Position, After, Matching, HandleResponse, TargetSince, CommittersSince;
    RunFollows(s, events);
    var t, more := After(s, events), events + [ResponseArrives(m)];
    assert more[..|more| - 1] == events;
    assert After(s, more) == HandleResponse(t, m) by { OneMore(s, events, m); }
    SendsCommit(t, m, LatestSince(s.index, t.requestNum, more));
  }

  lemma OneMore(s: ClientState, events: seq<Event>, m: SpecResponse)
    requires Ready(s)
    ensures After(s, events + [ResponseArrives(m)]) == HandleResponse(After(s, events), m)
  {
    var more := events + [ResponseArrives(m)];
    assert more[..|more| - 1] == events;
  }

  lemma SendsCommit(s: ClientState, m: SpecResponse, latest: map<ReplicaIndex, SpecResponse>)
    requires Ready(s) && s.status == Active && s.invoke.Some? && s.byzantine && HasResult(s.index, s.requestNum, m)
    requires latest == s.invoke.value.responses[m.replica := m]
    ensures
      var agreeing := set k | k in Matching(latest, m) :: latest[k];
      HandleResponse(s, m).sentCommits == s.sentCommits
        + if |Matching(latest, m)| == s.n - s.f != s.n then [Commit(s.index, Sha256(m.block), agreeing)] else []
  {
    hide Position;
    var agreeing := set k | k in Matching(latest, m) :: latest[k];
    var s' := HandleResponse(s, m);
    if |Matching(latest, m)| == s.n - s.f != s.n {
      assert s'.sentCommits[|s.sentCommits|].responses == agreeing;
    }
  }

  /** A client stops exactly when it is invoked while a request is pending, or a response holds the pending request
      without a result for it. */
  lemma StopsIff(s: ClientState, events: seq<Event>, e: Event)
    requires Ready(s) && After(s, events).status == Active
    ensures
      var t := After(s, events);
      var lacks := e.ResponseArrives? && Position(e.response.block.requests, s.index, t.requestNum).Some?
                   && !HasResult(s.index, t.requestNum, e.response);
      After(s, events + [e]).status == Active <==> t.invoke.None? || !(e.Invokes? || lacks)
  {
    hide Matching;
    var more := events + [e];
    assert more[..|more| - 1] == events;
  }
}
