/** A run of the Zyzzyva client, with no faulty replica, that completes on the commit path although only
    one replica confirmed the completed block. */
module ZyzzyvaMiscount {
  import opened Blocks
  import opened Quorums
  import opened Zyzzyva
  import opened ZyzzyvaClient
  import opened ZyzzyvaClientRuns
  import opened ZyzzyvaOrderedTwice
  import ZyzzyvaRuns

  lemma AfterOneMore(s: ClientState, events: seq<Event>, e: Event)
    requires Ready(s)
    ensures After(s, events + [e]) == Handled(After(s, events), e)
  {
    assert (events + [e])[..|events|] == events;
  }

  /** The commit sent when enough responses match `m`. */
  function CommitOf(responses: map<ReplicaIndex, SpecResponse>, m: SpecResponse): Commit {
    Commit(0, Sha256(m.block), set k | k in Matching(responses, m) :: responses[k])
  }

  /** Replica r of n = 4, f = 1 answers; `count` responses now match. */
  lemma Respond(s: ClientState, block: Block, results: seq<Result>, r: ReplicaIndex, count: nat) returns (s': ClientState)
    requires Ready(s) && s.n == 4 && s.f == 1 && s.index == 0 && s.byzantine && s.status == Active
    requires s.requestNum == 1 && s.invoke.Some? && block.requests == [OWN] && |results| == 1
    requires
      var m := SpecResponse(block, results, r);
      |Matching(s.invoke.value.responses[r := m], m)| == count <= 3
    ensures
      var m := SpecResponse(block, results, r);
      && s' == Handled(s, ResponseArrives(m))
      && s'.invoke.Some? && s'.invoke.value.responses == s.invoke.value.responses[r := m]
      && s'.invoke.value.localCommits == s.invoke.value.localCommits
      && s'.requestNum == 1 && s'.status == Active && s'.completed == s.completed && s'.sent == s.sent
      && (count == 3 ==>
            s'.invoke.value.commitDigest == Some(Sha256(block)) && s'.invoke.value.commitResult == Some(results[0]))
      && s'.sentCommits
           == s.sentCommits + (if count == 3 then [CommitOf(s'.invoke.value.responses, m)] else [])
  {
    assert Position([OWN], 0, 1) == Some(0);
    var m := SpecResponse(block, results, r);
    s' := Handled(s, ResponseArrives(m));
    var responses := s.invoke.value.responses[r := m];
    if count == 3 {
      assert CommitOf(responses, m).responses == set k | k in Matching(responses, m) :: responses[k];
      assert s'.sentCommits[|s.sentCommits|].responses == CommitOf(responses, m).responses;
    }
  }

  /** The commit for three responses with this block and these results. */
  function ThreeCommit(block: Block, results: seq<Result>): Commit {
    Commit(0, Sha256(block),
           {SpecResponse(block, results, 0), SpecResponse(block, results, 1), SpecResponse(block, results, 2)})
  }

  function Responses(block: Block, results: seq<Result>): seq<Event> {
    [ResponseArrives(SpecResponse(block, results, 0)), ResponseArrives(SpecResponse(block, results, 1)),
     ResponseArrives(SpecResponse(block, results, 2))]
  }

  lemma AfterThreeMore(s: ClientState, events: seq<Event>, e1: Event, e2: Event, e3: Event)
    requires Ready(s)
    ensures After(s, events + [e1, e2, e3]) == Handled(Handled(Handled(After(s, events), e1), e2), e3)
  {
    AfterOneMore(s, events, e1);
    AfterOneMore(s, events + [e1], e2);
    AfterOneMore(s, events + [e1] + [e2], e3);
    assert events + [e1, e2, e3] == events + [e1] + [e2] + [e3];
  }

  /** Three replicas answer with the same block, which the client then commits. */
  lemma ThreeRespond(s: ClientState, events: seq<Event>, block: Block, results: seq<Result>) returns (s': ClientState)
    requires Ready(s) && After(s, events).n == 4 && After(s, events).f == 1 && After(s, events).index == 0
    requires
      var t := After(s, events);
      && t.byzantine && t.status == Active && t.requestNum == 1 && t.invoke.Some?
      && (forall k :: k in t.invoke.value.responses ==> k < 3 && t.invoke.value.responses[k].block != block)
    requires block.requests == [OWN] && |results| == 1
    ensures s' == After(s, events + Responses(block, results))
    ensures
      && s'.n == 4 && s'.f == 1 && s'.index == 0 && s'.byzantine && s'.status == Active && s'.requestNum == 1
      && s'.invoke.Some? && s'.invoke.value.commitDigest == Some(Sha256(block))
      && s'.invoke.value.commitResult == Some(results[0])
      && s'.invoke.value.localCommits == After(s, events).invoke.value.localCommits
      && s'.completed == After(s, events).completed && s'.sent == After(s, events).sent
      && s'.sentCommits == After(s, events).sentCommits + [ThreeCommit(block, results)]
      && forall k :: k in s'.invoke.value.responses ==> k < 3 && s'.invoke.value.responses[k].block == block
  {
    hide Handled;
    var t := After(s, events);
    var r := t.invoke.value.responses;
    var m0, m1, m2 := SpecResponse(block, results, 0), SpecResponse(block, results, 1), SpecResponse(block, results, 2);
    assert Matching(r[0 := m0], m0) == {0};
    var t0 := Respond(t, block, results, 0, 1);
    assert Matching(r[0 := m0][1 := m1], m1) == {0, 1};
    var t1 := Respond(t0, block, results, 1, 2);
    assert Matching(r[0 := m0][1 := m1][2 := m2], m2) == {0, 1, 2};
    s' := Respond(t1, block, results, 2, 3);
    var all := r[0 := m0][1 := m1][2 := m2];
    assert all[0] in CommitOf(all, m2).responses && all[1] in CommitOf(all, m2).responses;
    assert CommitOf(all, m2).responses == ThreeCommit(block, results).responses;
    AfterThreeMore(s, events, ResponseArrives(m0), ResponseArrives(m1), ResponseArrives(m2));
  }

  lemma LocalCommitTaken(s: ClientState, events: seq<Event>, m: LocalCommit) returns (s': ClientState)
    requires Ready(s)
    requires
      var t := After(s, events);
      && t.n == 4 && t.f == 1 && t.status == Active && t.invoke.Some? && t.invoke.value.commitDigest == Some(m.digest)
    ensures s' == After(s, events + [LocalCommitArrives(m)])
    ensures s' == HandleLocalCommit(After(s, events), m)
  {
    AfterOneMore(s, events, LocalCommitArrives(m));
    s' := HandleLocalCommit(After(s, events), m);
  }

  /** A run in which the client, after two local commits for the first block, turns to the second. */
  function WrongBlockRun(): seq<Event> {
    [Invokes([])] + Responses(FIRST, FIRST_RESULTS)
    + [LocalCommitArrives(LocalCommit(Sha256(FIRST), 0))] + [LocalCommitArrives(LocalCommit(Sha256(FIRST), 1))]
    + Responses(SECOND, SECOND_RESULTS)
    + [LocalCommitArrives(LocalCommit(Sha256(SECOND), 2))]
  }

  const RUN_COMMITS: set<LocalCommit> :=
    {LocalCommit(Sha256(FIRST), 0), LocalCommit(Sha256(FIRST), 1), LocalCommit(Sha256(SECOND), 2)}

  function RunResponses(): set<SpecResponse> {
    {SpecResponse(FIRST, FIRST_RESULTS, 0), SpecResponse(FIRST, FIRST_RESULTS, 1), SpecResponse(FIRST, FIRST_RESULTS, 2),
     SpecResponse(SECOND, SECOND_RESULTS, 0), SpecResponse(SECOND, SECOND_RESULTS, 1),
     SpecResponse(SECOND, SECOND_RESULTS, 2)}
  }

  lemma WrongBlockRunGenuine(c: Config)
    ensures GenuineEvents(c, RunResponses(), RUN_COMMITS, WrongBlockRun())
  {
    forall e | e in WrongBlockRun() ensures Genuine(c, RunResponses(), RUN_COMMITS, e) {
      var run := WrongBlockRun();
      assert |run| == 10;
      var i :| 0 <= i < 10 && run[i] == e;
    }
  }

  /** What the client receives is what correct replicas send in a run: the primary is handed the client's
      request twice, the replicas receive each order request once, and the commits they receive are the
      two that the client sends. */
  lemma ReplicasSaySo() returns (run: seq<ZyzzyvaRuns.System>)
    ensures CorrectPrimary(FOUR) && ZyzzyvaRuns.IsRun(FOUR, run, true)
    ensures ZyzzyvaRuns.Said(run[|run| - 1], RunResponses())
    ensures ZyzzyvaRuns.Acknowledged(run[|run| - 1], RUN_COMMITS)
  {
    hide ZyzzyvaRuns.Next, ZyzzyvaRuns.Responded, ZyzzyvaRuns.Acknowledges;
    run := AnsweredTwice(ThreeCommit(FIRST, FIRST_RESULTS), ThreeCommit(SECOND, SECOND_RESULTS));
    assert run[|run| - 1] == Last(run);
  }

  /** Not every run is undisturbed: here, with four correct replicas, a request completes on the commit
      path for a block of which one single replica has sent a local commit. */
  lemma SlowPathCanMiscount() returns (run: seq<ZyzzyvaRuns.System>)
    ensures CorrectPrimary(FOUR) && FOUR.faulty == {} && ZyzzyvaRuns.IsRun(FOUR, run, true)
    ensures ZyzzyvaRuns.Said(run[|run| - 1], RunResponses())
    ensures ZyzzyvaRuns.Acknowledged(run[|run| - 1], RUN_COMMITS)
    ensures GenuineEvents(FOUR, RunResponses(), RUN_COMMITS, WrongBlockRun())
    ensures
      var s := After(InitClient(4, 1, 0, true), WrongBlockRun());
      && s.sent == [(OWN.num, OWN.op)]
      && s.sentCommits == [ThreeCommit(FIRST, FIRST_RESULTS), ThreeCommit(SECOND, SECOND_RESULTS)]
      && s.completed == [Completion(1, [[], []], Sha256(SECOND), Slow)]
      && !Confirmed(FOUR, RUN_COMMITS, s.completed[0])
      && !Undisturbed(InitClient(4, 1, 0, true), WrongBlockRun())
  {
    hide After, GenuineEvents, Undisturbed, WrongBlockRun, Confirmed, ZyzzyvaRuns.IsRun, ZyzzyvaRuns.Said;
    hide ZyzzyvaRuns.Acknowledged, RunResponses;
    run := ReplicasSaySo();
    var c, init := FOUR, InitClient(4, 1, 0, true);
    WrongBlockRunGenuine(c);
    WrongBlockCompletes();
    var done := After(init, WrongBlockRun()).completed[0];
    OneConfirmerIsTooFew(c, done);
    if Undisturbed(init, WrongBlockRun()) {
      SlowPathIsConfirmed(c, RunResponses(), RUN_COMMITS, 0, true, WrongBlockRun());
      assert false;
    }
  }

  lemma OneConfirmerIsTooFew(c: Config, done: Completion)
    requires c == Config(4, 1, {}) && done.path == Slow && done.digest == Sha256(SECOND)
    ensures ValidConfig(c) && !Confirmed(c, RUN_COMMITS, done)
  {
    assert Confirmers(RUN_COMMITS, Sha256(SECOND)) == {2};
  }

  lemma WrongBlockCompletes()
    ensures
      var s := After(InitClient(4, 1, 0, true), WrongBlockRun());
      && s.completed == [Completion(1, [[], []], Sha256(SECOND), Slow)]
      && s.sent == [(OWN.num, OWN.op)]
      && s.sentCommits == [ThreeCommit(FIRST, FIRST_RESULTS), ThreeCommit(SECOND, SECOND_RESULTS)]
  {
    hide After, WrongBlockRun;
    var init := InitClient(4, 1, 0, true);
    var s, events := WrongBlockTarget(init);
    var s' := LocalCommitTaken(init, events, LocalCommit(Sha256(SECOND), 2));
    assert {0, 1} + {2} == {0, 1, 2} && |{0, 1, 2}| == 3;
  }

  /** The state of that run before its last message. */
  lemma WrongBlockTarget(init: ClientState) returns (s: ClientState, events: seq<Event>)
    requires init == InitClient(4, 1, 0, true)
    ensures WrongBlockRun() == events + [LocalCommitArrives(LocalCommit(Sha256(SECOND), 2))]
    ensures s == After(init, events) && s.n == 4 && s.f == 1 && s.status == Active && s.requestNum == 1
    ensures s.invoke.Some? && s.invoke.value.commitDigest == Some(Sha256(SECOND)) && s.invoke.value.localCommits == {0, 1}
    ensures s.invoke.value.commitResult == Some([[], []]) && s.completed == [] && s.sent == [(1, [])]
    ensures s.sentCommits == [ThreeCommit(FIRST, FIRST_RESULTS), ThreeCommit(SECOND, SECOND_RESULTS)]
  {
    hide HandleResponse, After, Matching, Responses, ThreeCommit;
    var e0 := [Invokes([])];
    AfterOneMore(init, [], e0[0]);
    assert [] + [e0[0]] == e0;
    AfterNone(init);
    var s1 := ThreeRespond(init, e0, FIRST, FIRST_RESULTS);
    var e1 := e0 + Responses(FIRST, FIRST_RESULTS);
    var l0, l1 := LocalCommit(Sha256(FIRST), 0), LocalCommit(Sha256(FIRST), 1);
    assert |{0}| == 1 && {} + {0} == {0} && {0} + {1} == {0, 1};
    var s2 := LocalCommitTaken(init, e1, l0);
    var e2 := e1 + [LocalCommitArrives(l0)];
    var s3 := LocalCommitTaken(init, e2, l1);
    var e3 := e2 + [LocalCommitArrives(l1)];
    s := ThreeRespond(init, e3, SECOND, SECOND_RESULTS);
    events := e3 + Responses(SECOND, SECOND_RESULTS);
  }

  lemma AfterNone(s: ClientState)
    requires Ready(s)
    ensures After(s, []) == s
  {
  }
}
