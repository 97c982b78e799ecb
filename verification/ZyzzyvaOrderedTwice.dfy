/** A run of four correct Zyzzyva replicas in which the primary is handed one request twice. */
module ZyzzyvaOrderedTwice {
  // The primary orders the request in two blocks, every replica that receives both order requests
  // executes and answers both, and acknowledges a commit of either.

  import opened Blocks
  import opened Quorums
  import opened Zyzzyva
  import opened ZyzzyvaRuns

  const FOUR: Config := Config(4, 1, {})

  const OWN: Request := Request(0, 1, [])

  const FIRST: Block := Block([OWN], GENESIS_DIGEST, 1)
  const SECOND: Block := Block([OWN], Sha256(FIRST), 2)

  const FIRST_RESULTS: seq<Result> := [[[]]]
  const SECOND_RESULTS: seq<Result> := [[[], []]]

  const BOTH: seq<OrderRequest> := [OrderRequest(0, FIRST), OrderRequest(0, SECOND)]

  /** Replica r has received no order request yet. */
  ghost predicate Idle(s: State, r: ReplicaIndex) {
    && s.n == 4 && s.index == r && s.viewNum == 0 && s.status == Running && s.app == []
    && s.orderRequests == map[] && s.commits == map[] && s.sentResponses == [] && s.sentLocalCommits == []
    && s.chain.digestExecute == GENESIS_DIGEST && s.chain.pending == map[]
  }

  /** Replica r has answered both blocks, and acknowledged a commit of the block of `d`. */
  ghost predicate Answered(s: State, r: ReplicaIndex, d: Digest) {
    && Responded(s, SpecResponse(FIRST, FIRST_RESULTS, r))
    && Responded(s, SpecResponse(SECOND, SECOND_RESULTS, r))
    && Acknowledges(s, LocalCommit(d, r))
  }

  ghost function Last(run: seq<System>): System
    requires |run| > 0
  {
    run[|run| - 1]
  }

  lemma OneMoreStep(run: seq<System>, r: ReplicaIndex, e: Event) returns (more: seq<System>)
    requires IsRun(FOUR, run, true) && r in Last(run) && WellFormed(Last(run)[r]) && Enabled(Last(run), r, e, true)
    ensures IsRun(FOUR, more, true) && Last(more) == Last(run)[r := Handle(Last(run)[r], e)]
  {
    hide Handle, Enabled;
    more := run + [Last(run)[r := Handle(Last(run)[r], e)]];
    assert StepBy(Last(run), Last(more), r, e, true);
    forall i | 0 <= i < |more| - 1 ensures Next(more[i], more[i + 1], true) {
      if i < |run| - 1 {
        assert Next(run[i], run[i + 1], true);
      }
    }
  }

  // ---------- the primary ----------

  lemma ProposesOwn(s: State) returns (s': State)
    requires WellFormed(s) && s.n == 4 && s.index == PRIMARY && s.viewNum == 0 && s.status == Running && s.requests == []
    ensures s' == HandleRequest(s, OWN) && WellFormed(s')
    ensures
      var block := Block([OWN], s.chain.digestParent, s.chain.height + 1);
      var t := OnPace(s');
      && t.sentOrderRequests == s.sentOrderRequests + [OrderRequest(0, block)] && t.requests == []
      && t.chain == s.chain.(digestParent := Sha256(block), height := s.chain.height + 1)
      && t == s.(chain := t.chain, accepted := t.accepted, sentOrderRequests := t.sentOrderRequests)
  {
    s' := HandleRequest(s, OWN);
    assert s'.requests == [OWN] && [OWN][..1] == [OWN];
  }

  /** The primary is handed the request and proposes it. */
  lemma OrdersOwn(run: seq<System>) returns (more: seq<System>)
    requires IsRun(FOUR, run, true) && PRIMARY in Last(run)
    requires
      var s := Last(run)[PRIMARY];
      WellFormed(s) && s.n == 4 && s.index == PRIMARY && s.viewNum == 0 && s.status == Running && s.requests == []
    ensures IsRun(FOUR, more, true) && Last(more) == Last(run)[PRIMARY := OnPace(HandleRequest(Last(run)[PRIMARY], OWN))]
  {
    hide HandleRequest, OnPace, Next;
    var s' := ProposesOwn(Last(run)[PRIMARY]);
    more := OneMoreStep(run, PRIMARY, RequestArrives(OWN));
    more := OneMoreStep(more, PRIMARY, Pace);
  }

  lemma OrderedTwice() returns (run: seq<System>)
    ensures IsRun(FOUR, run, true) && Last(run).Keys == Replicas(4)
    ensures Last(run)[PRIMARY].sentOrderRequests == BOTH
    ensures forall r :: r in Last(run) ==> WellFormed(Last(run)[r]) && Idle(Last(run)[r], r)
  {
    hide HandleRequest, OnPace, Next;
    run := [InitSystem(FOUR)];
    var s1 := ProposesOwn(Init(4, PRIMARY));
    var s2 := ProposesOwn(OnPace(s1));
    run := OrdersOwn(run);
    run := OrdersOwn(run);
  }

  // ---------- each replica ----------

  lemma TakesFirst(s: State, r: ReplicaIndex)
    requires WellFormed(s) && Idle(s, r)
    ensures
      var t := HandleOrderRequest(s, BOTH[0]);
      && t.app == [[]] && t.status == Running && t.chain.pending == map[] && t.chain.digestExecute == Sha256(FIRST)
      && t.orderRequests == map[Sha256(FIRST) := BOTH[0]]
      && t.sentResponses == [([0], SpecResponse(FIRST, FIRST_RESULTS, r))]
  {
    RunsOwn([]);
  }

  lemma TakesSecond(s: State, r: ReplicaIndex)
    requires WellFormed(s) && s.index == r && s.viewNum == 0 && s.status == Running && s.app == [[]]
    requires s.chain.pending == map[] && s.chain.digestExecute == Sha256(FIRST)
    ensures
      var t := HandleOrderRequest(s, BOTH[1]);
      && t.status == Running && t.orderRequests == s.orderRequests[Sha256(SECOND) := BOTH[1]]
      && t.sentResponses == s.sentResponses + [([0], SpecResponse(SECOND, SECOND_RESULTS, r))]
  {
    RunsOwn([[]]);
    assert s.app + [[]] == [[], []];
  }

  lemma RunsOwn(app: App)
    ensures RunRequests(app, [OWN]) == (app + [[]], [app + [[]]]) && ClientsOf([OWN]) == [0]
  {
    var none: seq<Result> := [];
    assert [OWN][..0] == [] && none + [app + [[]]] == [app + [[]]];
    assert RunRequests(app, []) == (app, none);
    assert RunRequests(app, [OWN]).0 == app + [[]];
    assert RunRequests(app, [OWN]).1 == none + [app + [[]]];
    assert ClientsOf([]) == [] && ClientsOf([OWN]) == ClientsOf([]) + [0];
  }

  lemma Plays(run: seq<System>, r: ReplicaIndex, commit: Commit) returns (more: seq<System>)
    requires IsRun(FOUR, run, true) && PRIMARY in Last(run) && Last(run)[PRIMARY].sentOrderRequests == BOTH
    requires r in Last(run) && WellFormed(Last(run)[r]) && Idle(Last(run)[r], r)
    requires commit.digest == Sha256(FIRST) || commit.digest == Sha256(SECOND)
    ensures IsRun(FOUR, more, true) && r in Last(more) && Last(more) == Last(run)[r := Last(more)[r]]
    ensures Last(more)[PRIMARY].sentOrderRequests == BOTH && Answered(Last(more)[r], r, commit.digest)
  {
    hide HandleOrderRequest, Next;
    var s := Last(run)[r];
    TakesFirst(s, r);
    var run1 := OneMoreStep(run, r, OrderRequestArrives(BOTH[0]));
    var s1 := HandleOrderRequest(s, BOTH[0]);
    TakesSecond(s1, r);
    var run2 := OneMoreStep(run1, r, OrderRequestArrives(BOTH[1]));
    var s2 := HandleOrderRequest(s1, BOTH[1]);
    more := OneMoreStep(run2, r, CommitArrives(0, commit));
    var s3 := HandleCommit(s2, 0, commit);
    assert s3.sentResponses[0].1 == SpecResponse(FIRST, FIRST_RESULTS, r);
    assert s3.sentResponses[1].1 == SpecResponse(SECOND, SECOND_RESULTS, r);
    assert s3.sentLocalCommits[0].1 == LocalCommit(commit.digest, r);
  }

  /** Replicas 0, 1 and 2 answer both blocks; 0 and 1 acknowledge the commit of the first, 2 that of the
      second. No order request reaches a replica twice, and every replica is correct. */
  lemma AnsweredTwice(first: Commit, second: Commit) returns (run: seq<System>)
    requires first.digest == Sha256(FIRST) && second.digest == Sha256(SECOND)
    ensures CorrectPrimary(FOUR) && IsRun(FOUR, run, true) && Last(run).Keys == Replicas(4)
    ensures Answered(Last(run)[0], 0, Sha256(FIRST)) && Answered(Last(run)[1], 1, Sha256(FIRST))
    ensures Answered(Last(run)[2], 2, Sha256(SECOND))
  {
    hide IsRun, Answered, Idle;
    run := OrderedTwice();
    run := Plays(run, 0, first);
    run := Plays(run, 1, first);
    run := Plays(run, 2, second);
  }
}
