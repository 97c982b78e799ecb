/** A run of two correct PBFT replicas in which the commits for block 2 overtake those for block 1. */
module PbftOvertaken {
  // The backup then executes both blocks at once, and its reply to the request of block 2 carries the digest of
  // block 1.

  import opened Blocks
  import opened Quorums
  import opened Chains
  import opened Pbft
  import opened PbftRuns
  import opened PbftReplyDigests

  const TWO: Config := Config(2, 0, {})
  const BACKUP: ReplicaIndex := 1

  const OLDER: Request := Request(0, 1, [])
  const NEWER: Request := Request(0, 2, [])

  const FIRST: Block := Block([OLDER], GENESIS_DIGEST, 1)
  const SECOND: Block := Block([NEWER], Sha256(FIRST), 2)

  ghost function Last(run: seq<System>): System
    requires |run| > 0
  {
    run[|run| - 1]
  }

  lemma OneMoreStep(run: seq<System>, r: ReplicaIndex, e: Event) returns (more: seq<System>)
    requires IsRun(TWO, run) && |run| > 0 && r in Last(run) && WellFormed(Last(run)[r]) && Enabled(TWO, Last(run), r, e)
    ensures IsRun(TWO, more) && |more| > 0 && Last(more) == Last(run)[r := Handle(Last(run)[r], e)]
  {
    hide Handle, Enabled;
    more := run + [Last(run)[r := Handle(Last(run)[r], e)]];
    assert StepBy(TWO, Last(run), Last(more), r, e);
    forall i | 0 <= i < |more| - 1 ensures Next(TWO, more[i], more[i + 1]) {
      if i < |run| - 1 {
        assert Next(TWO, run[i], run[i + 1]);
      }
    }
  }

  /** A running replica of the two, in view 0. */
  ghost predicate Up(s: State, r: ReplicaIndex) {
    WellFormed(s) && s.n == 2 && s.f == 0 && s.index == r && s.viewNum == 0 && s.status.Running?
  }

  // ---------- the primary proposes ----------

  lemma ProposesOne(s: State, request: Request)
    requires Up(s, PRIMARY) && s.requests == []
    ensures
      var s1 := HandleRequest(s, request);
      var block := Block([request], s.chain.digestParent, s.chain.height + 1);
      var t := OnPace(s1);
      && Up(s1, PRIMARY) && Up(t, PRIMARY)
      && t == s.(chain := s.chain.(digestParent := Sha256(block), height := s.chain.height + 1),
                 accepted := t.accepted, sentPrePrepares := s.sentPrePrepares + [PrePrepare(0, block)])
  {
    var s1 := HandleRequest(s, request);
    assert s1.requests == [request] && [request][..1] == [request];
  }

  lemma ProposeStep(run: seq<System>, request: Request) returns (more: seq<System>)
    requires IsRun(TWO, run) && |run| > 0 && PRIMARY in Last(run) && Up(Last(run)[PRIMARY], PRIMARY) && Last(run)[PRIMARY].requests == []
    ensures IsRun(TWO, more) && |more| > 0 && Last(more) == Last(run)[PRIMARY := OnPace(HandleRequest(Last(run)[PRIMARY], request))]
  {
    hide HandleRequest, OnPace, Next;
    ProposesOne(Last(run)[PRIMARY], request);
    more := OneMoreStep(run, PRIMARY, RequestArrives(request));
    more := OneMoreStep(more, PRIMARY, Pace);
  }

  // ---------- both replicas prepare a block ----------

  function Prepares(block: Block): Prepare {
    Prepare(0, Sha256(block), BACKUP)
  }

  /** What a replica keeps and sends for a block once it is prepared. */
  ghost function WithBlock(s: State, block: Block): State {
    var d := Sha256(block);
    s.(prePrepares := s.prePrepares[d := PrePrepare(0, block)],
       prepareCertificates := s.prepareCertificates[d := map[BACKUP := Prepares(block)]],
       sentPrepares := if s.index == BACKUP then s.sentPrepares + [Prepares(block)] else s.sentPrepares,
       sentCommits := s.sentCommits + [Commit(0, d, s.index)])
  }

  lemma BackupPrepares(s: State, block: Block)
    requires Up(s, BACKUP) && Sha256(block) !in s.prepareCertificates
    ensures
      var s1 := HandlePrePrepare(s, PrePrepare(0, block));
      && Up(s1, BACKUP) && s1.sentPrepares == s.sentPrepares + [Prepares(block)]
      && LoopbackPrepare(s1, Prepares(block)) == WithBlock(s, block) && Up(WithBlock(s, block), BACKUP)
  {
  }

  lemma PrimaryPrepares(s: State, block: Block)
    requires Up(s, PRIMARY) && Sha256(block) !in s.prepareCertificates
    ensures
      var s1 := LoopbackPrePrepare(s, PrePrepare(0, block));
      && Up(s1, PRIMARY)
      && HandlePrepare(s1, Prepares(block)) == WithBlock(s, block) && Up(WithBlock(s, block), PRIMARY)
  {
  }

  lemma PrepareStep(run: seq<System>, block: Block) returns (more: seq<System>)
    requires IsRun(TWO, run) && |run| > 0 && Last(run).Keys == {PRIMARY, BACKUP}
    requires Up(Last(run)[PRIMARY], PRIMARY) && Up(Last(run)[BACKUP], BACKUP)
    requires PrePrepare(0, block) in Last(run)[PRIMARY].sentPrePrepares
    requires Sha256(block) !in Last(run)[PRIMARY].prepareCertificates
    requires Sha256(block) !in Last(run)[BACKUP].prepareCertificates
    ensures IsRun(TWO, more) && |more| > 0
    ensures Last(more) == map[PRIMARY := WithBlock(Last(run)[PRIMARY], block), BACKUP := WithBlock(Last(run)[BACKUP], block)]
    ensures Up(Last(more)[PRIMARY], PRIMARY) && Up(Last(more)[BACKUP], BACKUP)
  {
    hide HandlePrePrepare, LoopbackPrepare, LoopbackPrePrepare, HandlePrepare, WithBlock, Next, WellFormed;
    var sys := Last(run);
    BackupPrepares(sys[BACKUP], block);
    PrimaryPrepares(sys[PRIMARY], block);
    var run1 := OneMoreStep(run, BACKUP, PrePrepareArrives(PrePrepare(0, block)));
    var run2 := OneMoreStep(run1, BACKUP, OwnPrepareArrives(Prepares(block)));
    var run3 := OneMoreStep(run2, PRIMARY, OwnPrePrepareArrives(PrePrepare(0, block)));
    assert GenuinePrepare(TWO, Last(run3), Prepares(block)) by { PrepareIsSent(sys[BACKUP], block); }
    more := OneMoreStep(run3, PRIMARY, PrepareArrives(Prepares(block)));
  }

  lemma PrepareIsSent(s: State, block: Block)
    requires s.index == BACKUP
    ensures Prepares(block) in WithBlock(s, block).sentPrepares
  {
  }

  ghost predicate Untried(s: State) {
    && s.prePrepares == map[] && s.prepareCertificates == map[] && s.commitCertificates == map[]
    && s.app == [] && s.sentReplies == [] && s.executed == [] && s.sentCommits == []
  }

  lemma BothProposed() returns (run: seq<System>)
    ensures IsRun(TWO, run) && |run| > 0 && Last(run).Keys == {PRIMARY, BACKUP}
    ensures Up(Last(run)[PRIMARY], PRIMARY) && Untried(Last(run)[PRIMARY])
    ensures Up(Last(run)[BACKUP], BACKUP) && Untried(Last(run)[BACKUP]) && Last(run)[BACKUP].chain == NEW_CHAIN
    ensures Last(run)[PRIMARY].sentPrePrepares == [PrePrepare(0, FIRST), PrePrepare(0, SECOND)]
  {
    hide HandleRequest, OnPace, Next;
    run := [InitSystem(TWO)];
    assert Correct(TWO) == {PRIMARY, BACKUP};
    var s := Init(2, 0, PRIMARY);
    ProposesOne(s, OLDER);
    var t := OnPace(HandleRequest(s, OLDER));
    ProposesOne(t, NEWER);
    run := ProposeStep(run, OLDER);
    run := ProposeStep(run, NEWER);
  }

  lemma BothPrepared() returns (run: seq<System>)
    ensures IsRun(TWO, run) && |run| > 0 && Last(run).Keys == {PRIMARY, BACKUP}
    ensures Up(Last(run)[BACKUP], BACKUP)
    ensures
      var s := Last(run)[BACKUP];
      && s.prePrepares == map[Sha256(FIRST) := PrePrepare(0, FIRST), Sha256(SECOND) := PrePrepare(0, SECOND)]
      && s.commitCertificates == map[] && s.chain == NEW_CHAIN
      && s.app == [] && s.sentReplies == [] && s.executed == []
    ensures forall r | r in Last(run) ::
              Last(run)[r].sentCommits == [Commit(0, Sha256(FIRST), r), Commit(0, Sha256(SECOND), r)]
  {
    hide IsRun, WellFormed;
    run := BothProposed();
    run := PrepareStep(run, FIRST);
    run := PrepareStep(run, SECOND);
  }

  // ---------- the backup takes the commits ----------

  lemma CommitStep(run: seq<System>, d: Digest) returns (more: seq<System>)
    requires IsRun(TWO, run) && |run| > 0 && Last(run).Keys == {PRIMARY, BACKUP} && Up(Last(run)[BACKUP], BACKUP)
    requires forall r | r in Last(run) :: Commit(0, d, r) in Last(run)[r].sentCommits
    ensures IsRun(TWO, more) && |more| > 0
    ensures
      Last(more) == Last(run)[BACKUP := HandleCommit(LoopbackCommit(Last(run)[BACKUP], Commit(0, d, BACKUP)), Commit(0, d, PRIMARY))]
  {
    hide LoopbackCommit, HandleCommit, Next;
    more := OneMoreStep(run, BACKUP, OwnCommitArrives(Commit(0, d, BACKUP)));
    more := OneMoreStep(more, BACKUP, CommitArrives(Commit(0, d, PRIMARY)));
  }

  /** The backup, when the commits for block 2 have arrived: it waits for block 1. */
  lemma SecondWaits(s: State) returns (t: State)
    requires Up(s, BACKUP) && s.commitCertificates == map[] && s.chain == NEW_CHAIN
    requires s.prePrepares == map[Sha256(FIRST) := PrePrepare(0, FIRST), Sha256(SECOND) := PrePrepare(0, SECOND)]
    ensures t == HandleCommit(LoopbackCommit(s, Commit(0, Sha256(SECOND), BACKUP)), Commit(0, Sha256(SECOND), PRIMARY))
    ensures Up(t, BACKUP) && t.prePrepares == s.prePrepares && Sha256(FIRST) !in t.commitCertificates
    ensures t.chain == s.chain.(pending := map[Sha256(FIRST) := Sha256(SECOND)])
    ensures t.app == s.app && t.sentReplies == s.sentReplies && t.executed == s.executed
    ensures t.sentCommits == s.sentCommits
  {
    var d := Sha256(SECOND);
    var s1 := LoopbackCommit(s, Commit(0, d, BACKUP));
    assert s1.commitCertificates[d] == map[BACKUP := Commit(0, d, BACKUP)];
    TwoCommits(d);
    t := HandleCommit(s1, Commit(0, d, PRIMARY));
  }

  lemma TwoCommits(d: Digest)
    ensures |map[BACKUP := Commit(0, d, BACKUP)][PRIMARY := Commit(0, d, PRIMARY)]| == 2
  {
    assert map[BACKUP := Commit(0, d, BACKUP)][PRIMARY := Commit(0, d, PRIMARY)].Keys == {BACKUP, PRIMARY};
  }

  /** The commits for block 1 execute both blocks. */
  lemma FirstRunsBoth(s: State) returns (t: State)
    requires Up(s, BACKUP) && Sha256(FIRST) !in s.commitCertificates
    requires s.chain == NEW_CHAIN.(pending := map[Sha256(FIRST) := Sha256(SECOND)])
    requires s.prePrepares == map[Sha256(FIRST) := PrePrepare(0, FIRST), Sha256(SECOND) := PrePrepare(0, SECOND)]
    requires s.app == [] && s.sentReplies == [] && s.executed == []
    ensures t == HandleCommit(LoopbackCommit(s, Commit(0, Sha256(FIRST), BACKUP)), Commit(0, Sha256(FIRST), PRIMARY))
    ensures t.executed == [FIRST, SECOND]
    ensures t.sentReplies == [(0, Reply(1, [[]], Sha256(FIRST), BACKUP)), (0, Reply(2, [[], []], Sha256(FIRST), BACKUP))]
  {
    hide ExecuteFrom;
    var d := Sha256(FIRST);
    var s1 := LoopbackCommit(s, Commit(0, d, BACKUP));
    assert s1.commitCertificates[d] == map[BACKUP := Commit(0, d, BACKUP)];
    TwoCommits(d);
    t := HandleCommit(s1, Commit(0, d, PRIMARY));
    var certificate: map<ReplicaIndex, Commit> := s1.commitCertificates[d][PRIMARY := Commit(0, d, PRIMARY)];
    var s2 := s1.(commitCertificates := s1.commitCertificates[d := certificate],
                  chain := s.chain.(digestExecute := d));
    assert t == ExecuteFrom(s2, FIRST, d);
    RunsBoth(s2);
  }

  lemma RunsOne(s: State, block: Block, request: Request, d: Digest)
    requires block.requests == [request]
    ensures RunBlock(s, block, d)
         == s.(app := s.app + [request.op], executed := s.executed + [block],
               sentReplies := s.sentReplies + [(request.client, Reply(request.num, s.app + [request.op], d, s.index))])
  {
    var s1 := s.(executed := s.executed + [block]);
    var reply := (request.client, Reply(request.num, s.app + [request.op], d, s.index));
    var s2 := s1.(app := s.app + [request.op], sentReplies := s.sentReplies + [reply]);
    assert [request][1..] == [] && RunRequests(s2, [], d) == s2;
    assert RunRequests(s1, [request], d) == RunRequests(s2, [request][1..], d);
  }

  lemma RunsBoth(s: State)
    requires WellFormed(s) && s.index == BACKUP && s.app == [] && s.sentReplies == [] && s.executed == []
    requires s.chain == NEW_CHAIN.(digestExecute := Sha256(FIRST), pending := map[Sha256(FIRST) := Sha256(SECOND)])
    requires Sha256(SECOND) in s.prePrepares && s.prePrepares[Sha256(SECOND)].block == SECOND
    ensures
      var t := ExecuteFrom(s, FIRST, Sha256(FIRST));
      && t.executed == [FIRST, SECOND]
      && t.sentReplies == [(0, Reply(1, [[]], Sha256(FIRST), BACKUP)), (0, Reply(2, [[], []], Sha256(FIRST), BACKUP))]
  {
    hide ExecuteFrom, RunBlock, WellFormed;
    var d := Sha256(FIRST);
    ExecuteFromStep(s, FIRST, d);
    RunsOne(s, FIRST, OLDER, d);
    var s1 := RunBlock(s, FIRST, d).(chain := NextOf(s.chain).0);
    assert s.app + [OLDER.op] == [[]];
    assert s1.chain.pending == map[];
    ExecuteFromStep(s1, SECOND, d);
    RunsOne(s1, SECOND, NEWER, d);
    assert s1.app + [NEWER.op] == [[], []];
  }

  lemma BothCommitted() returns (run: seq<System>)
    ensures IsRun(TWO, run) && |run| > 0 && BACKUP in Last(run)
    ensures
      var s := Last(run)[BACKUP];
      && s.executed == [FIRST, SECOND]
      && s.sentReplies
           == [(0, Reply(1, [[]], Sha256(FIRST), BACKUP)), (0, Reply(2, [[], []], Sha256(FIRST), BACKUP))]
  {
    hide HandleCommit, LoopbackCommit, IsRun, WellFormed;
    run := BothPrepared();
    var t := SecondWaits(Last(run)[BACKUP]);
    run := CommitStep(run, Sha256(SECOND));
    assert Last(run)[BACKUP] == t;
    var done := FirstRunsBoth(t);
    run := CommitStep(run, Sha256(FIRST));
    assert Last(run)[BACKUP] == done;
  }

  /** So a reply can carry the digest of another block, in a run of correct replicas. */
  lemma RepliesCarryAnother() returns (run: seq<System>)
    ensures CorrectPrimary(TWO) && TWO.faulty == {} && IsRun(TWO, run) && BACKUP in Last(run)
    ensures
      var s := Last(run)[BACKUP];
      && s.executed == [FIRST, SECOND]
      && s.sentReplies
           == [(0, Reply(1, [[]], Sha256(FIRST), BACKUP)), (0, Reply(2, [[], []], Sha256(FIRST), BACKUP))]
      && !CarriesOwn(s)
    ensures !NeverJumps(TWO, run, BACKUP)
  {
    hide IsRun, NeverJumps, CarriesOwn;
    run := BothCommitted();
    NotItsOwn(Last(run)[BACKUP]);
    CarriesOwnIff(TWO, run, BACKUP);
  }

  lemma NotItsOwn(s: State)
    requires s.executed == [FIRST, SECOND] && |s.sentReplies| == 2 && s.sentReplies[1].1.digest == Sha256(FIRST)
    ensures !CarriesOwn(s)
  {
    assert [FIRST, SECOND][..1] == [FIRST] && [FIRST][..0] == [];
    assert OwnDigests([FIRST]) == OwnDigests([]) + [Sha256(FIRST)];
    assert OwnDigests([FIRST, SECOND]) == OwnDigests([FIRST]) + [Sha256(SECOND)];
    assert OwnDigests(s.executed)[1] == Sha256(SECOND);
    assert DigestsOf(s.sentReplies)[1] == Sha256(FIRST);
  }
}
