/** Which block digest a PBFT reply carries: that of the block whose commit started the execution. */
module PbftReplyDigests {
  // A block that was waiting is executed in the same loop, and its replies carry the digest of another block.

  import opened Blocks
  import opened Chains
  import opened Pbft
  import opened Quorums
  import opened PbftRuns

  function Repeated(d: Digest, k: nat): seq<Digest> {
    seq(k, i => d)
  }

  /** For each request of the blocks, in order, the digest of its block. */
  function OwnDigests(blocks: seq<Block>): (r: seq<Digest>) {
    if blocks == [] then []
    else
      var last := |blocks| - 1;
      OwnDigests(blocks[..last]) + Repeated(Sha256(blocks[last]), |blocks[last].requests|)
  }

  function DigestsOf(replies: seq<(ClientIndex, Reply)>): (r: seq<Digest>)
    ensures |r| == |replies|
  {
    seq(|replies|, i requires 0 <= i < |replies| => replies[i].1.digest)
  }

  /** Every reply carries the digest of the block its request is in. */
  ghost predicate CarriesOwn(s: State) {
    DigestsOf(s.sentReplies) == OwnDigests(s.executed)
  }

  /** The blocks held carry requests, and a waiting block waits under its parent. */
  ghost predicate Sound(s: State) {
    && (forall d :: d in s.prePrepares ==> s.prePrepares[d].block.requests != [])
    && (forall d :: d in s.chain.pending && s.chain.pending[d] in s.prePrepares ==>
          s.prePrepares[s.chain.pending[d]].block.parent == d)
  }

  lemma {:induction false} RunRequestsDigests(s: State, requests: seq<Request>, d: Digest)
    ensures DigestsOf(RunRequests(s, requests, d).sentReplies) == DigestsOf(s.sentReplies) + Repeated(d, |requests|)
    decreases |requests|
  {
    if requests != [] {
      var request := requests[0];
      var reply := (request.client, Reply(request.num, s.app + [request.op], d, s.index));
      var s1 := s.(app := s.app + [request.op], sentReplies := s.sentReplies + [reply]);
      RunRequestsDigests(s1, requests[1..], d);
      assert DigestsOf(s1.sentReplies) == DigestsOf(s.sentReplies) + [d];
      assert [d] + Repeated(d, |requests| - 1) == Repeated(d, |requests|);
    }
  }

  /** All replies of one execution carry one digest. */
  lemma {:induction false} ExecuteFromDigests(s: State, block: Block, d: Digest) returns (k: nat)
    requires WellFormed(s)
    ensures k >= |block.requests|
    ensures DigestsOf(ExecuteFrom(s, block, d).sentReplies) == DigestsOf(s.sentReplies) + Repeated(d, k)
    ensures |OwnDigests(ExecuteFrom(s, block, d).executed)| == |OwnDigests(s.executed)| + k
    ensures s.executed + [block] <= ExecuteFrom(s, block, d).executed
    decreases |s.chain.pending|
  {
    hide WellFormed, ExecuteFrom, RunRequests, OwnDigests;
    ExecuteFromStep(s, block, d);
    RunRequestsDigests(s.(executed := s.executed + [block]), block.requests, d);
    OwnDigestsMore(s.executed, block);
    var (chain, next) := NextOf(s.chain);
    var s1 := RunBlock(s, block, d).(chain := chain);
    k := |block.requests|;
    if next.Some? {
      var more := ExecuteFromDigests(s1, s.prePrepares[next.value].block, d);
      assert Repeated(d, k) + Repeated(d, more) == Repeated(d, k + more);
      k := k + more;
    }
  }

  lemma {:induction false} OwnDigestsPrefix(a: seq<Block>, b: seq<Block>)
    requires a <= b
    ensures OwnDigests(a) <= OwnDigests(b)
    decreases |b|
  {
    if a != b {
      OwnDigestsPrefix(a, b[..|b| - 1]);
    }
  }

  lemma OwnDigestsMore(blocks: seq<Block>, block: Block)
    ensures OwnDigests(blocks + [block]) == OwnDigests(blocks) + Repeated(Sha256(block), |block.requests|)
  {
    assert (blocks + [block])[..|blocks|] == blocks;
  }

  /** Executing a block that is next: the replies carry the digests of their own blocks exactly when no block
      is waiting right behind it. */
  lemma OwnDigestsIff(s: State, d: Digest)
    requires WellFormed(s) && Sound(s) && d in s.prePrepares
    requires s.prePrepares[d].block.parent == s.chain.digestExecute
    requires CarriesOwn(s)
    ensures CarriesOwn(DoExecute(s, d)) <==> d !in s.chain.pending
  {
    hide ExecuteFrom, RunBlock, OwnDigests, DigestsOf;
    var block := s.prePrepares[d].block;
    var s1 := s.(chain := CommitTo(s.chain, block).0);
    assert DoExecute(s, d) == ExecuteFrom(s1, block, d);
    OwnDigestsMore(s.executed, block);
    FirstBlock(s1, block, d);
    if d in s.chain.pending {
      var s2 := RunBlock(s1, block, d).(chain := NextOf(s1.chain).0);
      ExecuteFromStep(s1, block, d);
      OtherDigest(s2, s.prePrepares[s.chain.pending[d]].block, d, block);
    }
  }

  lemma FirstBlock(s: State, block: Block, d: Digest)
    requires WellFormed(s) && d == Sha256(block) && CarriesOwn(s)
    ensures
      var s1 := RunBlock(s, block, d);
      CarriesOwn(s1) && s1.executed == s.executed + [block]
    ensures d == s.chain.digestExecute && d !in s.chain.pending ==> CarriesOwn(ExecuteFrom(s, block, d))
  {
    hide ExecuteFrom, RunRequests, OwnDigests, DigestsOf;
    OwnDigestsMore(s.executed, block);
    RunRequestsDigests(s.(executed := s.executed + [block]), block.requests, d);
    ExecuteFromStep(s, block, d);
  }

  /** A waiting block, executed under the digest of its parent. */
  lemma OtherDigest(s: State, waiting: Block, d: Digest, block: Block)
    requires WellFormed(s) && CarriesOwn(s) && d == Sha256(block) && waiting.parent == d && waiting.requests != []
    ensures !CarriesOwn(ExecuteFrom(s, waiting, d))
  {
    hide ExecuteFrom, OwnDigests, DigestsOf, WellFormed;
    var k := ExecuteFromDigests(s, waiting, d);
    var s' := ExecuteFrom(s, waiting, d);
    OwnDigestsMore(s.executed, waiting);
    OwnDigestsPrefix(s.executed + [waiting], s'.executed);
    var i := |OwnDigests(s.executed)|;
    assert DigestsOf(s'.sentReplies)[i] == Repeated(d, k)[0] == d;
    assert OwnDigests(s'.executed)[i] == OwnDigests(s.executed + [waiting])[i] == Sha256(waiting);
    DigestNotParent(waiting);
  }

  lemma DigestNotParent(block: Block)
    ensures Sha256(block) != block.parent
  {
    assert Depth(Sha256(block)) == 1 + Depth(block.parent);
  }

  /** In every reachable state of every run with a correct primary, a running correct replica is sound. */
  lemma RunningIsSound(c: Config, run: seq<System>, r: ReplicaIndex)
    requires CorrectPrimary(c) && IsRun(c, run) && r in Correct(c)
    ensures r in run[|run| - 1] && WellFormed(run[|run| - 1][r])
    ensures run[|run| - 1][r].status.Running? ==> Sound(run[|run| - 1][r])
  {
    hide Next, Linked, CertificatesOk, SentOk, StatusOk, ChainFollows, WellFormed;
    RunInv(c, run);
    var sys := run[|run| - 1];
    var s, blocks := sys[r], Proposed(sys);
    assert ReplicaInv(c, sys, blocks, r, s);
    forall d | d in s.prePrepares ensures s.prePrepares[d].block.requests != [] {
      KeptHasRequests(blocks, s, d);
    }
    if s.status.Running? {
      var committed :| ChainFollows(blocks, s, committed);
      forall d | d in s.chain.pending && s.chain.pending[d] in s.prePrepares
        ensures s.prePrepares[s.chain.pending[d]].block.parent == d
      {
        WaitsUnderParent(blocks, s, committed, d);
      }
    }
  }

  lemma KeptHasRequests(blocks: seq<Block>, s: State, d: Digest)
    requires WellFormed(s) && PrePreparesOk(blocks, s.prePrepares) && d in s.prePrepares
    requires forall i: nat :: i < |blocks| ==> BatchOk(blocks, i)
    ensures s.prePrepares[d].block.requests != []
  {
    var i: nat :| i < |blocks| && blocks[i] == d.block;
    assert BatchOk(blocks, i);
  }

  lemma WaitsUnderParent(blocks: seq<Block>, s: State, committed: set<nat>, d: Digest)
    requires WellFormed(s) && Linked(blocks) && ChainFollows(blocks, s, committed)
    requires d in s.chain.pending && s.chain.pending[d] in s.prePrepares
    ensures s.prePrepares[s.chain.pending[d]].block.parent == d
  {
    assert Awaited(blocks, committed, |s.executed|, d);
    var j: nat :| |s.executed| <= j && j in committed && d == DigestAt(blocks, j);
    assert PendsAt(s.chain, blocks, j) && LinkAt(blocks, j);
  }

  // ---------- over whole runs ----------

  /** The commit completes the certificate of a block that is next, while a block waits right behind it. */
  ghost predicate Overtaken(s: State, m: Commit) {
    && |CertificateOf(s.commitCertificates, m.digest)| < s.n - s.f
    && |CertificateOf(s.commitCertificates, m.digest)[m.replica := m]| >= s.n - s.f
    && m.digest in s.prePrepares && s.prePrepares[m.digest].block.parent == s.chain.digestExecute
    && m.digest in s.chain.pending
  }

  /** The guard on the state before: a running replica takes such a commit. */
  ghost predicate Jumps(s: State, e: Event) {
    && s.status.Running?
    && match e
       case CommitArrives(m) => m.viewNum == s.viewNum && Overtaken(s, m)
       case OwnCommitArrives(m) => Overtaken(s, m)
       case _ => false
  }

  /** One reply has been sent for each request of the executed blocks. */
  ghost predicate Aligned(s: State) {
    |DigestsOf(s.sentReplies)| == |OwnDigests(s.executed)|
  }

  ghost predicate OnlyGrows(s: State, s': State) {
    && DigestsOf(s.sentReplies) <= DigestsOf(s'.sentReplies)
    && OwnDigests(s.executed) <= OwnDigests(s'.executed)
    && (Aligned(s) ==> Aligned(s'))
  }

  lemma BrokenStaysBroken(s: State, s': State)
    requires OnlyGrows(s, s') && Aligned(s) && CarriesOwn(s')
    ensures CarriesOwn(s)
  {
    hide DigestsOf, OwnDigests;
  }

  lemma ExecuteGrows(s: State, block: Block, d: Digest)
    requires WellFormed(s)
    ensures OnlyGrows(s, ExecuteFrom(s, block, d))
  {
    hide WellFormed, ExecuteFrom, OwnDigests, DigestsOf;
    var k := ExecuteFromDigests(s, block, d);
    OwnDigestsPrefix(s.executed, ExecuteFrom(s, block, d).executed);
  }

  lemma SameReplies(s: State, s': State)
    requires s'.sentReplies == s.sentReplies && s'.executed == s.executed
    ensures OnlyGrows(s, s') && (CarriesOwn(s') <==> CarriesOwn(s))
  {
  }

  lemma CommitIff(s: State, m: Commit)
    requires WellFormed(s) && Sound(s) && s.status.Running?
    ensures OnlyGrows(s, InsertCommit(s, m))
    ensures CarriesOwn(s) ==> (CarriesOwn(InsertCommit(s, m)) <==> !Overtaken(s, m))
  {
    hide ExecuteFrom, OnlyGrows, CarriesOwn;
    var d, s' := m.digest, InsertCommit(s, m);
    var more := CertificateOf(s.commitCertificates, d)[m.replica := m];
    var s1 := s.(commitCertificates := s.commitCertificates[d := more]);
    var filled := |CertificateOf(s.commitCertificates, d)| < s.n - s.f && |more| >= s.n - s.f;
    if filled && d in s.prePrepares && s.prePrepares[d].block.parent == s.chain.digestExecute {
      assert s' == DoExecute(s1, d);
      var s2 := s1.(chain := CommitTo(s.chain, s.prePrepares[d].block).0);
      SameReplies(s, s1);
      SameReplies(s, s2);
      ExecuteGrows(s2, s.prePrepares[d].block, d);
      GrowsFrom(s, s2, s');
      if CarriesOwn(s) {
        OwnDigestsIff(s1, d);
      }
    } else {
      SameReplies(s, s');
    }
  }

  lemma GrowsFrom(s: State, s1: State, s2: State)
    requires OnlyGrows(s, s1) && OnlyGrows(s1, s2)
    ensures OnlyGrows(s, s2)
  {
    hide DigestsOf, OwnDigests;
  }

  /** One event keeps replies with their own digests exactly when the guard does not hold, and what has been
      sent stays sent. */
  lemma HandleIff(s: State, e: Event)
    requires WellFormed(s) && (s.status.Running? ==> Sound(s))
    ensures OnlyGrows(s, Handle(s, e))
    ensures CarriesOwn(s) ==> (CarriesOwn(Handle(s, e)) <==> !Jumps(s, e))
  {
    hide CarriesOwn, OnlyGrows, Overtaken, InsertCommit, InsertPrepare, WellFormed, Sound;
    if s.status.Running? && (e.OwnCommitArrives? || (e.CommitArrives? && e.commit.viewNum == s.viewNum)) {
      CommitIff(s, if e.OwnCommitArrives? then e.ownCommit else e.commit);
    } else {
      SameReplies(s, Handle(s, e));
    }
  }

  /** Whatever event of replica r makes this step, the guard does not hold. */
  ghost predicate QuietStep(c: Config, sys: System, sys': System, r: ReplicaIndex) {
    forall e :: StepBy(c, sys, sys', r, e) ==> !Jumps(sys[r], e)
  }

  ghost predicate NeverJumps(c: Config, run: seq<System>, r: ReplicaIndex) {
    forall i {:trigger run[i]} :: 0 <= i < |run| - 1 ==> QuietStep(c, run[i], run[i + 1], r)
  }

  lemma StepIff(c: Config, sys: System, sys': System, r: ReplicaIndex)
    requires Next(c, sys, sys') && r in sys && WellFormed(sys[r]) && (sys[r].status.Running? ==> Sound(sys[r]))
    requires Aligned(sys[r])
    ensures r in sys' && Aligned(sys'[r])
    ensures CarriesOwn(sys'[r]) <==> CarriesOwn(sys[r]) && QuietStep(c, sys, sys', r)
  {
    hide CarriesOwn, OnlyGrows, Jumps, Handle, WellFormed, Sound, Enabled, Aligned;
    var s := sys[r];
    var q, e0 :| StepBy(c, sys, sys', q, e0);
    HandleIff(s, e0);
    assert Aligned(sys'[r]) by {
      AlignedGrows(s, Handle(s, e0));
    }
    forall e | StepBy(c, sys, sys', r, e) ensures CarriesOwn(s) ==> (CarriesOwn(sys'[r]) <==> !Jumps(s, e)) {
      HandleIff(s, e);
    }
    if CarriesOwn(sys'[r]) && !CarriesOwn(s) {
      BrokenStaysBroken(s, Handle(s, e0));
      assert false;
    }
  }

  lemma AlignedGrows(s: State, s': State)
    requires Aligned(s) && OnlyGrows(s, s')
    ensures Aligned(s')
  {
  }

  /** Over whole runs: all replies a correct replica has sent carry the digest of the block of their request if
      and only if it has never taken a commit that the guard is about. */
  lemma {:induction false} CarriesOwnIff(c: Config, run: seq<System>, r: ReplicaIndex)
    requires CorrectPrimary(c) && IsRun(c, run) && r in Correct(c)
    ensures r in run[|run| - 1] && Aligned(run[|run| - 1][r])
    ensures CarriesOwn(run[|run| - 1][r]) <==> NeverJumps(c, run, r)
    decreases |run|
  {
    hide CarriesOwn, QuietStep, Next, Sound, WellFormed, Aligned;
    if |run| == 1 {
      assert CarriesOwn(run[0][r]) && Aligned(run[0][r]) by { InitCarries(c, r); }
    } else {
      var last := |run| - 2;
      RunWithoutLast(c, run);
      CarriesOwnIff(c, run[..last + 1], r);
      RunningIsSound(c, run[..last + 1], r);
      assert Next(c, run[last], run[last + 1]);
      StepIff(c, run[last], run[last + 1], r);
      NeverJumpsMore(c, run, r);
    }
  }

  lemma InitCarries(c: Config, r: ReplicaIndex)
    ensures CarriesOwn(Init(c.n, c.f, r)) && Aligned(Init(c.n, c.f, r))
  {
  }

  lemma NeverJumpsMore(c: Config, run: seq<System>, r: ReplicaIndex)
    requires |run| > 1
    ensures
      var last := |run| - 2;
      NeverJumps(c, run, r) <==> NeverJumps(c, run[..last + 1], r) && QuietStep(c, run[last], run[last + 1], r)
  {
    hide QuietStep;
    var last := |run| - 2;
    var shorter := run[..last + 1];
    if NeverJumps(c, shorter, r) && QuietStep(c, run[last], run[last + 1], r) {
      forall i | 0 <= i < |run| - 1 ensures QuietStep(c, run[i], run[i + 1], r) {
        if i < last {
          assert shorter[i] == run[i] && shorter[i + 1] == run[i + 1];
        }
      }
    }
    if NeverJumps(c, run, r) {
      forall i | 0 <= i < |shorter| - 1 ensures QuietStep(c, shorter[i], shorter[i + 1], r) {
        assert shorter[i] == run[i] && shorter[i + 1] == run[i + 1];
      }
    }
  }
}
