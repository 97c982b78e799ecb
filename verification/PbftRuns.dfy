/** Runs of PBFT with a correct primary and up to f arbitrary backups, and the invariant that every
    run keeps.

    Pre-prepares are authenticated as the primary's, prepares and commits as their sender's.
    Messages may be lost, repeated and reordered. */
module PbftRuns {
  import opened Blocks
  import opened Quorums
  import opened Chains
  import opened Pbft

  /** The correct replicas; the faulty ones have no state. */
  type System = map<ReplicaIndex, State>

  datatype Event =
    | RequestArrives(request: Request)
    | PrePrepareArrives(prePrepare: PrePrepare)
    | PrepareArrives(prepare: Prepare)
    | CommitArrives(commit: Commit)
    | OwnPrePrepareArrives(ownPrePrepare: PrePrepare)
    | OwnPrepareArrives(ownPrepare: Prepare)
    | OwnCommitArrives(ownCommit: Commit)
    | Pace

  ghost predicate GenuinePrepare(c: Config, sys: System, p: Prepare) {
    p.replica in Replicas(c.n) && (p.replica in sys ==> p in sys[p.replica].sentPrepares)
  }

  ghost predicate GenuineCommit(c: Config, sys: System, m: Commit) {
    m.replica in Replicas(c.n) && (m.replica in sys ==> m in sys[m.replica].sentCommits)
  }

  ghost predicate Enabled(c: Config, sys: System, r: ReplicaIndex, e: Event)
    requires r in sys
  {
    match e
    case PrePrepareArrives(m) => PRIMARY in sys && m in sys[PRIMARY].sentPrePrepares
    case PrepareArrives(p) => GenuinePrepare(c, sys, p)
    case CommitArrives(m) => GenuineCommit(c, sys, m)
    case OwnPrePrepareArrives(m) => r == PRIMARY && m in sys[r].sentPrePrepares
    case OwnPrepareArrives(p) => p in sys[r].sentPrepares
    case OwnCommitArrives(m) => m in sys[r].sentCommits
    case _ => true
  }

  ghost function Handle(s: State, e: Event): State
    requires WellFormed(s)
  {
    match e
    case RequestArrives(request) => HandleRequest(s, request)
    case PrePrepareArrives(m) => HandlePrePrepare(s, m)
    case PrepareArrives(p) => HandlePrepare(s, p)
    case CommitArrives(m) => HandleCommit(s, m)
    case OwnPrePrepareArrives(m) => LoopbackPrePrepare(s, m)
    case OwnPrepareArrives(p) => LoopbackPrepare(s, p)
    case OwnCommitArrives(m) => LoopbackCommit(s, m)
    case Pace => OnPace(s)
  }

  ghost predicate StepBy(c: Config, sys: System, sys': System, r: ReplicaIndex, e: Event) {
    && r in sys && WellFormed(sys[r]) && Enabled(c, sys, r, e)
    && sys' == sys[r := Handle(sys[r], e)]
  }

  ghost predicate Next(c: Config, sys: System, sys': System) {
    exists r, e :: StepBy(c, sys, sys', r, e)
  }

  ghost function InitSystem(c: Config): System {
    map r | r in Correct(c) :: Init(c.n, c.f, r)
  }

  ghost predicate IsRun(c: Config, run: seq<System>) {
    && |run| > 0
    && run[0] == InitSystem(c)
    && forall i :: 0 <= i < |run| - 1 ==> Next(c, run[i], run[i + 1])
  }

  // ---------- the invariant ----------

  ghost function BlocksOf(sent: seq<PrePrepare>): (blocks: seq<Block>)
    ensures |blocks| == |sent|
    ensures forall i :: 0 <= i < |sent| ==> blocks[i] == sent[i].block
  {
    if sent == [] then [] else BlocksOf(sent[..|sent| - 1]) + [sent[|sent| - 1].block]
  }

  ghost function Proposed(sys: System): seq<Block> {
    if PRIMARY in sys then BlocksOf(sys[PRIMARY].sentPrePrepares) else []
  }

  ghost predicate PrePreparesOk(blocks: seq<Block>, prePrepares: map<Digest, PrePrepare>) {
    forall d :: d in prePrepares ==> FromChain(blocks, d)
  }

  ghost predicate PreparesOk(c: Config, sys: System, d: Digest, certificate: map<ReplicaIndex, Prepare>) {
    && |certificate| < c.n - c.f
    && forall k :: k in certificate ==>
         certificate[k].replica == k && certificate[k].digest == d && GenuinePrepare(c, sys, certificate[k])
  }

  ghost predicate CommitsOk(c: Config, sys: System, d: Digest, certificate: map<ReplicaIndex, Commit>) {
    && |certificate| <= c.n - c.f
    && forall k :: k in certificate ==>
         certificate[k].replica == k && certificate[k].digest == d && GenuineCommit(c, sys, certificate[k])
  }

  ghost predicate CertificatesOk(c: Config, sys: System, s: State) {
    && (forall d {:trigger s.prepareCertificates[d]} :: d in s.prepareCertificates ==>
          PreparesOk(c, sys, d, s.prepareCertificates[d]))
    && (forall d {:trigger s.commitCertificates[d]} :: d in s.commitCertificates ==>
          CommitsOk(c, sys, d, s.commitCertificates[d]))
  }

  /** This replica holds the block and n - f - 1 distinct prepares for it. */
  ghost predicate Prepared(s: State, d: Digest) {
    d in s.prePrepares && |CertificateOf(s.prepareCertificates, d)| == s.n - s.f - 1
  }

  ghost predicate SentOk(s: State) {
    && (forall p :: p in s.sentPrepares ==> p.replica == s.index && p.digest in s.prePrepares)
    && (forall m :: m in s.sentCommits ==> m.replica == s.index && Prepared(s, m.digest))
  }

  ghost predicate Full(s: State, d: Digest) {
    |CertificateOf(s.commitCertificates, d)| == s.n - s.f
  }

  /** What has been executed is a prefix of the chain, each block with a full commit certificate. */
  ghost predicate ExecutedOk(blocks: seq<Block>, s: State) {
    s.executed <= blocks && forall b :: b in s.executed ==> Full(s, Sha256(b))
  }

  /** `committed` are the positions of the fully committed blocks; all that can be executed has been. */
  ghost predicate ChainFollows(blocks: seq<Block>, s: State, committed: set<nat>) {
    && |s.executed| !in committed
    && Reassembles(s.chain, blocks, committed, |s.executed|)
    && (forall j: nat :: j in committed ==> j < |blocks| && Full(s, Sha256(blocks[j])))
    && (forall d :: Full(s, d) ==> AtOneOf(blocks, committed, d))
  }

  /** The only ways to stop: a commit certificate filled before the pre-prepare arrived, or the
      primary was handed its own pre-prepare over the network. */
  ghost predicate StatusOk(r: ReplicaIndex, s: State) {
    match s.status
    case Running => true
    case Panicked(why) =>
      || (why == MissingPrePrepare && exists d :: Full(s, d) && d !in s.prePrepares)
      || (why == PrimaryPrepares && r == PRIMARY)
  }

  ghost predicate ReplicaInv(c: Config, sys: System, blocks: seq<Block>, r: ReplicaIndex, s: State) {
    && s.index == r && s.n == c.n && s.f == c.f && s.viewNum == 0
    && WellFormed(s)
    && PrePreparesOk(blocks, s.prePrepares)
    && CertificatesOk(c, sys, s)
    && SentOk(s)
    && ExecutedOk(blocks, s)
    && StatusOk(r, s)
    && (s.status.Running? ==> exists committed :: ChainFollows(blocks, s, committed))
  }

  ghost predicate PrimaryInv(s: State) {
    && ProposesInOrder(s.chain, s.requests, s.accepted, BlocksOf(s.sentPrePrepares))
    && forall m :: m in s.sentPrePrepares ==> m.viewNum == 0
  }

  ghost predicate Inv(c: Config, sys: System) {
    && CorrectPrimary(c)
    && sys.Keys == Correct(c)
    && PrimaryInv(sys[PRIMARY])
    && forall r :: r in sys ==> ReplicaInv(c, sys, Proposed(sys), r, sys[r])
  }

  // ---------- executing ----------

  lemma BlockOfPosition(blocks: seq<Block>, s: State, j: nat)
    requires WellFormed(s) && j < |blocks| && DigestAt(blocks, j + 1) in s.prePrepares
    ensures s.prePrepares[DigestAt(blocks, j + 1)].block == blocks[j]
  {
    var d := DigestAt(blocks, j + 1);
    assert d == Sha256(s.prePrepares[d].block);
  }

  /** Executing a block and what waits behind it extends the executed prefix up to the first block
      that has not been committed. */
  lemma {:induction false} ExecuteFollows(s: State, blocks: seq<Block>, committed: set<nat>, digest: Digest)
    requires WellFormed(s) && Linked(blocks)
    requires s.executed <= blocks && |s.executed| < |blocks|
    requires Reassembles(s.chain, blocks, committed, |s.executed| + 1)
    ensures
      var s' := ExecuteFrom(s, blocks[|s.executed|], digest);
      && s.executed <= s'.executed <= blocks && |s'.executed| !in committed
      && Reassembles(s'.chain, blocks, committed, |s'.executed|)
    decreases |s.chain.pending|
  {
    hide RunBlock, Reassembles, Linked, ExecuteFrom, WellFormed;
    var k := |s.executed|;
    var block := blocks[k];
    NextReassembles(s.chain, blocks, committed, k + 1);
    ExecuteFromStep(s, block, digest);
    var s1 := RunBlock(s, block, digest).(chain := NextOf(s.chain).0);
    assert s1.executed == blocks[..k + 1];
    if k + 1 in committed {
      BlockOfPosition(blocks, s, k + 1);
      ExecuteFollows(s1, blocks, committed, digest);
    }
  }

  /** What filling the commit certificate of `d` changes. */
  ghost predicate Fills(s: State, s1: State, d: Digest) {
    && s1 == s.(commitCertificates := s1.commitCertificates)
    && !Full(s, d)
    && forall e :: Full(s1, e) <==> e == d || Full(s, e)
  }

  lemma SameWellFormed(s: State, s1: State)
    requires WellFormed(s) && s1.n == s.n && s1.f == s.f
    requires s1.prePrepares == s.prePrepares && s1.chain.pending == s.chain.pending
    ensures WellFormed(s1)
  {
  }

  /** The block whose certificate fills is committed for the first time: no conflict, and everything
      that has become executable is executed. */
  lemma FillFollows(s: State, s1: State, blocks: seq<Block>, committed: set<nat>, j: nat)
    requires WellFormed(s) && Linked(blocks) && s.status.Running? && s.executed <= blocks
    requires ChainFollows(blocks, s, committed)
    requires j < |blocks| && Sha256(blocks[j]) in s.prePrepares && Fills(s, s1, Sha256(blocks[j]))
    ensures
      var s' := DoExecute(s1, Sha256(blocks[j]));
      && s'.status.Running? && s.executed <= s'.executed <= blocks
      && ChainFollows(blocks, s', committed + {j})
  {
    hide RunBlock, Reassembles, Linked, ExecuteFrom, WellFormed;
    var d := Sha256(blocks[j]);
    var k := |s.executed|;
    SameWellFormed(s, s1);
    BlockOfPosition(blocks, s, j);
    assert k <= |blocks|;
    CommitReassembles(s.chain, blocks, committed, k, j);
    var s' := DoExecute(s1, d);
    if j == k {
      var s2 := s1.(chain := CommitTo(s.chain, blocks[j]).0);
      SameWellFormed(s, s2);
      ExecuteFollows(s2, blocks, committed + {j}, d);
    }
    forall e | Full(s', e) ensures AtOneOf(blocks, committed + {j}, e) {
      if e != d {
        assert AtOneOf(blocks, committed, e);
      }
    }
  }

  // ---------- handlers ----------

  /** Storing a commit that neither fills nor changes a full certificate. */
  lemma StoredCommit(
      c: Config, sys: System, blocks: seq<Block>, r: ReplicaIndex, s: State, d: Digest, certificate: map<ReplicaIndex, Commit>)
    requires ReplicaInv(c, sys, blocks, r, s) && CommitsOk(c, sys, d, certificate)
    requires (|certificate| == c.n - c.f) <==> Full(s, d)
    ensures ReplicaInv(c, sys, blocks, r, s.(commitCertificates := s.commitCertificates[d := certificate]))
  {
    hide Reassembles, WellFormed, PreparesOk, CommitsOk, PrePreparesOk, SentOk, AtOneOf;
    var s' := s.(commitCertificates := s.commitCertificates[d := certificate]);
    SameWellFormed(s, s');
    SameSent(s, s');
    assert forall e :: Full(s', e) <==> Full(s, e);
    if s.status.Running? {
      var committed :| ChainFollows(blocks, s, committed);
      assert ChainFollows(blocks, s', committed);
    }
  }

  lemma SameSent(s: State, s': State)
    requires SentOk(s) && s'.sentPrepares == s.sentPrepares && s'.sentCommits == s.sentCommits
    requires s'.prePrepares == s.prePrepares && s'.prepareCertificates == s.prepareCertificates
    requires s'.n == s.n && s'.f == s.f && s'.index == s.index
    ensures SentOk(s')
  {
  }

  lemma FollowedExecuted(blocks: seq<Block>, s: State, committed: set<nat>)
    requires ChainFollows(blocks, s, committed) && s.executed <= blocks
    ensures ExecutedOk(blocks, s)
  {
  }

  lemma PositionOf(blocks: seq<Block>, prePrepares: map<Digest, PrePrepare>, d: Digest) returns (j: nat)
    requires PrePreparesOk(blocks, prePrepares) && d in prePrepares
    ensures j < |blocks| && d == Sha256(blocks[j])
  {
    j :| j < |blocks| && blocks[j] == d.block;
  }

  /** Storing the commit that fills a certificate. */
  lemma FilledCommit(
      c: Config, sys: System, blocks: seq<Block>, r: ReplicaIndex, s: State, d: Digest, certificate: map<ReplicaIndex, Commit>)
    requires Linked(blocks) && ReplicaInv(c, sys, blocks, r, s) && s.status.Running?
    requires CommitsOk(c, sys, d, certificate) && |certificate| == c.n - c.f && !Full(s, d)
    ensures
      var s1 := s.(commitCertificates := s.commitCertificates[d := certificate]);
      WellFormed(s1) && ReplicaInv(c, sys, blocks, r, DoExecute(s1, d))
  {
    hide Reassembles, WellFormed, CertificatesOk, SentOk, Linked, ChainFollows, ExecuteFrom, PrePreparesOk;
    var s1 := s.(commitCertificates := s.commitCertificates[d := certificate]);
    SameWellFormed(s, s1);
    assert Fills(s, s1, d);
    FilledCertificates(c, sys, s, d, certificate);
    if d in s.prePrepares {
      FilledExecutes(c, sys, blocks, r, s, s1, d);
    } else {
      var s' := DoExecute(s1, d);
      SameSent(s, s');
      SameCertificates(c, sys, s1, s');
      assert Full(s', d);
    }
  }

  lemma FilledCertificates(c: Config, sys: System, s: State, d: Digest, certificate: map<ReplicaIndex, Commit>)
    requires CertificatesOk(c, sys, s) && CommitsOk(c, sys, d, certificate)
    ensures CertificatesOk(c, sys, s.(commitCertificates := s.commitCertificates[d := certificate]))
  {
    hide PreparesOk, CommitsOk;
  }

  lemma FilledExecutes(
      c: Config, sys: System, blocks: seq<Block>, r: ReplicaIndex, s: State, s1: State, d: Digest)
    requires Linked(blocks) && ReplicaInv(c, sys, blocks, r, s) && s.status.Running? && d in s.prePrepares
    requires Fills(s, s1, d) && WellFormed(s1) && CertificatesOk(c, sys, s1)
    ensures ReplicaInv(c, sys, blocks, r, DoExecute(s1, d))
  {
    hide Reassembles, WellFormed, CertificatesOk, SentOk, Linked, ChainFollows, PrePreparesOk, Fills, DoExecute, Full;
    var s' := DoExecute(s1, d);
    FillsOnly(s, s1, d);
    SameSent(s, s');
    SameCertificates(c, sys, s1, s');
    var committed :| ChainFollows(blocks, s, committed);
    var j := PositionOf(blocks, s.prePrepares, d);
    FillFollows(s, s1, blocks, committed, j);
    FollowedExecuted(blocks, s', committed + {j});
  }

  lemma FillsOnly(s: State, s1: State, d: Digest)
    requires Fills(s, s1, d)
    ensures s1 == s.(commitCertificates := s1.commitCertificates)
  {
  }

  lemma SameCertificates(c: Config, sys: System, s: State, s': State)
    requires CertificatesOk(c, sys, s)
    requires s'.prepareCertificates == s.prepareCertificates && s'.commitCertificates == s.commitCertificates
    ensures CertificatesOk(c, sys, s')
  {
    hide PreparesOk, CommitsOk;
  }

  lemma CommitReplicaInv(c: Config, sys: System, blocks: seq<Block>, r: ReplicaIndex, s: State, m: Commit)
    requires ValidConfig(c) && Linked(blocks) && ReplicaInv(c, sys, blocks, r, s) && s.status.Running?
    requires GenuineCommit(c, sys, m)
    ensures ReplicaInv(c, sys, blocks, r, InsertCommit(s, m))
  {
    hide ExecutedOk, SentOk, StatusOk, Linked, WellFormed, GenuineCommit, GenuinePrepare, DoExecute, ChainFollows, PreparesOk, PrePreparesOk;
    var d := m.digest;
    var certificate := CertificateOf(s.commitCertificates, d);
    assert CommitsOk(c, sys, d, certificate);
    if |certificate| == c.n - c.f {
      StoredCommit(c, sys, blocks, r, s, d, certificate);
    } else {
      var certificate' := certificate[m.replica := m];
      assert |certificate'| <= |certificate| + 1;
      if |certificate'| == c.n - c.f {
        FilledCommit(c, sys, blocks, r, s, d, certificate');
      } else {
        StoredCommit(c, sys, blocks, r, s, d, certificate');
      }
    }
  }

  lemma MoreCommits(s: State, d: Digest, certificate: map<ReplicaIndex, Prepare>, commits: seq<Commit>)
    requires SentOk(s)
    requires |CertificateOf(s.prepareCertificates, d)| == s.n - s.f - 1 ==> |certificate| == s.n - s.f - 1
    requires forall m :: m in commits ==> m.replica == s.index && m.digest == d && d in s.prePrepares && |certificate| == s.n - s.f - 1
    ensures SentOk(s.(prepareCertificates := s.prepareCertificates[d := certificate], sentCommits := s.sentCommits + commits))
  {
  }

  /** Storing a prepare certificate that does not fall back from being full, and committing on it. */
  lemma StoredPrepare(
      c: Config, sys: System, blocks: seq<Block>, r: ReplicaIndex, s: State, d: Digest,
      certificate: map<ReplicaIndex, Prepare>, commits: seq<Commit>)
    requires ReplicaInv(c, sys, blocks, r, s) && PreparesOk(c, sys, d, certificate)
    requires |CertificateOf(s.prepareCertificates, d)| == c.n - c.f - 1 ==> |certificate| == c.n - c.f - 1
    requires forall m :: m in commits ==> m.replica == s.index && m.digest == d && d in s.prePrepares && |certificate| == c.n - c.f - 1
    ensures ReplicaInv(c, sys, blocks, r,
                       s.(prepareCertificates := s.prepareCertificates[d := certificate],
                          sentCommits := s.sentCommits + commits))
  {
    hide Reassembles, PreparesOk, CommitsOk, PrePreparesOk, AtOneOf, Linked, WellFormed, SentOk;
    var s' := s.(prepareCertificates := s.prepareCertificates[d := certificate], sentCommits := s.sentCommits + commits);
    SameWellFormed(s, s');
    MoreCommits(s, d, certificate, commits);
    if s.status.Running? {
      var committed :| ChainFollows(blocks, s, committed);
      assert ChainFollows(blocks, s', committed);
    }
  }

  lemma PrepareReplicaInv(c: Config, sys: System, blocks: seq<Block>, r: ReplicaIndex, s: State, p: Prepare)
    requires ValidConfig(c) && ReplicaInv(c, sys, blocks, r, s) && s.status.Running? && GenuinePrepare(c, sys, p)
    ensures ReplicaInv(c, sys, blocks, r, InsertPrepare(s, p))
  {
    hide ExecutedOk, SentOk, StatusOk, Linked, WellFormed, GenuineCommit, GenuinePrepare, ChainFollows, CommitsOk, PrePreparesOk;
    var d := p.digest;
    var certificate := CertificateOf(s.prepareCertificates, d);
    assert PreparesOk(c, sys, d, certificate);
    var full := |certificate| + 1 == c.n - c.f;
    var certificate' := if full then certificate else certificate[p.replica := p];
    assert |certificate'| <= |certificate| + 1;
    var sends := (!full || p.replica == r) && d in s.prePrepares && |certificate'| + 1 == c.n - c.f;
    var commits := if sends then [Commit(s.viewNum, d, s.index)] else [];
    StoredPrepare(c, sys, blocks, r, s, d, certificate', commits);
    assert s.sentCommits + [] == s.sentCommits;
  }

  lemma KeptPrePrepare(
      c: Config, sys: System, blocks: seq<Block>, r: ReplicaIndex, s: State, m: PrePrepare, prepares: seq<Prepare>)
    requires ReplicaInv(c, sys, blocks, r, s) && s.status.Running? && m.block in blocks
    requires forall p :: p in prepares ==> p.replica == s.index && p.digest == Sha256(m.block)
    ensures
      var s1 := KeepPrePrepare(s, m);
      ReplicaInv(c, sys, blocks, r, s1.(sentPrepares := s.sentPrepares + prepares))
  {
    hide Reassembles, PreparesOk, CommitsOk, AtOneOf, Linked, WellFormed, KeepPrePrepare;
    var s1 := KeptFields(s, m);
    var s' := s1.(sentPrepares := s.sentPrepares + prepares);
    SameWellFormed(s1, s');
    var committed :| ChainFollows(blocks, s, committed);
    assert ChainFollows(blocks, s', committed);
  }

  lemma KeptFields(s: State, m: PrePrepare) returns (s1: State)
    requires WellFormed(s)
    ensures s1 == KeepPrePrepare(s, m) && WellFormed(s1)
    ensures s1 == s.(prePrepares := s.prePrepares[Sha256(m.block) := m])
  {
    s1 := KeepPrePrepare(s, m);
  }

  lemma StoppedPrimary(c: Config, sys: System, blocks: seq<Block>, s: State)
    requires ReplicaInv(c, sys, blocks, PRIMARY, s) && s.status.Running?
    ensures ReplicaInv(c, sys, blocks, PRIMARY, s.(status := Panicked(PrimaryPrepares)))
  {
    hide PreparesOk, CommitsOk, PrePreparesOk, ChainFollows, Linked;
  }

  lemma PrePrepareReplicaInv(c: Config, sys: System, blocks: seq<Block>, r: ReplicaIndex, s: State, m: PrePrepare)
    requires CorrectPrimary(c) && ReplicaInv(c, sys, blocks, r, s) && s.status.Running? && m.block in blocks
    ensures ReplicaInv(c, sys, blocks, r, HandlePrePrepare(s, m))
    ensures ReplicaInv(c, sys, blocks, r, LoopbackPrePrepare(s, m))
  {
    hide ExecutedOk, SentOk, Linked, WellFormed, ChainFollows, CertificatesOk, PrePreparesOk, KeepPrePrepare;
    var s1 := KeptFields(s, m);
    KeptPrePrepare(c, sys, blocks, r, s, m, []);
    assert s.sentPrepares + [] == s.sentPrepares;
    if r == PRIMARY {
      StoppedPrimary(c, sys, blocks, s1);
    } else {
      KeptPrePrepare(c, sys, blocks, r, s, m, [Prepare(s.viewNum, Sha256(m.block), s.index)]);
    }
  }

  /** Queueing requests and proposing touch nothing that the replica's own invariant is about. */
  lemma QuietReplicaInv(c: Config, sys: System, blocks: seq<Block>, r: ReplicaIndex, s: State, s': State)
    requires ReplicaInv(c, sys, blocks, r, s)
    requires s' == s.(requests := s'.requests, accepted := s'.accepted, sentPrePrepares := s'.sentPrePrepares,
                      chain := s.chain.(digestParent := s'.chain.digestParent, height := s'.chain.height))
    ensures ReplicaInv(c, sys, blocks, r, s')
  {
    hide PreparesOk, CommitsOk, PrePreparesOk, Linked, WellFormed, AtOneOf;
    SameWellFormed(s, s');
    SameSent(s, s');
    if s.status.Running? {
      var committed :| ChainFollows(blocks, s, committed);
      SameReassembles(s.chain, s'.chain, blocks, committed, |s.executed|);
      assert ChainFollows(blocks, s', committed);
    }
  }

  lemma ProposedHas(sys: System, m: PrePrepare)
    requires PRIMARY in sys && m in sys[PRIMARY].sentPrePrepares
    ensures m.block in Proposed(sys)
  {
    var sent := sys[PRIMARY].sentPrePrepares;
    var i :| 0 <= i < |sent| && sent[i] == m;
    assert BlocksOf(sent)[i] == m.block;
  }

  lemma HandleReplicaInv(c: Config, sys: System, r: ReplicaIndex, e: Event)
    requires Inv(c, sys) && r in sys && Enabled(c, sys, r, e)
    ensures ReplicaInv(c, sys, Proposed(sys), r, Handle(sys[r], e))
  {
    hide HandlePrePrepare, LoopbackPrePrepare, InsertCommit, InsertPrepare, CertificatesOk, ExecutedOk, ChainFollows, Linked, WellFormed, Proposed;
    var s, blocks := sys[r], Proposed(sys);
    assert ReplicaInv(c, sys, blocks, r, s);
    ProposedLinked(c, sys);
    if s.status.Running? {
      match e
      case RequestArrives(request) => QuietReplicaInv(c, sys, blocks, r, s, HandleRequest(s, request));
      case PrePrepareArrives(m) => ProposedHas(sys, m); PrePrepareReplicaInv(c, sys, blocks, r, s, m);
      case PrepareArrives(p) => PrepareReplicaInv(c, sys, blocks, r, s, p);
      case CommitArrives(m) => CommitReplicaInv(c, sys, blocks, r, s, m);
      case OwnPrePrepareArrives(m) => ProposedHas(sys, m); PrePrepareReplicaInv(c, sys, blocks, r, s, m);
      case OwnPrepareArrives(p) => PrepareReplicaInv(c, sys, blocks, r, s, p);
      case OwnCommitArrives(m) => CommitReplicaInv(c, sys, blocks, r, s, m);
      case Pace => QuietReplicaInv(c, sys, blocks, r, s, OnPace(s));
    } else {
      Stopped(s, e);
    }
  }

  lemma Stopped(s: State, e: Event)
    requires WellFormed(s) && s.status.Panicked?
    ensures Handle(s, e) == s
  {
  }

  lemma ProposedLinked(c: Config, sys: System)
    requires Inv(c, sys)
    ensures Linked(Proposed(sys))
  {
  }

  // ---------- one step ----------

  lemma RequestOrder(s: State, request: Request)
    requires WellFormed(s) && PrimaryInv(s)
    ensures PrimaryInv(HandleRequest(s, request))
  {
    hide WellFormed, ProposesInOrder;
    if HandleRequest(s, request) != s {
      AcceptKeepsOrder(s.chain, s.requests, s.accepted, BlocksOf(s.sentPrePrepares), request);
    }
  }

  lemma PaceOrder(s: State)
    requires WellFormed(s) && s.viewNum == 0 && PrimaryInv(s)
    ensures PrimaryInv(OnPace(s))
  {
    hide WellFormed, ProposesInOrder;
    var s' := OnPace(s);
    if s' != s {
      ProposeKeepsOrder(s.chain, s.requests, s.accepted, BlocksOf(s.sentPrePrepares));
      assert s'.sentPrePrepares[..|s.sentPrePrepares|] == s.sentPrePrepares;
    }
  }

  lemma PrimaryStep(s: State, e: Event)
    requires WellFormed(s) && s.viewNum == 0 && PrimaryInv(s)
    ensures PrimaryInv(Handle(s, e))
  {
    hide WellFormed, InsertCommit, InsertPrepare, PrimaryInv, HandleRequest, OnPace;
    match e
    case RequestArrives(request) => RequestOrder(s, request);
    case Pace => PaceOrder(s);
    case _ => SameOrder(s, Handle(s, e));
  }

  lemma SameOrder(s: State, s': State)
    requires PrimaryInv(s) && s'.requests == s.requests && s'.accepted == s.accepted
    requires s'.sentPrePrepares == s.sentPrePrepares
    requires s'.chain.digestParent == s.chain.digestParent && s'.chain.height == s.chain.height
    ensures PrimaryInv(s')
  {
  }

  /** Correct replicas never take back a message, a queued request or an executed block. */
  ghost predicate Progress(s: State, s': State) {
    && s.sentPrepares <= s'.sentPrepares && s.sentCommits <= s'.sentCommits
    && s.sentPrePrepares <= s'.sentPrePrepares && s.accepted <= s'.accepted
    && s.executed <= s'.executed && s'.viewNum == s.viewNum
  }

  lemma HandleProgress(s: State, e: Event)
    requires WellFormed(s)
    ensures Progress(s, Handle(s, e))
  {
    hide WellFormed, InsertCommit, InsertPrepare;
  }

  lemma {:induction false} BlocksOfMore(sent: seq<PrePrepare>, sent': seq<PrePrepare>)
    requires sent <= sent'
    ensures BlocksOf(sent) <= BlocksOf(sent')
  {
    forall i | 0 <= i < |sent| ensures BlocksOf(sent)[i] == BlocksOf(sent')[i] {
      assert sent'[i] == sent[i];
    }
  }

  ghost predicate Grows(sys: System, sys': System) {
    sys.Keys == sys'.Keys && forall q :: q in sys ==> Progress(sys[q], sys'[q])
  }

  lemma CertificatesGrow(c: Config, sys: System, sys': System, s: State)
    requires CertificatesOk(c, sys, s) && Grows(sys, sys')
    ensures CertificatesOk(c, sys', s)
  {
    forall d | d in s.prepareCertificates ensures PreparesOk(c, sys', d, s.prepareCertificates[d]) {
      assert PreparesOk(c, sys, d, s.prepareCertificates[d]);
    }
    forall d | d in s.commitCertificates ensures CommitsOk(c, sys', d, s.commitCertificates[d]) {
      assert CommitsOk(c, sys, d, s.commitCertificates[d]);
    }
  }

  lemma FollowsMore(blocks: seq<Block>, blocks': seq<Block>, s: State, committed: set<nat>)
    requires ChainFollows(blocks, s, committed) && blocks <= blocks'
    ensures ChainFollows(blocks', s, committed)
  {
    hide Reassembles, Full;
    ReassemblesMore(s.chain, blocks, blocks', committed, |s.executed|);
    forall d | Full(s, d) ensures AtOneOf(blocks', committed, d) {
      var j: nat :| j in committed && j < |blocks| && d == Sha256(blocks[j]);
      assert blocks'[j] == blocks[j];
    }
  }

  lemma ReplicaInvGrows(
      c: Config, sys: System, sys': System, blocks: seq<Block>, blocks': seq<Block>, r: ReplicaIndex, s: State)
    requires ReplicaInv(c, sys, blocks, r, s) && blocks <= blocks' && Grows(sys, sys')
    ensures ReplicaInv(c, sys', blocks', r, s)
  {
    hide WellFormed, SentOk, CertificatesOk, ChainFollows, Grows, StatusOk, Full;
    CertificatesGrow(c, sys, sys', s);
    if s.status.Running? {
      var committed :| ChainFollows(blocks, s, committed);
      FollowsMore(blocks, blocks', s, committed);
    }
  }

  lemma StepKeeps(c: Config, sys: System, sys': System)
    requires Inv(c, sys) && Next(c, sys, sys')
    ensures Inv(c, sys') && Grows(sys, sys')
  {
    hide WellFormed, ReplicaInv, PrimaryInv, Progress, Enabled, Handle, ValidConfig;
    var r, e :| StepBy(c, sys, sys', r, e);
    HandleReplicaInv(c, sys, r, e);
    StepGrows(c, sys, sys', r, e);
    forall q | q in sys' ensures ReplicaInv(c, sys', Proposed(sys'), q, sys'[q]) {
      assert ReplicaInv(c, sys, Proposed(sys), q, sys'[q]);
      ReplicaInvGrows(c, sys, sys', Proposed(sys), Proposed(sys'), q, sys'[q]);
    }
  }

  lemma SentPrefix(sys: System, sys': System, r: ReplicaIndex, e: Event)
    requires r in sys && PRIMARY in sys && WellFormed(sys[r]) && sys' == sys[r := Handle(sys[r], e)]
    ensures sys[PRIMARY].sentPrePrepares <= sys'[PRIMARY].sentPrePrepares
    ensures forall q :: q in sys ==> Progress(sys[q], sys[q])
  {
    hide WellFormed, Handle;
    HandleProgress(sys[r], e);
  }

  lemma StepGrows(c: Config, sys: System, sys': System, r: ReplicaIndex, e: Event)
    requires Inv(c, sys) && StepBy(c, sys, sys', r, e)
    ensures Grows(sys, sys') && PrimaryInv(sys'[PRIMARY]) && Proposed(sys) <= Proposed(sys')
  {
    hide WellFormed, PrimaryInv, Handle, ExecutedOk, CertificatesOk, StatusOk, ChainFollows, SentOk, PrePreparesOk, BlocksOf, Enabled, Progress;
    SentPrefix(sys, sys', r, e);
    assert ReplicaInv(c, sys, Proposed(sys), r, sys[r]);
    HandleProgress(sys[r], e);
    if r == PRIMARY {
      PrimaryStep(sys[r], e);
    }
    BlocksOfMore(sys[PRIMARY].sentPrePrepares, sys'[PRIMARY].sentPrePrepares);
  }

  lemma InitReplicaInv(c: Config, sys: System, r: ReplicaIndex)
    requires ValidConfig(c)
    ensures ReplicaInv(c, sys, [], r, Init(c.n, c.f, r))
  {
    var s := Init(c.n, c.f, r);
    assert Reassembles(s.chain, [], {}, 0);
    assert ChainFollows([], s, {});
  }

  lemma InitInv(c: Config)
    requires CorrectPrimary(c)
    ensures Inv(c, InitSystem(c))
  {
    hide ReplicaInv;
    var sys := InitSystem(c);
    assert BlocksOf([]) == [] && Flatten([]) == [];
    forall r | r in sys ensures ReplicaInv(c, sys, Proposed(sys), r, sys[r]) {
      InitReplicaInv(c, sys, r);
    }
  }

  lemma RunWithoutLast(c: Config, run: seq<System>)
    requires IsRun(c, run) && |run| > 1
    ensures IsRun(c, run[..|run| - 1]) && Next(c, run[|run| - 2], run[|run| - 1])
    ensures run[..|run| - 1][|run| - 2] == run[|run| - 2]
  {
    var shorter := run[..|run| - 1];
    hide Next;
    forall i | 0 <= i < |shorter| - 1 ensures Next(c, shorter[i], shorter[i + 1]) {
      assert Next(c, run[i], run[i + 1]);
    }
  }

  lemma {:induction false} RunInv(c: Config, run: seq<System>)
    requires CorrectPrimary(c) && IsRun(c, run)
    ensures Inv(c, run[|run| - 1])
    decreases |run|
  {
    hide Inv, Next;
    if |run| == 1 {
      InitInv(c);
    } else {
      RunWithoutLast(c, run);
      RunInv(c, run[..|run| - 1]);
      StepKeeps(c, run[|run| - 2], run[|run| - 1]);
    }
  }
}
