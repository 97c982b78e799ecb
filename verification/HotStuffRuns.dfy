/** Runs of HotStuff with up to f arbitrary replicas, and the invariant that every run keeps.

    A run interleaves the handlers of the correct replicas. Votes are authenticated: a vote in the
    name of a correct replica was sent by it. Nothing else is assumed of the network or of faulty
    replicas, except that accepted proposals have the shape `do_propose` gives them. */
module HotStuffRuns {
  import opened Blocks
  import opened Quorums
  import opened HotStuff

  /** The correct replicas; the faulty ones have no state. */
  type System = map<ReplicaIndex, State>

  ghost predicate Voted(sys: System, r: ReplicaIndex, d: Digest) {
    r in sys && Vote(d, r) in sys[r].sentVotes
  }

  /** Everyone who may show a vote for `d`. */
  ghost function Voters(c: Config, sys: System, d: Digest): set<ReplicaIndex> {
    set r | r in Replicas(c.n) && (r in c.faulty || Voted(sys, r, d))
  }

  ghost predicate Certified(c: Config, sys: System, d: Digest) {
    d == GENESIS_DIGEST || |Voters(c, sys, d)| >= c.n - c.f
  }

  ghost function CertificateVoters(c: Config, g: Generic): set<ReplicaIndex> {
    set r | r in Replicas(c.n) && Vote(g.certified, r) in g.certificate
  }

  /** The assumption on accepted proposals: they extend the block they certify by one, with n - f
      distinct votes for it, and votes of correct replicas are genuine. */
  ghost predicate Acceptable(c: Config, sys: System, g: Generic) {
    && g.certified == g.block.parent
    && g.certified.Sha256?
    && g.block.height == g.certified.block.height + 1
    && (g.certified == GENESIS_DIGEST || |CertificateVoters(c, g)| >= c.n - c.f)
    && forall r :: r in CertificateVoters(c, g) && r !in c.faulty ==> Voted(sys, r, g.certified)
  }

  datatype Event =
    | RequestArrives(request: Request)
    | ProposalArrives(proposal: Generic)
    | OwnProposalArrives(own: Generic)
    | VoteArrives(vote: Vote)
    | Pace

  ghost predicate Enabled(c: Config, sys: System, r: ReplicaIndex, e: Event)
    requires r in sys
  {
    match e
    case ProposalArrives(g) => Acceptable(c, sys, g)
    case OwnProposalArrives(g) => g in sys[r].sentGenerics && Acceptable(c, sys, g)
    case VoteArrives(v) => v.replica in Replicas(c.n) && (v.replica !in c.faulty ==> Voted(sys, v.replica, v.digest))
    case _ => true
  }

  ghost function Handle(s: State, e: Event): State
    requires WellFormed(s) && (e.OwnProposalArrives? ==> e.own in s.sentGenerics)
  {
    match e
    case RequestArrives(request) => HandleRequest(s, request)
    case ProposalArrives(g) => Reorder(s, g)
    case OwnProposalArrives(g) => HandleLoopback(s, g)
    case VoteArrives(v) => HandleVote(s, v)
    case Pace => OnPace(s)
  }

  ghost predicate StepBy(c: Config, sys: System, sys': System, r: ReplicaIndex, e: Event) {
    && r in sys && WellFormed(sys[r]) && Enabled(c, sys, r, e)
    && sys' == sys[r := Handle(sys[r], e)]
  }

  ghost predicate Next(c: Config, sys: System, sys': System) {
    exists r, e :: StepBy(c, sys, sys', r, e)
  }

  ghost function InitSystem(c: Config): System {
    map r | r in Correct(c) :: Init(c.n, c.f, r)
  }

  ghost predicate IsRun(c: Config, run: seq<System>) {
    && |run| > 0
    && run[0] == InitSystem(c)
    && forall i :: 0 <= i < |run| - 1 ==> Next(c, run[i], run[i + 1])
  }

  // ---------- the invariant ----------

  ghost function Height(d: Digest): nat {
    if d.Sha256? then d.block.height else 0
  }

  /** What is left of `Acceptable` once the votes are known to be genuine. */
  ghost predicate Sound(c: Config, sys: System, g: Generic) {
    && g.certified == g.block.parent
    && g.certified.Sha256?
    && g.block.height == g.certified.block.height + 1
    && Certified(c, sys, g.certified)
  }

  /** `d` is certified at the head of two further certified blocks. */
  ghost predicate DecidedBy(c: Config, sys: System, d: Digest, d2: Digest) {
    && d.Sha256? && d != GENESIS_DIGEST
    && d2.Sha256? && d2.block.parent.Sha256? && d2.block.parent.block.parent == d
    && Certified(c, sys, d2)
  }

  ghost predicate Decided(c: Config, sys: System, d: Digest) {
    exists d2 :: DecidedBy(c, sys, d, d2)
  }

  /** The lock that was in place when the later of two votes was cast. */
  ghost predicate LockBetween(c: Config, sys: System, earlier: Digest, later: Digest, lock: Digest) {
    && Certified(c, sys, lock)
    && Height(earlier) <= Height(lock) + 2
    && later.Sha256?
    && (Reaches(later.block.parent, lock) || Height(later.block.parent) > Height(lock))
  }

  ghost predicate VotedInOrder(c: Config, sys: System, earlier: Digest, later: Digest) {
    && Height(earlier) < Height(later)
    && exists lock :: LockBetween(c, sys, earlier, later, lock)
  }

  ghost predicate VoteOk(s: State, r: ReplicaIndex, v: Vote) {
    && v.replica == r
    && v.digest != GENESIS_DIGEST
    && v.digest in s.generics
    && Height(v.digest) <= s.viewHeight
    && Height(v.digest) <= Height(s.digestLock) + 2
  }

  ghost predicate VotesOk(c: Config, sys: System, r: ReplicaIndex, s: State) {
    && (forall i {:trigger s.sentVotes[i]} :: 0 <= i < |s.sentVotes| ==> VoteOk(s, r, s.sentVotes[i]))
    && (forall i, j {:trigger s.sentVotes[i], s.sentVotes[j]} :: 0 <= i < j < |s.sentVotes| ==>
          VotedInOrder(c, sys, s.sentVotes[i].digest, s.sentVotes[j].digest))
  }

  ghost predicate ProposalsSound(c: Config, sys: System, s: State) {
    && (forall d :: d in s.generics && d != GENESIS_DIGEST ==> Sound(c, sys, s.generics[d]))
    && (forall d, g :: d in s.reordering && g in s.reordering[d] ==> Sound(c, sys, g))
  }

  ghost predicate LogDecided(c: Config, sys: System, log: seq<Block>) {
    && Linked(log)
    && (forall i {:trigger log[i]} :: 0 <= i < |log| ==> Decided(c, sys, Sha256(log[i])))
  }

  ghost predicate LogOk(c: Config, sys: System, s: State) {
    && LogDecided(c, sys, s.executed)
    && (s.status.Running? ==> s.chain.digestExecute == DigestAt(s.executed, |s.executed|))
  }

  /** What a correct replica keeps, given what `sys` shows to be certified. */
  ghost predicate ReplicaInv(c: Config, sys: System, r: ReplicaIndex, s: State) {
    && s.index == r && s.n == c.n && s.f == c.f
    && WellFormed(s)
    && ProposalsSound(c, sys, s)
    && Certified(c, sys, s.digestLock)
    && VotesOk(c, sys, r, s)
    && LogOk(c, sys, s)
  }

  ghost predicate Inv(c: Config, sys: System) {
    && ValidConfig(c)
    && sys.Keys == Correct(c)
    && forall r :: r in sys ==> ReplicaInv(c, sys, r, sys[r])
  }

  /** What never goes back in the life of a replica. */
  ghost predicate Progress(s: State, s': State) {
    && s.sentVotes <= s'.sentVotes
    && s.viewHeight <= s'.viewHeight
    && Height(s.digestLock) <= Height(s'.digestLock)
    && s.executed <= s'.executed
  }

  // ---------- one replica keeps its part ----------

  lemma HeightOfEntry(generics: Generics, d: Digest)
    requires GenericsOk(generics) && d in generics
    ensures BlockHeight(generics, d) == Height(d)
  {
    assert EntryOk(generics, d);
  }

  /** Casting a vote keeps votes ordered by the lock rule. */
  lemma VoteKeeps(c: Config, sys: System, r: ReplicaIndex, s: State, g: Generic)
    requires s.index == r && GenericsOk(s.generics) && s.digestLock in s.generics
    requires Certified(c, sys, s.digestLock) && VotesOk(c, sys, r, s)
    requires g.block.parent == g.certified && g.certified in s.generics
    requires Sha256(g.block) in s.generics && Sha256(g.block) != GENESIS_DIGEST
    ensures
      var s' := VoteFor(s, g);
      forall i, j {:trigger s'.sentVotes[i], s'.sentVotes[j]} :: 0 <= i < j < |s'.sentVotes| ==>
        VotedInOrder(c, sys, s'.sentVotes[i].digest, s'.sentVotes[j].digest)
  {
    var s' := VoteFor(s, g);
    var d := Sha256(g.block);
    HeightOfEntry(s.generics, s.digestLock);
    HeightOfEntry(s.generics, g.certified);
    forall i, j | 0 <= i < j < |s'.sentVotes|
      ensures VotedInOrder(c, sys, s'.sentVotes[i].digest, s'.sentVotes[j].digest)
    {
      assert s'.sentVotes[i] == s.sentVotes[i];
      if j < |s.sentVotes| {
        assert s'.sentVotes[j] == s.sentVotes[j];
      } else {
        assert VoteOk(s, r, s.sentVotes[i]);
        assert LockBetween(c, sys, s.sentVotes[i].digest, d, s.digestLock);
      }
    }
  }

  /** The block that `do_update` locks on is at most two below the block inserted. */
  lemma LockAfterUpdate(c: Config, sys: System, s: State, d: Digest)
    requires WellFormed(s) && d in s.generics && d != GENESIS_DIGEST
    requires ProposalsSound(c, sys, s) && Certified(c, sys, s.digestLock)
    ensures
      var lock := CertifyAndLock(s, d).digestLock;
      && Height(s.digestLock) <= Height(lock)
      && Height(d) <= Height(lock) + 2
      && Certified(c, sys, lock)
  {
    assert EntryOk(s.generics, d) && Sound(c, sys, s.generics[d]);
    var d2 := s.generics[d].certified;
    assert EntryOk(s.generics, d2);
    var d1 := s.generics[d2].certified;
    if d2 != GENESIS_DIGEST {
      assert Sound(c, sys, s.generics[d2]);
    }
    HeightOfEntry(s.generics, d1);
    HeightOfEntry(s.generics, s.digestLock);
  }

  lemma CommitBlockKeeps(c: Config, sys: System, s: State, block: Block)
    requires LogOk(c, sys, s) && s.status.Running? && s.chain.pending == map[]
    requires Decided(c, sys, Sha256(block))
    ensures LogOk(c, sys, CommitBlock(s, block)) && s.executed <= CommitBlock(s, block).executed
  {
    if block.parent == s.chain.digestExecute {
      LinkedExtend(s.executed, block);
      var executed := s.executed + [block];
      forall i | 0 <= i < |executed| ensures Decided(c, sys, Sha256(executed[i])) {
        if i < |s.executed| {
          assert executed[i] == s.executed[i];
        }
      }
    }
  }

  lemma CommitTargetDecided(c: Config, sys: System, s: State, d: Digest)
    requires WellFormed(s) && d in s.generics && d != GENESIS_DIGEST
    requires ProposalsSound(c, sys, s) && CommitTarget(s.generics, d).Some?
    ensures
      var d0 := CommitTarget(s.generics, d).value;
      Decided(c, sys, d0) && d0.Sha256? && s.generics[d0].block == d0.block
  {
    assert EntryOk(s.generics, d) && Sound(c, sys, s.generics[d]);
    var d2 := s.generics[d].certified;
    assert EntryOk(s.generics, d2);
    var d1 := s.generics[d2].certified;
    assert EntryOk(s.generics, d1);
    var d0 := s.generics[d1].certified;
    assert EntryOk(s.generics, d0);
    assert DecidedBy(c, sys, d0, d2);
  }

  /** Only decided blocks are committed, each on top of the one before. */
  lemma CommitAfterUpdate(c: Config, sys: System, s: State, d: Digest)
    requires WellFormed(s) && d in s.generics && d != GENESIS_DIGEST
    requires ProposalsSound(c, sys, s) && LogOk(c, sys, s) && s.status.Running?
    ensures LogOk(c, sys, Update(s, d)) && s.executed <= Update(s, d).executed
  {
    var s1 := CertifyAndLock(s, d);
    assert LogOk(c, sys, s1);
    if CommitTarget(s.generics, d).Some? {
      CommitTargetDecided(c, sys, s, d);
      CommitBlockKeeps(c, sys, s1, CommitTarget(s.generics, d).value.block);
    }
  }

  lemma SameProposals(c: Config, sys: System, s: State, s': State)
    requires ProposalsSound(c, sys, s) && s'.generics == s.generics && s'.reordering == s.reordering
    ensures ProposalsSound(c, sys, s')
  {
  }

  lemma SameLog(c: Config, sys: System, s: State, s': State)
    requires LogOk(c, sys, s) && s'.executed == s.executed && s'.status == s.status && s'.chain == s.chain
    ensures LogOk(c, sys, s')
  {
  }

  lemma InsertedProposal(c: Config, sys: System, s: State, g: Generic)
    requires ProposalsSound(c, sys, s) && Sound(c, sys, g)
    ensures ProposalsSound(c, sys, s.(generics := s.generics[Sha256(g.block) := g]))
  {
    hide Sound;
  }

  /** A vote just cast, and a lock that only rises, keep the votes in order. */
  lemma VotesAfterInsert(c: Config, sys: System, r: ReplicaIndex, s: State, g: Generic, s': State)
    requires s.index == r && GenericsOk(s.generics) && s.digestLock in s.generics
    requires Certified(c, sys, s.digestLock) && VotesOk(c, sys, r, s)
    requires g.block.parent == g.certified && g.certified in s.generics
    requires Sha256(g.block) in s.generics && Sha256(g.block) != GENESIS_DIGEST
    requires
      var s2 := VoteFor(s, g);
      s'.sentVotes == s2.sentVotes && s'.viewHeight == s2.viewHeight && s'.generics == s.generics
    requires Height(s.digestLock) <= Height(s'.digestLock) && g.block.height <= Height(s'.digestLock) + 2
    ensures VotesOk(c, sys, r, s')
  {
    hide VotedInOrder, Certified, GenericsOk;
    VoteKeeps(c, sys, r, s, g);
    forall i | 0 <= i < |s'.sentVotes| ensures VoteOk(s', r, s'.sentVotes[i]) {
      if i < |s.sentVotes| {
        assert s'.sentVotes[i] == s.sentVotes[i];
        assert VoteOk(s, r, s.sentVotes[i]);
      }
    }
  }

  lemma VotesInserted(c: Config, sys: System, r: ReplicaIndex, s: State, g: Generic)
    requires VotesOk(c, sys, r, s)
    ensures VotesOk(c, sys, r, s.(generics := s.generics[Sha256(g.block) := g]))
  {
    hide VotedInOrder;
    forall i | 0 <= i < |s.sentVotes|
      ensures VoteOk(s.(generics := s.generics[Sha256(g.block) := g]), r, s.sentVotes[i])
    {
      assert VoteOk(s, r, s.sentVotes[i]);
    }
  }

  lemma InsertKeeps(c: Config, sys: System, r: ReplicaIndex, s: State, g: Generic)
    requires ReplicaInv(c, sys, r, s) && Sound(c, sys, g) && s.status.Running?
    requires g.certified in s.generics
    ensures ReplicaInv(c, sys, r, InsertGeneric(s, g)) && Progress(s, InsertGeneric(s, g))
  {
    hide VotesOk, ProposalsSound, LogOk, Certified, Update, GenericsOk;
    var d := Sha256(g.block);
    InsertedOk(s, g);
    var s1 := s.(generics := s.generics[d := g]);
    var s2 := VoteFor(s1, g);
    var s3 := Update(s2, d);
    assert s3 == InsertGeneric(s, g);
    InsertedProposal(c, sys, s, g);
    SameProposals(c, sys, s1, s2);
    SameProposals(c, sys, s2, s3);
    SameLog(c, sys, s, s2);
    VotesInserted(c, sys, r, s, g);
    LockAfterUpdate(c, sys, s2, d);
    CommitAfterUpdate(c, sys, s2, d);
    VotesAfterInsert(c, sys, r, s1, g, s3);
  }

  /** Moving proposals in or out of the reorder buffer. */
  lemma BufferKeeps(
      c: Config, sys: System, r: ReplicaIndex, s: State, reordering: map<Digest, seq<Generic>>)
    requires ReplicaInv(c, sys, r, s)
    requires forall d, g :: d in reordering && g in reordering[d] ==> Sound(c, sys, g)
    ensures ReplicaInv(c, sys, r, s.(reordering := reordering)) && Progress(s, s.(reordering := reordering))
  {
    hide Sound, GenericsOk, VotedInOrder, Certified, LogDecided;
  }

  lemma BufferSound(c: Config, sys: System, r: ReplicaIndex, s: State, d: Digest, g: Generic)
    requires ReplicaInv(c, sys, r, s) && Sound(c, sys, g)
    ensures ReplicaInv(c, sys, r, s.(reordering := Buffer(s.reordering, d, g)))
    ensures Progress(s, s.(reordering := Buffer(s.reordering, d, g)))
  {
    hide Sound, GenericsOk, VotesOk, Certified, LogOk;
    BufferKeeps(c, sys, r, s, Buffer(s.reordering, d, g));
  }

  lemma ReleasedKeeps(c: Config, sys: System, r: ReplicaIndex, s: State, d: Digest)
    requires ReplicaInv(c, sys, r, s) && d in s.reordering
    ensures ReplicaInv(c, sys, r, Released(s, d)) && Progress(s, Released(s, d))
    ensures forall g :: g in s.reordering[d] ==> Sound(c, sys, g)
  {
    hide Sound, GenericsOk, VotesOk, Certified, LogOk;
    BufferKeeps(c, sys, r, s, s.reordering - {d});
  }

  lemma InvWellFormed(c: Config, sys: System, r: ReplicaIndex, s: State)
    requires ReplicaInv(c, sys, r, s)
    ensures WellFormed(s)
  {
  }

  lemma {:induction false} ReorderKeeps(c: Config, sys: System, r: ReplicaIndex, s: State, g: Generic)
    requires ReplicaInv(c, sys, r, s) && Sound(c, sys, g)
    ensures ReplicaInv(c, sys, r, Reorder(s, g)) && Progress(s, Reorder(s, g))
    decreases Buffered(s.reordering) + 1, 0, 0
  {
    hide ReplicaInv, InsertGeneric, WellFormed, Buffer, Buffered, Released;
    InvWellFormed(c, sys, r, s);
    SoundParent(c, sys, g);
    if s.status.Running? {
      if g.certified in s.generics {
        InsertKeeps(c, sys, r, s, g);
        var inserted := InsertGeneric(s, g);
        var d := Sha256(g.block);
        if inserted.status.Running? && d in inserted.reordering {
          BufferedWithout(s.reordering, d);
          ReleasedFields(inserted, d);
          ReleasedKeeps(c, sys, r, inserted, d);
          ReorderAllKeeps(c, sys, r, Released(inserted, d), inserted.reordering[d]);
        }
      } else {
        BufferSound(c, sys, r, s, g.certified, g);
      }
    } else {
      assert Reorder(s, g) == s;
    }
  }

  lemma SoundParent(c: Config, sys: System, g: Generic)
    requires Sound(c, sys, g)
    ensures g.certified == g.block.parent
  {
  }

  lemma ReleasedFields(s: State, d: Digest)
    ensures Released(s, d) == s.(reordering := s.reordering - {d})
  {
  }

  lemma {:induction false} ReorderAllKeeps(c: Config, sys: System, r: ReplicaIndex, s: State, gs: seq<Generic>)
    requires ReplicaInv(c, sys, r, s) && forall g :: g in gs ==> Sound(c, sys, g)
    ensures ReplicaInv(c, sys, r, ReorderAll(s, gs)) && Progress(s, ReorderAll(s, gs))
    decreases Buffered(s.reordering) + |gs|, 1, |gs|
  {
    if gs != [] {
      ReorderKeeps(c, sys, r, s, gs[0]);
      ReorderAllKeeps(c, sys, r, Reorder(s, gs[0]), gs[1..]);
    }
  }

  /** Steps that neither insert a proposal, vote, lock nor execute. */
  ghost predicate Quiet(s: State, s': State) {
    && WellFormed(s')
    && s'.index == s.index && s'.n == s.n && s'.f == s.f
    && s'.generics == s.generics && s'.reordering == s.reordering
    && s'.digestLock == s.digestLock && s'.viewHeight == s.viewHeight
    && s'.sentVotes == s.sentVotes && s'.executed == s.executed
    && s'.chain.digestExecute == s.chain.digestExecute
    && (s'.status.Running? ==> s.status.Running?)
  }

  lemma QuietKeeps(c: Config, sys: System, r: ReplicaIndex, s: State, s': State)
    requires ReplicaInv(c, sys, r, s) && Quiet(s, s')
    ensures ReplicaInv(c, sys, r, s') && Progress(s, s')
  {
    forall i | 0 <= i < |s'.sentVotes| ensures VoteOk(s', r, s'.sentVotes[i]) {
      assert VoteOk(s, r, s.sentVotes[i]);
    }
  }

  lemma RequestQuiet(s: State, request: Request)
    requires WellFormed(s)
    ensures Quiet(s, HandleRequest(s, request))
  {
  }

  lemma VoteQuiet(s: State, v: Vote)
    requires WellFormed(s)
    ensures Quiet(s, HandleVote(s, v))
  {
    hide GenericsOk;
  }

  lemma PaceQuiet(s: State)
    requires WellFormed(s)
    ensures Quiet(s, OnPace(s))
  {
    OnPaceWellFormed(s);
  }

  lemma ProposalKeeps(c: Config, sys: System, r: ReplicaIndex, s: State, g: Generic)
    requires ReplicaInv(c, sys, r, s) && Sound(c, sys, g) && g in s.sentGenerics
    ensures ReplicaInv(c, sys, r, HandleLoopback(s, g)) && Progress(s, HandleLoopback(s, g))
  {
    if s.status.Running? {
      InsertKeeps(c, sys, r, s, g);
    }
  }

  lemma HandleKeeps(c: Config, sys: System, r: ReplicaIndex, s: State, e: Event)
    requires ReplicaInv(c, sys, r, s)
    requires e.ProposalArrives? ==> Sound(c, sys, e.proposal)
    requires e.OwnProposalArrives? ==> Sound(c, sys, e.own) && e.own in s.sentGenerics
    ensures ReplicaInv(c, sys, r, Handle(s, e)) && Progress(s, Handle(s, e))
  {
    match e
    case RequestArrives(request) =>
      RequestQuiet(s, request);
      QuietKeeps(c, sys, r, s, Handle(s, e));
    case ProposalArrives(g) =>
      ReorderKeeps(c, sys, r, s, g);
    case OwnProposalArrives(g) =>
      ProposalKeeps(c, sys, r, s, g);
    case VoteArrives(v) =>
      VoteQuiet(s, v);
      QuietKeeps(c, sys, r, s, Handle(s, e));
    case Pace =>
      PaceQuiet(s);
      QuietKeeps(c, sys, r, s, Handle(s, e));
  }

  lemma AcceptableSound(c: Config, sys: System, g: Generic)
    requires Acceptable(c, sys, g)
    ensures Sound(c, sys, g)
  {
    SubsetSize(CertificateVoters(c, g), Voters(c, sys, g.certified));
  }

  // ---------- the system keeps the invariant ----------

  ghost predicate Grows(sys: System, sys': System) {
    sys.Keys == sys'.Keys && forall r :: r in sys ==> sys[r].sentVotes <= sys'[r].sentVotes
  }

  lemma CertifiedGrows(c: Config, sys: System, sys': System, d: Digest)
    requires Grows(sys, sys') && Certified(c, sys, d)
    ensures Certified(c, sys', d)
  {
    forall r | r in Voters(c, sys, d) ensures r in Voters(c, sys', d) {
      if r !in c.faulty {
        var i :| 0 <= i < |sys[r].sentVotes| && sys[r].sentVotes[i] == Vote(d, r);
        assert sys'[r].sentVotes[i] == Vote(d, r);
      }
    }
    SubsetSize(Voters(c, sys, d), Voters(c, sys', d));
  }

  lemma VotesOkGrows(c: Config, sys: System, sys': System, r: ReplicaIndex, s: State)
    requires Grows(sys, sys') && VotesOk(c, sys, r, s)
    ensures VotesOk(c, sys', r, s)
  {
    forall i, j | 0 <= i < j < |s.sentVotes|
      ensures VotedInOrder(c, sys', s.sentVotes[i].digest, s.sentVotes[j].digest)
    {
      var earlier, later := s.sentVotes[i].digest, s.sentVotes[j].digest;
      var lock :| LockBetween(c, sys, earlier, later, lock);
      CertifiedGrows(c, sys, sys', lock);
      assert LockBetween(c, sys', earlier, later, lock);
    }
  }

  lemma LogOkGrows(c: Config, sys: System, sys': System, s: State)
    requires Grows(sys, sys') && LogOk(c, sys, s)
    ensures LogOk(c, sys', s)
  {
    forall i | 0 <= i < |s.executed| ensures Decided(c, sys', Sha256(s.executed[i])) {
      var d := Sha256(s.executed[i]);
      var d2 :| DecidedBy(c, sys, d, d2);
      CertifiedGrows(c, sys, sys', d2);
      assert DecidedBy(c, sys', d, d2);
    }
  }

  lemma ReplicaInvGrows(c: Config, sys: System, sys': System, r: ReplicaIndex, s: State)
    requires Grows(sys, sys') && ReplicaInv(c, sys, r, s)
    ensures ReplicaInv(c, sys', r, s)
  {
    forall g | Sound(c, sys, g) ensures Sound(c, sys', g) {
      CertifiedGrows(c, sys, sys', g.certified);
    }
    CertifiedGrows(c, sys, sys', s.digestLock);
    VotesOkGrows(c, sys, sys', r, s);
    LogOkGrows(c, sys, sys', s);
  }

  /** Every step of every run keeps the invariant, and no correct replica goes back. */
  lemma StepKeeps(c: Config, sys: System, sys': System)
    requires Inv(c, sys) && Next(c, sys, sys')
    ensures Inv(c, sys') && Grows(sys, sys')
    ensures forall r :: r in sys ==> Progress(sys[r], sys'[r])
  {
    var r, e :| StepBy(c, sys, sys', r, e);
    assert ReplicaInv(c, sys, r, sys[r]);
    if e.ProposalArrives? {
      AcceptableSound(c, sys, e.proposal);
    } else if e.OwnProposalArrives? {
      AcceptableSound(c, sys, e.own);
    }
    HandleKeeps(c, sys, r, sys[r], e);
    OneChanges(c, sys, sys', r);
  }

  lemma OneChanges(c: Config, sys: System, sys': System, r: ReplicaIndex)
    requires Inv(c, sys) && r in sys && r in sys' && sys' == sys[r := sys'[r]]
    requires ReplicaInv(c, sys, r, sys'[r]) && Progress(sys[r], sys'[r])
    ensures Inv(c, sys') && Grows(sys, sys')
    ensures forall q :: q in sys ==> Progress(sys[q], sys'[q])
  {
    hide ReplicaInv;
    forall q | q in sys ensures ReplicaInv(c, sys', q, sys'[q]) && Progress(sys[q], sys'[q]) {
      assert q != r ==> sys'[q] == sys[q];
      ReplicaInvGrows(c, sys, sys', q, sys'[q]);
    }
  }

  lemma InitReplicaInv(c: Config, sys: System, r: ReplicaIndex)
    ensures ReplicaInv(c, sys, r, Init(c.n, c.f, r))
  {
    var s := Init(c.n, c.f, r);
    assert LogOk(c, sys, s);
  }

  lemma InitInv(c: Config)
    requires ValidConfig(c)
    ensures Inv(c, InitSystem(c))
  {
    forall r | r in Correct(c) ensures ReplicaInv(c, InitSystem(c), r, InitSystem(c)[r]) {
      InitReplicaInv(c, InitSystem(c), r);
    }
  }

  lemma RunWithoutLast(c: Config, run: seq<System>)
    requires IsRun(c, run) && |run| > 1
    ensures IsRun(c, run[..|run| - 1]) && Next(c, run[|run| - 2], run[|run| - 1])
  {
    var init := run[..|run| - 1];
    forall i | 0 <= i < |init| - 1 ensures Next(c, init[i], init[i + 1]) {
      assert Next(c, run[i], run[i + 1]);
    }
    var last := |run| - 2;
    assert Next(c, run[last], run[last + 1]);
  }

  lemma {:induction false} RunInv(c: Config, run: seq<System>)
    requires ValidConfig(c) && IsRun(c, run)
    ensures Inv(c, run[|run| - 1])
    decreases |run|
  {
    if |run| == 1 {
      InitInv(c);
    } else {
      RunWithoutLast(c, run);
      RunInv(c, run[..|run| - 1]);
      StepKeeps(c, run[|run| - 2], run[|run| - 1]);
    }
  }
}
