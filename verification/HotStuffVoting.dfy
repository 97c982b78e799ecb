/** Exactly when a HotStuff replica votes, and what it certifies and locks, over all runs with any leader. */
module HotStuffVoting {
  // It votes for a block it inserts if and only if the block is higher than every block it voted for and extends the
  // lock or certifies a higher block. What it has certified is the highest block it has any proof for, and its lock
  // the highest two blocks further back.

  import opened Blocks
  import opened Quorums
  import opened HotStuff
  import opened HotStuffRuns
  import opened HotStuffPrimarySteps
  import opened HotStuffInsertions

  // ---------- what is kept ----------

  /** `viewHeight` is the greatest height voted at. */
  ghost predicate VotesBelow(s: State) {
    && (forall v :: v in s.sentVotes ==> Height(v.digest) <= s.viewHeight)
    && (s.viewHeight == 0 || exists v :: v in s.sentVotes && Height(v.digest) == s.viewHeight)
  }

  /** No block collects more than n - f votes, and none with that many is above `digestCertified`. */
  ghost predicate CountedTop(n: nat, f: nat, votes: map<Digest, map<ReplicaIndex, Vote>>, certified: Digest) {
    && n > f
    && forall d :: d in votes ==> |votes[d]| < n - f || (|votes[d]| == n - f && Height(d) <= Height(certified))
  }

  /** No block that a proposal certifies is above `digestCertified`. */
  ghost predicate ShownTop(generics: Generics, certified: Digest) {
    forall d :: d in generics ==> Height(generics[d].certified) <= Height(certified)
  }

  /** Nothing is known to be certified above `digestCertified`: no block with n - f votes, and none that a proposal
      certifies. */
  ghost predicate CertifiedTop(s: State) {
    CountedTop(s.n, s.f, s.votes, s.digestCertified) && ShownTop(s.generics, s.digestCertified)
  }

  ghost predicate Tops(s: State) {
    VotesBelow(s) && CertifiedTop(s)
  }

  ghost predicate Shaped(g: Generic) {
    g.certified == g.block.parent
  }

  ghost predicate AllShaped(gs: seq<Generic>) {
    forall g :: g in gs ==> Shaped(g)
  }

  /** Proposals certify the parent of their block, as `do_propose` makes them. */
  ghost predicate Shapes(s: State) {
    && (forall d :: d in s.generics ==> Shaped(s.generics[d]))
    && (forall d :: d in s.reordering ==> AllShaped(s.reordering[d]))
    && AllShaped(s.sentGenerics)
  }

  /** Two blocks back from a block that is inserted. */
  ghost function GrandParent(generics: Generics, d: Digest): Digest
    requires GenericsOk(generics) && d in generics
  {
    assert EntryOk(generics, d);
    generics[generics[d].certified].certified
  }

  /** The lock is the highest block two back from one that is inserted. */
  ghost predicate LockTop(generics: Generics, lock: Digest)
    requires GenericsOk(generics)
  {
    && (forall d :: d in generics ==> Height(GrandParent(generics, d)) <= Height(lock))
    && (lock == GENESIS_DIGEST || exists d :: d in generics && GrandParent(generics, d) == lock)
  }

  ghost predicate Counted(n: nat, f: nat, votes: map<Digest, map<ReplicaIndex, Vote>>, certified: Digest) {
    certified in votes && |votes[certified]| >= n - f
  }

  ghost predicate Shown(generics: Generics, certified: Digest) {
    exists d :: d in generics && generics[d].certified == certified
  }

  /** The lock is the highest there is reason for, and `digestCertified` is certified: by votes, or by a proposal. */
  ghost predicate Locks(s: State) {
    && WellFormed(s) && Shapes(s)
    && LockTop(s.generics, s.digestLock)
    && (|| s.digestCertified == GENESIS_DIGEST
        || Counted(s.n, s.f, s.votes, s.digestCertified)
        || Shown(s.generics, s.digestCertified))
  }

  // ---------- one insertion ----------

  /** The rule, in heights and ancestors: higher than everything voted for, and on the lock or above it. */
  ghost predicate Deserves(s: State, g: Generic) {
    && g.block.height > 0
    && (forall v :: v in s.sentVotes ==> Height(v.digest) < g.block.height)
    && (Reaches(g.block.parent, s.digestLock) || Height(g.certified) > Height(s.digestLock))
  }

  /** A block that is inserted gets a vote, one, if and only if it deserves it. */
  lemma InsertVotesIff(s: State, g: Generic)
    requires WellFormed(s) && g.block.parent in s.generics && g.certified in s.generics && VotesBelow(s)
    ensures InsertGeneric(s, g).sentVotes
              == s.sentVotes + (if Deserves(s, g) then [Vote(Sha256(g.block), s.index)] else [])
    ensures VotesBelow(InsertGeneric(s, g))
  {
    hide WellFormed, InsertGeneric, Reaches;
    VotesOfInsert(s, g);
    InsertHeights(s, g);
    if g.block.height > s.viewHeight {
    } else if s.viewHeight > 0 {
      var v :| v in s.sentVotes && Height(v.digest) == s.viewHeight;
    }
    var s' := InsertGeneric(s, g);
    if Deserves(s, g) {
      assert s'.sentVotes[|s.sentVotes|] == Vote(Sha256(g.block), s.index);
    }
  }

  lemma InsertHeights(s: State, g: Generic)
    requires WellFormed(s) && g.block.parent in s.generics && g.certified in s.generics
    ensures s.digestLock in s.generics && BlockHeight(s.generics, s.digestLock) == Height(s.digestLock)
    ensures BlockHeight(s.generics[Sha256(g.block) := g], g.certified) == Height(g.certified)
  {
    InsertedOk(s, g);
    HeightOfEntry(s.generics, s.digestLock);
    HeightOfEntry(s.generics[Sha256(g.block) := g], g.certified);
  }

  lemma InsertTop(s: State, g: Generic)
    requires WellFormed(s) && g.block.parent in s.generics && g.certified in s.generics && CertifiedTop(s)
    ensures CertifiedTop(InsertGeneric(s, g))
    ensures
      var r := InsertGeneric(s, g);
      r.digestCertified == if Height(g.certified) > Height(s.digestCertified) then g.certified else s.digestCertified
  {
    var r := InsertGeneric(s, g);
    InsertCertifies(s, g);
    HeightOfEntry(r.generics, g.certified);
    HeightOfEntry(r.generics, s.digestCertified);
  }

  lemma InsertLock(s: State, g: Generic)
    requires WellFormed(s) && g.block.parent in s.generics && g.certified in s.generics && Shaped(g)
    ensures g.certified != Sha256(g.block) && EntryOk(s.generics, g.certified)
    ensures
      var d1 := s.generics[g.certified].certified;
      && d1 in s.generics
      && InsertGeneric(s, g).digestLock == if Height(d1) > Height(s.digestLock) then d1 else s.digestLock
  {
    hide CommitBlock, VoteFor;
    DigestIsNotParent(g.block);
    assert EntryOk(s.generics, g.certified);
    InsertedOk(s, g);
    var d1 := s.generics[g.certified].certified;
    var generics := s.generics[Sha256(g.block) := g];
    HeightOfEntry(generics, d1);
    HeightOfEntry(generics, s.digestLock);
    var s2 := VoteFor(s.(generics := generics), g);
    assert InsertGeneric(s, g).digestLock == CertifyAndLock(s2, Sha256(g.block)).digestLock;
  }

  lemma DigestIsNotParent(block: Block)
    ensures Sha256(block) != block.parent
  {
    assert Depth(Sha256(block)) == 1 + Depth(block.parent);
  }

  lemma InsertKeepsShapes(s: State, g: Generic)
    requires WellFormed(s) && g.block.parent in s.generics && g.certified in s.generics && Shapes(s) && Shaped(g)
    ensures Shapes(InsertGeneric(s, g))
    ensures forall d :: d in s.generics ==> InsertGeneric(s, g).generics[d].certified == s.generics[d].certified
  {
    forall d | d in s.generics ensures InsertGeneric(s, g).generics[d].certified == s.generics[d].certified {
      assert EntryOk(s.generics, d);
      InsertedOk(s, g);
    }
  }

  lemma InsertLockTop(generics: Generics, lock: Digest, g: Generic)
    requires GenericsOk(generics) && g.block.parent in generics && g.certified in generics && Shaped(g)
    requires Sha256(g.block) in generics ==> generics[Sha256(g.block)].certified == g.certified
    requires GenericsOk(generics[Sha256(g.block) := g]) && LockTop(generics, lock)
    ensures
      var d1 := generics[g.certified].certified;
      LockTop(generics[Sha256(g.block) := g], if Height(d1) > Height(lock) then d1 else lock)
  {
    hide GenericsOk, Height;
    var d0 := Sha256(g.block);
    var generics' := generics[d0 := g];
    DigestIsNotParent(g.block);
    forall d | d in generics'
      ensures GrandParent(generics', d) == if d == d0 then generics[g.certified].certified else GrandParent(generics, d)
    {
      if d in generics {
        SameGrandParent(generics, generics', d0, d);
      }
    }
    var d1 := generics[g.certified].certified;
    if Height(d1) > Height(lock) {
      assert GrandParent(generics', d0) == d1;
    } else if lock != GENESIS_DIGEST {
      var d :| d in generics && GrandParent(generics, d) == lock;
      SameGrandParent(generics, generics', d0, d);
      assert d in generics' && GrandParent(generics', d) == lock;
    }
  }

  lemma SameGrandParent(generics: Generics, generics': Generics, d0: Digest, d: Digest)
    requires GenericsOk(generics) && GenericsOk(generics') && d in generics
    requires generics'.Keys == generics.Keys + {d0}
    requires forall e :: e in generics ==> generics'[e].certified == generics[e].certified
    ensures d in generics' && GrandParent(generics', d) == GrandParent(generics, d)
  {
    assert EntryOk(generics, d);
  }

  lemma InsertLocks(s: State, g: Generic)
    requires Locks(s) && CertifiedTop(s) && g.block.parent in s.generics && g.certified in s.generics && Shaped(g)
    ensures Locks(InsertGeneric(s, g))
  {
    hide EntryOk, InsertGeneric, Shaped, GenericsOk, LockTop, AllShaped, Height;
    var r := InsertGeneric(s, g);
    InsertKeepsShapes(s, g);
    InsertLock(s, g);
    InsertTop(s, g);
    InsertFields(s, g);
    InsertLockTop(s.generics, s.digestLock, g);
    assert r.generics[Sha256(g.block)].certified == g.certified;
  }

  lemma InsertFields(s: State, g: Generic)
    requires WellFormed(s) && g.block.parent in s.generics && g.certified in s.generics
    ensures
      var r := InsertGeneric(s, g);
      r.generics == s.generics[Sha256(g.block) := g] && r.votes == s.votes && r.n == s.n && r.f == s.f
  {
  }

  // ---------- handling proposals ----------

  lemma SameTops(s: State, r: State)
    requires Tops(s) && r.sentVotes == s.sentVotes && r.viewHeight == s.viewHeight && r.votes == s.votes
    requires r.n == s.n && r.f == s.f && r.generics == s.generics && r.digestCertified == s.digestCertified
    ensures Tops(r)
  {
  }

  lemma {:induction false} ReorderTops(s: State, g: Generic)
    requires WellFormed(s) && Tops(s)
    ensures Tops(Reorder(s, g)) && forall i :: i in Inserts(s, g) ==> Tops(i.before)
    decreases Buffered(s.reordering) + 1, 0, 0
  {
    hide WellFormed, InsertGeneric, Tops;
    if s.status.Panicked? {
    } else if g.block.parent !in s.generics || g.certified !in s.generics {
      SameTops(s, Reorder(s, g));
    } else {
      var inserted, d := InsertGeneric(s, g), Sha256(g.block);
      InsertKeepsTops(s, g);
      if inserted.status.Running? && d in inserted.reordering {
        BufferedWithout(s.reordering, d);
        SameTops(inserted, Released(inserted, d));
        ReorderAllTops(Released(inserted, d), inserted.reordering[d]);
      }
    }
  }

  lemma {:induction false} ReorderAllTops(s: State, gs: seq<Generic>)
    requires WellFormed(s) && Tops(s)
    ensures Tops(ReorderAll(s, gs)) && forall i :: i in InsertsAll(s, gs) ==> Tops(i.before)
    decreases Buffered(s.reordering) + |gs|, 1, |gs|
  {
    hide WellFormed, Tops;
    if gs != [] {
      ReorderTops(s, gs[0]);
      ReorderAllTops(Reorder(s, gs[0]), gs[1..]);
    }
  }

  lemma InsertKeepsTops(s: State, g: Generic)
    requires WellFormed(s) && Tops(s) && g.block.parent in s.generics && g.certified in s.generics
    ensures Tops(InsertGeneric(s, g))
  {
    hide InsertGeneric, WellFormed, VotesBelow, CertifiedTop, Deserves;
    InsertVotesIff(s, g);
    InsertTop(s, g);
  }

  /** Everything that is kept by proposals of the shape `do_propose` gives them. */
  ghost predicate VotingOk(s: State) {
    Tops(s) && Locks(s)
  }

  lemma SameVoting(s: State, r: State)
    requires VotingOk(s) && r.sentVotes == s.sentVotes && r.viewHeight == s.viewHeight && r.votes == s.votes
    requires r.n == s.n && r.f == s.f && r.generics == s.generics && r.digestCertified == s.digestCertified
    requires r.digestLock == s.digestLock && WellFormed(r) && Shapes(r)
    ensures VotingOk(r)
  {
    hide Shapes, EntryOk, Tops, LockTop, Shown;
    SameTops(s, r);
  }

  lemma {:induction false} ReorderVoting(s: State, g: Generic)
    requires VotingOk(s) && Shaped(g)
    ensures WellFormed(s) && VotingOk(Reorder(s, g))
    decreases Buffered(s.reordering) + 1, 0, 0
  {
    hide InsertGeneric, VotingOk, WellFormed, Shapes;
    assert WellFormed(s) && Shapes(s) by { VotingShapes(s); }
    if s.status.Panicked? {
    } else if g.block.parent !in s.generics {
      BufferShaped(s, g.block.parent, g);
      SameVoting(s, Reorder(s, g));
    } else {
      var inserted, d := InsertGeneric(s, g), Sha256(g.block);
      InsertKeepsVoting(s, g);
      if inserted.status.Running? && d in inserted.reordering {
        BufferedWithout(s.reordering, d);
        assert WellFormed(inserted) && Shapes(inserted) by { VotingShapes(inserted); }
        ReleaseShaped(inserted, d);
        SameVoting(inserted, Released(inserted, d));
        ReorderAllVoting(Released(inserted, d), inserted.reordering[d]);
      }
    }
  }

  lemma {:induction false} ReorderAllVoting(s: State, gs: seq<Generic>)
    requires VotingOk(s) && AllShaped(gs)
    ensures WellFormed(s) && VotingOk(ReorderAll(s, gs))
    decreases Buffered(s.reordering) + |gs|, 1, |gs|
  {
    hide VotingOk, WellFormed;
    assert WellFormed(s) && Shapes(s) by { VotingShapes(s); }
    if gs != [] {
      ReorderVoting(s, gs[0]);
      ReorderAllVoting(Reorder(s, gs[0]), gs[1..]);
    }
  }

  lemma VotingShapes(s: State)
    requires VotingOk(s)
    ensures WellFormed(s) && Shapes(s)
  {
  }

  lemma BufferShaped(s: State, d: Digest, g: Generic)
    requires WellFormed(s) && Shapes(s) && Shaped(g)
    ensures
      var r := s.(reordering := Buffer(s.reordering, d, g));
      WellFormed(r) && Shapes(r)
  {
    hide GenericsOk;
    assert d in s.reordering ==> AllShaped(s.reordering[d]);
  }

  lemma ReleaseShaped(s: State, d: Digest)
    requires WellFormed(s) && Shapes(s) && d in s.reordering
    ensures WellFormed(Released(s, d)) && Shapes(Released(s, d)) && AllShaped(s.reordering[d])
  {
    hide WellFormed, AllShaped;
  }

  lemma InsertKeepsVoting(s: State, g: Generic)
    requires VotingOk(s) && g.block.parent in s.generics && g.certified in s.generics && Shaped(g)
    ensures WellFormed(s) && VotingOk(InsertGeneric(s, g))
  {
    hide WellFormed, InsertGeneric, CertifiedTop, VotesBelow, Shapes;
    VotingShapes(s);
    InsertKeepsTops(s, g);
    InsertLocks(s, g);
  }

  // ---------- the other handlers ----------

  lemma VoteKeepsTop(s: State, v: Vote)
    requires WellFormed(s) && Tops(s)
    ensures Tops(HandleVote(s, v))
    ensures Height(s.digestCertified) <= Height(HandleVote(s, v).digestCertified)
  {
    hide GenericsOk, VotesBelow, Height;
    var r := HandleVote(s, v);
    SameVotesBelow(s, r);
    if v.digest in s.generics {
      HeightOf(s, v.digest);
      HeightOf(s, s.digestCertified);
    }
  }

  lemma SameVotesBelow(s: State, r: State)
    requires VotesBelow(s) && r.sentVotes == s.sentVotes && r.viewHeight == s.viewHeight
    ensures VotesBelow(r)
  {
  }

  lemma HeightOf(s: State, d: Digest)
    requires WellFormed(s) && d in s.generics
    ensures BlockHeight(s.generics, d) == Height(d)
  {
    HeightOfEntry(s.generics, d);
  }

  lemma VoteKeepsVoting(s: State, v: Vote)
    requires VotingOk(s) && WellFormed(s)
    ensures VotingOk(HandleVote(s, v))
  {
    hide Tops, LockTop, Shown, Counted, Shaped, AllShaped, WellFormed, HandleVote;
    VoteKeepsTop(s, v);
    VoteFields(s, v);
  }

  lemma VoteFields(s: State, v: Vote)
    requires WellFormed(s)
    ensures
      var r := HandleVote(s, v);
      && WellFormed(r)
      && r == s.(status := r.status, votes := r.votes, digestCertified := r.digestCertified)
      && (Counted(s.n, s.f, s.votes, s.digestCertified) ==> Counted(r.n, r.f, r.votes, s.digestCertified))
      && (r.digestCertified == s.digestCertified || Counted(r.n, r.f, r.votes, r.digestCertified))
  {
    hide GenericsOk;
  }

  lemma RequestKeepsVoting(s: State, request: Request)
    requires VotingOk(s) && WellFormed(s)
    ensures VotingOk(HandleRequest(s, request))
  {
    hide VotingOk, GenericsOk, AllShaped;
    VotingShapes(s);
    SameVoting(s, HandleRequest(s, request));
  }

  lemma PaceKeepsVoting(s: State)
    requires VotingOk(s) && WellFormed(s)
    ensures VotingOk(OnPace(s))
  {
    hide VotingOk, GenericsOk;
    VotingShapes(s);
    OnPaceWellFormed(s);
    SameVoting(s, OnPace(s));
  }

  lemma HandleVoting(s: State, e: Event)
    requires VotingOk(s) && WellFormed(s) && (e.OwnProposalArrives? ==> e.own in s.sentGenerics)
    requires e.ProposalArrives? ==> Shaped(e.proposal)
    ensures VotingOk(Handle(s, e))
  {
    hide VotingOk, WellFormed, InsertGeneric, HandleRequest, HandleVote, OnPace, Reorder;
    match e
    case RequestArrives(request) => RequestKeepsVoting(s, request);
    case ProposalArrives(g) => ReorderVoting(s, g);
    case OwnProposalArrives(g) =>
      if s.status.Running? {
        OwnShaped(s, g);
        InsertKeepsVoting(s, g);
      }
    case VoteArrives(v) => VoteKeepsVoting(s, v);
    case Pace => PaceKeepsVoting(s);
  }

  lemma OwnShaped(s: State, g: Generic)
    requires VotingOk(s) && g in s.sentGenerics
    ensures Shaped(g) && g.block.parent in s.generics && g.certified in s.generics
  {
  }

  lemma InitVoting(c: Config, r: ReplicaIndex)
    requires c.n > c.f
    ensures VotingOk(Init(c.n, c.f, r))
  {
    var s := Init(c.n, c.f, r);
    assert forall d :: d in s.generics ==> d == GENESIS_DIGEST && GrandParent(s.generics, d) == GENESIS_DIGEST;
  }

  // ---------- main theorems ----------

  lemma {:induction false} RunVoting(c: Config, run: seq<System>, r: ReplicaIndex)
    requires ValidConfig(c) && IsRun(c, run) && r in Correct(c)
    ensures r in run[|run| - 1] && VotingOk(run[|run| - 1][r]) && run[|run| - 1][r].index == r
    decreases |run|
  {
    hide VotingOk, Handle, WellFormed;
    RunInv(c, run);
    if |run| == 1 {
      InitVoting(c, r);
    } else {
      RunWithoutLast(c, run);
      var sys, sys' := run[|run| - 2], run[|run| - 1];
      RunVoting(c, run[..|run| - 1], r);
      var q, e :| StepBy(c, sys, sys', q, e);
      if q == r {
        HandleVoting(sys[r], e);
      }
      assert ReplicaInv(c, sys', r, sys'[r]);
    }
  }

  /** The insertions that handling an event makes, in order. */
  ghost function InsertionsBy(s: State, e: Event): (r: seq<Insertion>)
    requires WellFormed(s)
  {
    match e
    case ProposalArrives(g) => Inserts(s, g)
    case OwnProposalArrives(g) => if s.status.Running? && g in s.sentGenerics then [Insertion(s, g)] else []
    case _ => []
  }

  /** In every run with any leader: whatever reaches a replica, each block that it then inserts gets its vote if and only
      if it deserves it by what the replica has voted for and locked by then. */
  lemma VotesExactly(c: Config, run: seq<System>, r: ReplicaIndex, e: Event, i: Insertion)
    requires ValidConfig(c) && IsRun(c, run) && r in Correct(c)
    requires r in run[|run| - 1] && WellFormed(run[|run| - 1][r]) && i in InsertionsBy(run[|run| - 1][r], e)
    ensures i.proposal.block.parent in i.before.generics && i.proposal.certified in i.before.generics
    ensures WellFormed(i.before)
    ensures InsertGeneric(i.before, i.proposal).sentVotes
              == i.before.sentVotes
                 + (if Deserves(i.before, i.proposal) then [Vote(Sha256(i.proposal.block), i.before.index)] else [])
  {
    hide Next, Deserves, VotesBelow;
    RunVoting(c, run, r);
    if e.ProposalArrives? {
      ReorderTops(run[|run| - 1][r], e.proposal);
    }
    assert CanInsert(i);
    InsertVotesIff(i.before, i.proposal);
  }

  /** In every run: the certified digest is the highest for which there is proof, and the lock the highest two blocks
      back from an inserted one. */
  lemma CertifiesAndLocksHighest(c: Config, run: seq<System>, r: ReplicaIndex)
    requires ValidConfig(c) && IsRun(c, run) && r in Correct(c)
    ensures r in run[|run| - 1]
    ensures CertifiedTop(run[|run| - 1][r]) && Locks(run[|run| - 1][r])
  {
    RunVoting(c, run, r);
  }
}
