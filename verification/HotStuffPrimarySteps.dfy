/** Runs of HotStuff with a correct primary, in which proposals may be repeated and faulty replicas may
    propose, and the invariant that a run keeps while every proposal taken passes a guard.

    Exactly the first k proposals are inserted at a replica, the others it has received wait under
    the digest of their parent, and the first k - 3 blocks are executed. */
module HotStuffPrimarySteps {
  import opened Blocks
  import opened Quorums
  import opened Chains
  import opened HotStuff
  import opened HotStuffRuns

  ghost function BlocksOf(gs: seq<Generic>): (blocks: seq<Block>)
    ensures |blocks| == |gs| && forall i :: 0 <= i < |gs| ==> blocks[i] == gs[i].block
  {
    seq(|gs|, i requires 0 <= i < |gs| => gs[i].block)
  }

  ghost predicate ShapeAt(gs: seq<Generic>, i: nat)
    requires i < |gs|
  {
    gs[i].certified == gs[i].block.parent && gs[i].block.height == i + 1 && gs[i].replica == PRIMARY
  }

  /** The proposals are the blocks 1, 2, 3, ... of one chain. */
  ghost predicate OneChain(gs: seq<Generic>) {
    Linked(BlocksOf(gs)) && forall i: nat :: i < |gs| ==> ShapeAt(gs, i)
  }

  ghost predicate EntryAt(s: State, gs: seq<Generic>, j: nat)
    requires j <= |gs|
  {
    var d := DigestAt(BlocksOf(gs), j);
    d in s.generics && (j > 0 ==> s.generics[d] == gs[j - 1])
  }

  ghost predicate OnPath(gs: seq<Generic>, d: Digest, k: nat) {
    exists j: nat :: j <= k && IsNumber(gs, d, j)
  }

  ghost predicate IsNumber(gs: seq<Generic>, d: Digest, j: nat) {
    j <= |gs| && d == DigestAt(BlocksOf(gs), j)
  }

  ghost predicate WaitsAt(s: State, gs: seq<Generic>, j: nat)
    requires j < |gs|
  {
    var d := DigestAt(BlocksOf(gs), j);
    d in s.reordering && s.reordering[d] == [gs[j]]
  }

  ghost predicate WaitsUnder(gs: seq<Generic>, d: Digest, waiting: set<nat>) {
    exists j: nat :: IsNumber(gs, d, j) && j in waiting
  }

  /** Exactly the first k proposals are inserted. */
  ghost predicate Entries(s: State, gs: seq<Generic>, k: nat) {
    && k <= |gs|
    && (forall j: nat {:trigger EntryAt(s, gs, j)} :: j <= k ==> EntryAt(s, gs, j))
    && (forall d :: d in s.generics ==> OnPath(gs, d, k))
  }

  /** Exactly the first k proposals are inserted, and exactly those in `waiting` are buffered. */
  ghost predicate Holds(s: State, gs: seq<Generic>, k: nat, waiting: set<nat>) {
    && Entries(s, gs, k)
    && (forall j: nat :: j in waiting ==> k < j < |gs|)
    && (forall j: nat {:trigger WaitsAt(s, gs, j)} :: j in waiting ==> WaitsAt(s, gs, j))
    && (forall d :: d in s.reordering ==> WaitsUnder(gs, d, waiting))
  }

  /** What a replica that inserted k proposals has executed. */
  ghost predicate ExecutedBehind(s: State, gs: seq<Generic>, k: nat) {
    && k <= |gs|
    && s.executed == BlocksOf(gs)[..Behind(k)]
    && (s.status.Running? ==> s.chain.digestExecute == DigestAt(BlocksOf(gs), Behind(k)))
    && OnlyVotesStop(s)
  }

  ghost predicate VotedAt(s: State, gs: seq<Generic>, j: nat)
    requires j < |gs| && j < |s.sentVotes|
  {
    s.sentVotes[j] == Vote(Sha256(gs[j].block), s.index)
  }

  /** A replica that inserted k proposals has voted for each of their blocks, once and in order, and for no other. */
  ghost predicate VotedUpTo(s: State, gs: seq<Generic>, k: nat) {
    && k <= |gs| && s.viewHeight == k && |s.sentVotes| == k
    && forall j: nat {:trigger VotedAt(s, gs, j)} :: j < k ==> VotedAt(s, gs, j)
  }

  /** Of all assertions only the one on votes for unknown blocks can have stopped the replica. */
  ghost predicate OnlyVotesStop(s: State) {
    s.status.Panicked? ==> s.status.why == UnknownVotedBlock
  }

  ghost function Behind(k: nat): nat {
    if k < 3 then 0 else k - 3
  }

  /** A correct replica has inserted the first k proposals for some k, voted for each of their blocks, once and in
      order, and executed the first k - 3 of them (none while k < 4). */
  ghost predicate ThreeBehind(s: State, gs: seq<Generic>) {
    exists k: nat :: Entries(s, gs, k) && VotedUpTo(s, gs, k) && s.executed == BlocksOf(gs)[..Behind(k)]
  }

  // ---------- one insertion ----------

  lemma NumbersDiffer(gs: seq<Generic>, i: nat, j: nat)
    requires OneChain(gs) && i <= |gs| && j <= |gs| && i != j
    ensures DigestAt(BlocksOf(gs), i) != DigestAt(BlocksOf(gs), j)
  {
    PositionsDiffer(BlocksOf(gs), i, j);
  }

  ghost function Before(j: nat): nat {
    if j == 0 then 0 else j - 1
  }

  lemma StepBack(s: State, gs: seq<Generic>, k: nat, j: nat)
    requires WellFormed(s) && OneChain(gs) && Entries(s, gs, k) && j <= k
    ensures
      var d := DigestAt(BlocksOf(gs), j);
      && d in s.generics && s.generics[d].block.height == j
      && s.generics[d].certified == s.generics[d].block.parent == DigestAt(BlocksOf(gs), Before(j))
      && (j > 0 ==> s.generics[d] == gs[j - 1])
  {
    assert EntryAt(s, gs, j);
    if j == 0 {
      assert EntryOk(s.generics, GENESIS_DIGEST);
    } else {
      assert ShapeAt(gs, j - 1) && LinkAt(BlocksOf(gs), j - 1);
    }
  }

  /** Three certified digests behind block j is block j - 3. */
  lemma TargetBehind(s: State, gs: seq<Generic>, k: nat, j: nat)
    requires WellFormed(s) && OneChain(gs) && Entries(s, gs, k) && j <= k
    ensures
      var d := DigestAt(BlocksOf(gs), j);
      && d in s.generics
      && CommitTarget(s.generics, d) == (if j < 4 then None else Some(DigestAt(BlocksOf(gs), j - 3)))
      && (j >= 4 ==> s.generics[DigestAt(BlocksOf(gs), j - 3)].block == BlocksOf(gs)[j - 4])
  {
    var j1 := Before(j);
    var j2 := Before(j1);
    var j3 := Before(j2);
    StepBack(s, gs, k, j);
    StepBack(s, gs, k, j1);
    StepBack(s, gs, k, j2);
    StepBack(s, gs, k, j3);
    if j >= 4 {
      NumbersDiffer(gs, 0, j3);
    }
  }

  lemma NextEntries(s: State, gs: seq<Generic>, k: nat)
    requires WellFormed(s) && OneChain(gs) && Entries(s, gs, k) && k < |gs|
    ensures gs[k].block.parent in s.generics && gs[k].certified in s.generics
    ensures
      var s' := s.(generics := s.generics[Sha256(gs[k].block) := gs[k]]);
      Entries(s', gs, k + 1)
  {
    hide WellFormed;
    assert EntryAt(s, gs, k) && ShapeAt(gs, k) && LinkAt(BlocksOf(gs), k);
    var s' := s.(generics := s.generics[Sha256(gs[k].block) := gs[k]]);
    var d' := DigestAt(BlocksOf(gs), k + 1);
    forall j: nat | j <= k + 1 ensures EntryAt(s', gs, j) {
      if j <= k {
        assert EntryAt(s, gs, j);
        NumbersDiffer(gs, j, k + 1);
      }
    }
    forall d | d in s'.generics ensures OnPath(gs, d, k + 1) {
      if d in s.generics {
        var j: nat :| j <= k && IsNumber(gs, d, j);
      } else {
        assert IsNumber(gs, d, k + 1);
      }
    }
  }

  /** What `do_update` executes: its target if that is next, or nothing without a target; a target that is
      not next stops the replica. */
  lemma UpdateExecutes(s: State, d: Digest)
    requires WellFormed(s) && d in s.generics && s.status.Running?
    ensures
      var s', target := Update(s, d), CommitTarget(s.generics, d);
      && (target.None? ==> s'.executed == s.executed && s'.status == s.status && s'.chain == s.chain)
      && (target.Some? && s.generics[target.value].block.parent == s.chain.digestExecute ==>
            && s'.executed == s.executed + [s.generics[target.value].block] && s'.status.Running?
            && s'.chain.digestExecute == Sha256(s.generics[target.value].block))
      && (target.Some? && s.generics[target.value].block.parent != s.chain.digestExecute ==>
            s'.executed == s.executed && s'.status == Panicked(NotExecutable))
  {
    hide GenericsOk;
  }

  /** Inserting block k + 1 executes block k - 2, if there is one, and nothing else. */
  lemma ExecutesThreeBehind(s: State, gs: seq<Generic>, k: nat)
    requires WellFormed(s) && OneChain(gs) && Entries(s, gs, k) && k > 0
    requires s.status.Running? && ExecutedBehind(s, gs, k - 1)
    ensures DigestAt(BlocksOf(gs), k) in s.generics
    ensures
      var s' := Update(s, DigestAt(BlocksOf(gs), k));
      s'.status.Running? && ExecutedBehind(s', gs, k)
  {
    hide EntryAt, OnPath, ShapeAt, WellFormed, Update;
    TargetBehind(s, gs, k, k);
    UpdateExecutes(s, DigestAt(BlocksOf(gs), k));
    var blocks := BlocksOf(gs);
    if k >= 4 {
      assert LinkAt(blocks, k - 4);
      assert blocks[..k - 3] == blocks[..k - 4] + [blocks[k - 4]];
    }
  }

  lemma InsertNext(s: State, gs: seq<Generic>, k: nat, waiting: set<nat>)
    requires WellFormed(s) && OneChain(gs) && Holds(s, gs, k, waiting) && k < |gs|
    requires s.status.Running? && ExecutedBehind(s, gs, k)
    ensures gs[k].block.parent in s.generics && gs[k].certified in s.generics
    ensures
      var s' := Released(InsertGeneric(s, gs[k]), Sha256(gs[k].block));
      && WellFormed(s') && s'.status.Running? && ExecutedBehind(s', gs, k + 1)
      && Holds(s', gs, k + 1, waiting - {k + 1})
    ensures Sha256(gs[k].block) in s.reordering <==> k + 1 in waiting
    ensures k + 1 in waiting ==> s.reordering[Sha256(gs[k].block)] == [gs[k + 1]]
  {
    BucketOf(s, gs, k, waiting, k + 1);
    NextEntries(s, gs, k);
    InsertedOk(s, gs[k]);
    var d := Sha256(gs[k].block);
    assert d == DigestAt(BlocksOf(gs), k + 1);
    var s1 := s.(generics := s.generics[d := gs[k]]);
    var s2 := VoteFor(s1, gs[k]);
    var s3 := Update(s2, d);
    ReleaseHolds(s, gs, k, waiting);
    var s0 := Released(s1, d);
    EntriesSame(s0, s2, gs, k + 1);
    ExecutesThreeBehind(s2, gs, k + 1);
    HoldsSame(s0, Released(s3, d), gs, k + 1, waiting - {k + 1});
  }

  /** Inserting one of the first k proposals again executes nothing, and stops the replica exactly when it is
      block 4 or a later one: its target has been executed already. */
  lemma InsertAgain(s: State, gs: seq<Generic>, k: nat, j: nat)
    requires WellFormed(s) && OneChain(gs) && Entries(s, gs, k) && ExecutedBehind(s, gs, k)
    requires s.status.Running? && j < k
    ensures gs[j].block.parent in s.generics && gs[j].certified in s.generics
    ensures
      var s' := InsertGeneric(s, gs[j]);
      && s'.generics == s.generics && s'.executed == s.executed
      && (j < 3 ==> s'.status.Running? && s'.chain == s.chain)
      && (j >= 3 ==> s'.status == Panicked(NotExecutable))
  {
    hide GenericsOk, OneChain, OnPath;
    var g, d := gs[j], DigestAt(BlocksOf(gs), j + 1);
    StepBack(s, gs, k, j + 1);
    StepBack(s, gs, k, j);
    InsertedOk(s, g);
    assert s.generics[d := g] == s.generics;
    var s1 := s.(generics := s.generics[d := g]);
    var s2 := VoteFor(s1, g);
    TargetBehind(s, gs, k, j + 1);
    UpdateExecutes(s2, d);
    if j >= 3 {
      NotNext(gs, k, j);
    }
  }

  lemma {:induction false} ChainReaches(blocks: seq<Block>, i: nat, j: nat)
    requires Linked(blocks) && i <= j <= |blocks|
    ensures Reaches(DigestAt(blocks, j), DigestAt(blocks, i))
    decreases j
  {
    if i < j {
      assert LinkAt(blocks, j - 1);
      ChainReaches(blocks, i, j - 1);
    }
  }

  /** What inserting a proposal does to votes: only the vote rule counts. */
  lemma VotesOfInsert(s: State, g: Generic)
    requires WellFormed(s) && g.block.parent in s.generics && g.certified in s.generics
    ensures
      var s', highest := InsertGeneric(s, g), BlockHeight(s.generics, s.digestLock);
      var onLock := Reaches(g.block.parent, s.digestLock);
      var votes := g.block.height > s.viewHeight && (onLock || BlockHeight(s.generics[Sha256(g.block) := g], g.certified) > highest);
      && s'.viewHeight == (if votes then g.block.height else s.viewHeight)
      && s'.sentVotes == s.sentVotes + (if votes then [Vote(Sha256(g.block), s.index)] else [])
  {
    hide GenericsOk, Update;
    InsertedOk(s, g);
    var s1 := s.(generics := s.generics[Sha256(g.block) := g]);
    LockedHeight(s, g);
    assert InsertGeneric(s, g).sentVotes == VoteFor(s1, g).sentVotes;
  }

  lemma LockedHeight(s: State, g: Generic)
    requires WellFormed(s) && g.block.parent in s.generics && g.certified in s.generics
    ensures BlockHeight(s.generics[Sha256(g.block) := g], s.digestLock) == BlockHeight(s.generics, s.digestLock)
  {
    assert EntryOk(s.generics, s.digestLock);
    InsertedOk(s, g);
  }

  /** The next proposal always gets a vote: the lock is one of its ancestors. */
  lemma VotesNext(s: State, gs: seq<Generic>, k: nat)
    requires WellFormed(s) && OneChain(gs) && Entries(s, gs, k) && VotedUpTo(s, gs, k) && k < |gs|
    ensures gs[k].block.parent in s.generics && gs[k].certified in s.generics
    ensures VotedUpTo(InsertGeneric(s, gs[k]), gs, k + 1)
  {
    hide WellFormed, Entries;
    NextEntries(s, gs, k);
    VotesOfInsert(s, gs[k]);
    assert s.digestLock in s.generics by { LockIsKnown(s); }
    var l := NumberOf(s, gs, k, s.digestLock);
    assert ShapeAt(gs, k) && LinkAt(BlocksOf(gs), k);
    ChainReaches(BlocksOf(gs), l, k);
    var s' := InsertGeneric(s, gs[k]);
    forall j: nat | j < k + 1 ensures VotedAt(s', gs, j) {
      assert j < k ==> VotedAt(s, gs, j);
    }
  }

  lemma LockIsKnown(s: State)
    requires WellFormed(s)
    ensures s.digestLock in s.generics
  {
  }

  /** One of the first k proposals gets no second vote. */
  lemma VotesAgain(s: State, gs: seq<Generic>, k: nat, j: nat)
    requires WellFormed(s) && OneChain(gs) && Entries(s, gs, k) && VotedUpTo(s, gs, k) && j < k
    ensures gs[j].block.parent in s.generics && gs[j].certified in s.generics
    ensures VotedUpTo(InsertGeneric(s, gs[j]), gs, k)
  {
    hide WellFormed, Entries;
    StepBack(s, gs, k, j + 1);
    StepBack(s, gs, k, j);
    VotesOfInsert(s, gs[j]);
    assert ShapeAt(gs, j);
    SameVotes(s, InsertGeneric(s, gs[j]), gs, k);
  }

  lemma SameVotes(s: State, s': State, gs: seq<Generic>, k: nat)
    requires VotedUpTo(s, gs, k)
    requires s'.viewHeight == s.viewHeight && s'.sentVotes == s.sentVotes && s'.index == s.index
    ensures VotedUpTo(s', gs, k)
  {
    forall j: nat | j < k ensures VotedAt(s', gs, j) {
      assert VotedAt(s, gs, j);
    }
  }

  lemma VotesMore(s: State, gs: seq<Generic>, gs': seq<Generic>, k: nat)
    requires VotedUpTo(s, gs, k) && gs <= gs'
    ensures VotedUpTo(s, gs', k)
  {
    forall j: nat | j < k ensures VotedAt(s, gs', j) {
      assert VotedAt(s, gs, j);
    }
  }

  lemma NotNext(gs: seq<Generic>, k: nat, j: nat)
    requires OneChain(gs) && 3 <= j < k <= |gs|
    ensures BlocksOf(gs)[j - 3].parent != DigestAt(BlocksOf(gs), Behind(k))
  {
    assert LinkAt(BlocksOf(gs), j - 3);
    NumbersDiffer(gs, j - 3, k - 3);
  }

  lemma EntriesSame(s: State, s': State, gs: seq<Generic>, k: nat)
    requires Entries(s, gs, k) && s'.generics == s.generics
    ensures Entries(s', gs, k)
  {
    forall j: nat | j <= k ensures EntryAt(s', gs, j) {
      assert EntryAt(s, gs, j);
    }
  }

  lemma HoldsSame(s: State, s': State, gs: seq<Generic>, k: nat, waiting: set<nat>)
    requires Holds(s, gs, k, waiting) && s'.generics == s.generics && s'.reordering == s.reordering
    ensures Holds(s', gs, k, waiting)
  {
    EntriesSame(s, s', gs, k);
    forall j: nat | j in waiting ensures WaitsAt(s', gs, j) {
      assert WaitsAt(s, gs, j);
    }
  }

  /** The bucket of a block holds its child exactly when the child is waiting. */
  lemma BucketOf(s: State, gs: seq<Generic>, k: nat, waiting: set<nat>, j: nat)
    requires OneChain(gs) && Holds(s, gs, k, waiting) && j <= |gs|
    ensures DigestAt(BlocksOf(gs), j) in s.reordering <==> j in waiting
    ensures j in waiting ==> s.reordering[DigestAt(BlocksOf(gs), j)] == [gs[j]]
  {
    if j in waiting {
      assert WaitsAt(s, gs, j);
    }
    if DigestAt(BlocksOf(gs), j) in s.reordering {
      var i: nat :| IsNumber(gs, DigestAt(BlocksOf(gs), j), i) && i in waiting;
      if i != j {
        NumbersDiffer(gs, i, j);
      }
    }
  }

  lemma ReleaseHolds(s: State, gs: seq<Generic>, k: nat, waiting: set<nat>)
    requires WellFormed(s) && OneChain(gs) && Holds(s, gs, k, waiting) && k < |gs|
    ensures
      var d := Sha256(gs[k].block);
      Holds(Released(s.(generics := s.generics[d := gs[k]]), d), gs, k + 1, waiting - {k + 1})
  {
    NextEntries(s, gs, k);
    var d := Sha256(gs[k].block);
    var s1 := s.(generics := s.generics[d := gs[k]]);
    var s' := Released(s1, d);
    EntriesSame(s1, s', gs, k + 1);
    ReleaseWaits(s, s', gs, k, waiting);
    var rest := waiting - {k + 1};
    assert forall j: nat :: j in rest ==> k + 1 < j < |gs|;
  }

  lemma ReleaseWaits(s: State, s': State, gs: seq<Generic>, k: nat, waiting: set<nat>)
    requires OneChain(gs) && Holds(s, gs, k, waiting) && k < |gs|
    requires s'.reordering == s.reordering - {Sha256(gs[k].block)}
    ensures forall j: nat {:trigger WaitsAt(s', gs, j)} :: j in waiting - {k + 1} ==> WaitsAt(s', gs, j)
    ensures forall e :: e in s'.reordering ==> WaitsUnder(gs, e, waiting - {k + 1})
  {
    forall j: nat | j in waiting - {k + 1} ensures WaitsAt(s', gs, j) {
      assert WaitsAt(s, gs, j);
      NumbersDiffer(gs, j, k + 1);
    }
    forall e | e in s'.reordering ensures WaitsUnder(gs, e, waiting - {k + 1}) {
      var j: nat :| IsNumber(gs, e, j) && j in waiting;
    }
  }

  // ---------- one delivery ----------

  /** The proposals taken in: the first k and those in `waiting`. */
  ghost function TakenIn(k: nat, waiting: set<nat>): set<nat> {
    Replicas(k) + waiting
  }

  /** Delivering the next proposal inserts it and whatever waited right behind it. */
  lemma {:induction false} ReorderAtTip(s: State, gs: seq<Generic>, k: nat, waiting: set<nat>)
    returns (k': nat, waiting': set<nat>)
    requires WellFormed(s) && OneChain(gs) && Holds(s, gs, k, waiting) && ExecutedBehind(s, gs, k)
    requires s.status.Running? && k < |gs| && VotedUpTo(s, gs, k)
    ensures
      var s' := Reorder(s, gs[k]);
      s'.status.Running? && ExecutedBehind(s', gs, k') && Holds(s', gs, k', waiting') && VotedUpTo(s', gs, k')
    ensures k < k' && TakenIn(k', waiting') == TakenIn(k, waiting) + {k}
    decreases |gs| - k
  {
    var s1 := ReorderNext(s, gs, k, waiting);
    TakenInNext(k, waiting);
    if k + 1 in waiting {
      k', waiting' := ReorderAtTip(s1, gs, k + 1, waiting - {k + 1});
    } else {
      k', waiting' := k + 1, waiting - {k + 1};
    }
  }

  lemma TakenInNext(k: nat, waiting: set<nat>)
    ensures k + 1 in waiting ==> TakenIn(k + 1, waiting - {k + 1}) + {k + 1} == TakenIn(k, waiting) + {k}
    ensures k + 1 !in waiting ==> TakenIn(k + 1, waiting - {k + 1}) == TakenIn(k, waiting) + {k}
  {
  }

  /** Delivering a proposal that is neither inserted nor waiting: nothing is lost or repeated, and
      what is inserted is again a first stretch of the chain, executed three behind. */
  lemma ReorderHolds(s: State, gs: seq<Generic>, k: nat, waiting: set<nat>, j: nat)
    returns (k': nat, waiting': set<nat>)
    requires WellFormed(s) && OneChain(gs) && Holds(s, gs, k, waiting) && ExecutedBehind(s, gs, k)
    requires s.status.Running? && k <= j < |gs| && j !in waiting && VotedUpTo(s, gs, k)
    ensures
      var s' := Reorder(s, gs[j]);
      s'.status.Running? && ExecutedBehind(s', gs, k') && Holds(s', gs, k', waiting') && VotedUpTo(s', gs, k')
    ensures k <= k' && TakenIn(k', waiting') == TakenIn(k, waiting) + {j}
  {
    if j == k {
      k', waiting' := ReorderAtTip(s, gs, k, waiting);
    } else {
      k', waiting' := k, waiting + {j};
      BufferHolds(s, gs, k, waiting, j);
      SameVotes(s, Reorder(s, gs[j]), gs, k);
    }
  }

  lemma ReorderNext(s: State, gs: seq<Generic>, k: nat, waiting: set<nat>) returns (s1: State)
    requires WellFormed(s) && OneChain(gs) && Holds(s, gs, k, waiting) && ExecutedBehind(s, gs, k)
    requires s.status.Running? && k < |gs| && VotedUpTo(s, gs, k)
    ensures WellFormed(s1) && s1.status.Running? && ExecutedBehind(s1, gs, k + 1) && VotedUpTo(s1, gs, k + 1)
    ensures Holds(s1, gs, k + 1, waiting - {k + 1})
    ensures Reorder(s, gs[k]) == if k + 1 in waiting then Reorder(s1, gs[k + 1]) else s1
  {
    hide WellFormed, OneChain, Holds, ExecutedBehind, VotedUpTo;
    InsertNext(s, gs, k, waiting);
    assert Entries(s, gs, k) by { HoldsEntries(s, gs, k, waiting); }
    VotesNext(s, gs, k);
    s1 := Released(InsertGeneric(s, gs[k]), Sha256(gs[k].block));
    SameVotes(InsertGeneric(s, gs[k]), s1, gs, k + 1);
    ReorderInserts(s, gs[k]);
    if k + 1 !in waiting {
      assert s.reordering - {Sha256(gs[k].block)} == s.reordering;
    }
  }

  lemma HoldsEntries(s: State, gs: seq<Generic>, k: nat, waiting: set<nat>)
    requires Holds(s, gs, k, waiting)
    ensures Entries(s, gs, k)
  {
  }

  lemma BufferHolds(s: State, gs: seq<Generic>, k: nat, waiting: set<nat>, j: nat)
    requires WellFormed(s) && OneChain(gs) && Holds(s, gs, k, waiting)
    requires s.status.Running? && k < j < |gs| && j !in waiting
    ensures Reorder(s, gs[j]) == s.(reordering := Buffer(s.reordering, gs[j].block.parent, gs[j]))
    ensures Holds(Reorder(s, gs[j]), gs, k, waiting + {j})
  {
    assert ShapeAt(gs, j) && LinkAt(BlocksOf(gs), j);
    var d := gs[j].block.parent;
    if d in s.generics {
      var i: nat :| i <= k && IsNumber(gs, d, i);
      NumbersDiffer(gs, i, j);
      assert false;
    }
    BucketOf(s, gs, k, waiting, j);
    var s' := s.(reordering := Buffer(s.reordering, d, gs[j]));
    EntriesSame(s, s', gs, k);
    forall i: nat | i in waiting + {j} ensures WaitsAt(s', gs, i) {
      if i != j {
        assert WaitsAt(s, gs, i);
        NumbersDiffer(gs, i, j);
      }
    }
    forall e | e in s'.reordering ensures WaitsUnder(gs, e, waiting + {j}) {
      if e in s.reordering {
        var i: nat :| IsNumber(gs, e, i) && i in waiting;
      } else {
        assert IsNumber(gs, e, j);
      }
    }
  }

  // ---------- repeated deliveries ----------

  /** A proposal that is inserted comes again. */
  lemma ReorderAgain(s: State, gs: seq<Generic>, k: nat, waiting: set<nat>, j: nat)
    requires WellFormed(s) && OneChain(gs) && Holds(s, gs, k, waiting) && ExecutedBehind(s, gs, k)
    requires s.status.Running? && j < k
    ensures gs[j].block.parent in s.generics && gs[j].certified in s.generics
    ensures Reorder(s, gs[j]) == InsertGeneric(s, gs[j])
  {
    hide WellFormed, OneChain, Entries;
    InsertAgain(s, gs, k, j);
    BucketOf(s, gs, k, waiting, j + 1);
  }

  /** The replica has this proposal of the primary, inserted or waiting for its parent. */
  ghost predicate Held(s: State, g: Generic) {
    Sha256(g.block) in s.generics || (g.block.parent in s.reordering && g in s.reordering[g.block.parent])
  }

  /** The guard that is not in the code: take only proposals of the primary, and again only those of the
      first three blocks once they are inserted. */
  ghost predicate MayTake(s: State, g: Generic) {
    && g.replica == PRIMARY
    && (!Held(s, g) || (Sha256(g.block) in s.generics && g.block.height <= 3))
  }

  /** Proposal number j is held exactly when it has been delivered. */
  lemma HeldIsTaken(s: State, gs: seq<Generic>, k: nat, waiting: set<nat>, j: nat)
    requires OneChain(gs) && Holds(s, gs, k, waiting) && j < |gs|
    ensures Held(s, gs[j]) <==> j in TakenIn(k, waiting)
    ensures Sha256(gs[j].block) in s.generics <==> j < k
  {
    assert ShapeAt(gs, j) && LinkAt(BlocksOf(gs), j);
    if j < k {
      assert EntryAt(s, gs, j + 1);
    } else if Sha256(gs[j].block) in s.generics {
      var i := NumberOf(s, gs, k, DigestAt(BlocksOf(gs), j + 1));
      NumbersDiffer(gs, i, j + 1);
      assert false;
    }
    BucketOf(s, gs, k, waiting, j);
  }

  // ---------- runs ----------

  /** The correct replicas, for each the (zero-based) numbers of the primary's proposals delivered to it,
      and the requests queued at the primary so far, in order. */
  datatype Setup = Setup(
    replicas: map<ReplicaIndex, State>,
    delivered: map<ReplicaIndex, set<nat>>,
    queued: seq<Request>)

  /** `TakeProposal` hands over a proposal of the primary that comes over the network, to the primary too if it
      is replayed; `TakeOwn` is the primary's own one coming back; `TakeOther` is one signed by a faulty replica. */
  datatype Action =
    | TakeRequest(request: Request)
    | TakeVote(vote: Vote)
    | TakeProposal(number: nat)
    | TakeOwn(number: nat)
    | TakeOther(proposal: Generic)
    | Tick

  /** A vote that its receiver accepts: votes of correct replicas are genuine. */
  ghost predicate ShownBy(c: Config, sys: System, v: Vote) {
    v.replica in Replicas(c.n) && (v.replica !in c.faulty ==> Voted(sys, v.replica, v.digest))
  }

  ghost function Proposals(u: Setup): seq<Generic>
    requires PRIMARY in u.replicas
  {
    u.replicas[PRIMARY].sentGenerics
  }

  ghost predicate Possible(c: Config, u: Setup, r: ReplicaIndex, a: Action)
    requires PRIMARY in u.replicas && r in u.replicas && r in u.delivered
  {
    match a
    case TakeVote(v) => ShownBy(c, u.replicas, v)
    case TakeProposal(j) => j < |Proposals(u)|
    case TakeOwn(j) => r == PRIMARY && j < |Proposals(u)|
    case TakeOther(g) => g.replica in c.faulty && forall v :: v in g.certificate ==> ShownBy(c, u.replicas, v)
    case _ => true
  }

  ghost function Act(s: State, a: Action, gs: seq<Generic>): State
    requires WellFormed(s)
    requires a.TakeProposal? || a.TakeOwn? ==> a.number < |gs|
    requires a.TakeOwn? ==> gs[a.number] in s.sentGenerics
  {
    match a
    case TakeRequest(request) => HandleRequest(s, request)
    case TakeVote(v) => HandleVote(s, v)
    case TakeProposal(j) => Reorder(s, gs[j])
    case TakeOwn(j) => HandleLoopback(s, gs[j])
    case TakeOther(g) => Reorder(s, g)
    case Tick => OnPace(s)
  }

  /** The number is not above the last one recorded for the client. */
  ghost predicate SeenNumber(s: State, request: Request) {
    request.client in s.replies && s.replies[request.client].0 >= request.num
  }

  /** What the primary queues of a request: nothing when it has seen the number. */
  ghost function QueuedBy(r: ReplicaIndex, s: State, a: Action): seq<Request> {
    if a.TakeRequest? && r == PRIMARY && !SeenNumber(s, a.request) then [a.request] else []
  }

  /** The number of the primary's proposal that is handed over, if one is. */
  ghost function NumberIn(a: Action): set<nat> {
    if a.TakeProposal? || a.TakeOwn? then {a.number} else {}
  }

  /** A running replica takes a step; a replica that stopped takes none. */
  ghost predicate ActionBy(c: Config, u: Setup, u': Setup, r: ReplicaIndex, a: Action) {
    && PRIMARY in u.replicas && r in u.replicas && r in u.delivered
    && WellFormed(u.replicas[r]) && u.replicas[r].status.Running? && u.replicas[r].index == r
    && Possible(c, u, r, a)
    && u'.replicas == u.replicas[r := Act(u.replicas[r], a, Proposals(u))]
    && u'.delivered == (if NumberIn(a) == {} then u.delivered else u.delivered[r := u.delivered[r] + NumberIn(a)])
    && u'.queued == u.queued + QueuedBy(r, u.replicas[r], a)
  }

  type Move = (ReplicaIndex, Action)

  ghost function Start(c: Config): Setup {
    Setup(map r | r in Correct(c) :: Init(c.n, c.f, r), map r | r in Correct(c) :: {}, [])
  }

  ghost predicate MoveAt(c: Config, history: seq<Setup>, moves: seq<Move>, i: nat)
    requires |history| == |moves| + 1 && i < |moves|
  {
    ActionBy(c, history[i], history[i + 1], moves[i].0, moves[i].1)
  }

  /** The setups that the moves lead through. */
  ghost predicate IsHistory(c: Config, history: seq<Setup>, moves: seq<Move>) {
    && |history| == |moves| + 1
    && history[0] == Start(c)
    && forall i: nat :: i < |moves| ==> MoveAt(c, history, moves, i)
  }

  /** The proposal that is taken, if one is, passes the guard. */
  ghost predicate Guarded(u: Setup, m: Move) {
    && PRIMARY in u.replicas && m.0 in u.replicas
    && match m.1
       case TakeProposal(j) => j < |Proposals(u)| && MayTake(u.replicas[m.0], Proposals(u)[j])
       case TakeOwn(j) => j < |Proposals(u)| && MayTake(u.replicas[m.0], Proposals(u)[j])
       case TakeOther(g) => MayTake(u.replicas[m.0], g)
       case _ => true
  }

  ghost predicate AllGuarded(history: seq<Setup>, moves: seq<Move>)
    requires |history| == |moves| + 1
  {
    forall i {:trigger moves[i]} :: 0 <= i < |moves| ==> Guarded(history[i], moves[i])
  }

  // ---------- the invariant ----------

  /** n - f votes, all for the parent: as a vote names its sender, from n - f replicas. */
  ghost predicate CertificateAt(c: Config, gs: seq<Generic>, i: nat)
    requires i < |gs|
  {
    i > 0 ==> |gs[i].certificate| == c.n - c.f && forall v :: v in gs[i].certificate ==> v.digest == gs[i].certified
  }

  ghost predicate VoteSetOk(s: State, d: Digest)
    requires d in s.votes
  {
    && d in s.generics
    && |s.votes[d]| <= s.n - s.f
    && forall r :: r in s.votes[d] ==> s.votes[d][r] == Vote(d, r)
  }

  ghost predicate VoteSetsOk(s: State) {
    GENESIS_DIGEST in s.votes && forall d {:trigger VoteSetOk(s, d)} :: d in s.votes ==> VoteSetOk(s, d)
  }

  ghost predicate ReplicaAt(
      c: Config, r: ReplicaIndex, s: State, gs: seq<Generic>, taken: set<nat>, k: nat, waiting: set<nat>)
  {
    && s.index == r && s.n == c.n && s.f == c.f && WellFormed(s)
    && Holds(s, gs, k, waiting) && ExecutedBehind(s, gs, k) && VotedUpTo(s, gs, k)
    && TakenIn(k, waiting) == taken
    && VoteSetsOk(s)
    && (r == PRIMARY ==> waiting == {})
    && (r != PRIMARY ==> s.sentGenerics == [])
  }

  ghost predicate ReplicaFits(c: Config, r: ReplicaIndex, s: State, gs: seq<Generic>, taken: set<nat>) {
    exists k, waiting :: ReplicaAt(c, r, s, gs, taken, k, waiting)
  }

  /** The highest certified block is the last proposal or the one before it. */
  ghost predicate PrimaryAt(s: State, gs: seq<Generic>, j: nat) {
    && j <= |gs| <= j + 1
    && s.chain.height == |gs| && s.proposeHeight == |gs|
    && s.digestCertified == DigestAt(BlocksOf(gs), j)
    && (j > 0 ==> s.digestCertified in s.votes && |s.votes[s.digestCertified]| == s.n - s.f)
  }

  ghost predicate ProposalsOk(c: Config, gs: seq<Generic>) {
    OneChain(gs) && forall i: nat :: i < |gs| ==> CertificateAt(c, gs, i)
  }

  ghost predicate PrimaryFits(s: State, gs: seq<Generic>) {
    exists j :: PrimaryAt(s, gs, j)
  }

  ghost predicate SetupInv(c: Config, u: Setup) {
    && ValidConfig(c) && PRIMARY in Correct(c)
    && u.replicas.Keys == Correct(c) == u.delivered.Keys
    && ProposalsOk(c, Proposals(u))
    && PrimaryFits(u.replicas[PRIMARY], Proposals(u))
    && forall r :: r in u.replicas ==> ReplicaFits(c, r, u.replicas[r], Proposals(u), u.delivered[r])
  }

  // ---------- each kind of step ----------

  /** Steps that change neither proposals, logs nor the buffer. */
  ghost predicate Untouched(s: State, s': State) {
    && s'.index == s.index && s'.n == s.n && s'.f == s.f
    && s'.generics == s.generics && s'.reordering == s.reordering
    && s'.executed == s.executed && s'.chain.digestExecute == s.chain.digestExecute
    && s'.viewHeight == s.viewHeight && s'.sentVotes == s.sentVotes
    && (s'.status == s.status || s'.status == Panicked(UnknownVotedBlock))
  }

  lemma UntouchedFits(
      c: Config, r: ReplicaIndex, s: State, s': State, gs: seq<Generic>, taken: set<nat>)
    requires ReplicaFits(c, r, s, gs, taken) && Untouched(s, s') && WellFormed(s') && VoteSetsOk(s')
    requires s'.sentGenerics == s.sentGenerics
    ensures ReplicaFits(c, r, s', gs, taken)
  {
    var k, waiting :| ReplicaAt(c, r, s, gs, taken, k, waiting);
    HoldsSame(s, s', gs, k, waiting);
    SameVotes(s, s', gs, k);
    assert ReplicaAt(c, r, s', gs, taken, k, waiting);
  }

  lemma VoteSetsGrow(s: State, v: Vote)
    requires WellFormed(s) && VoteSetsOk(s) && s.n > s.f
    ensures VoteSetsOk(HandleVote(s, v))
  {
    hide WellFormed;
    var s' := HandleVote(s, v);
    forall d | d in s'.votes ensures VoteSetOk(s', d) {
      if d in s.votes {
        assert VoteSetOk(s, d);
      }
    }
  }

  lemma VoteUntouched(s: State, v: Vote)
    requires WellFormed(s)
    ensures Untouched(s, HandleVote(s, v)) && WellFormed(HandleVote(s, v))
    ensures HandleVote(s, v).sentGenerics == s.sentGenerics
  {
  }

  lemma NumberOf(s: State, gs: seq<Generic>, k: nat, d: Digest) returns (i: nat)
    requires Entries(s, gs, k) && d in s.generics
    ensures i <= k && IsNumber(gs, d, i)
  {
    assert OnPath(gs, d, k);
    i :| i <= k && IsNumber(gs, d, i);
  }

  lemma EntryIsPrimarys(s: State, gs: seq<Generic>, k: nat, d: Digest)
    requires OneChain(gs) && Entries(s, gs, k) && d in s.generics && d != GENESIS_DIGEST
    ensures s.generics[d].replica == PRIMARY
  {
    var j := NumberOf(s, gs, k, d);
    assert EntryAt(s, gs, j) && ShapeAt(gs, j - 1);
  }

  lemma CertifiedVotes(s: State)
    requires VoteSetsOk(s)
    ensures s.digestCertified in s.votes ==> VoteSetOk(s, s.digestCertified)
  {
  }

  lemma VoteKeepsPrimary(s: State, gs: seq<Generic>, v: Vote, k: nat)
    requires WellFormed(s) && VoteSetsOk(s) && s.n > s.f
    requires OneChain(gs) && Entries(s, gs, k) && PrimaryFits(s, gs)
    ensures PrimaryFits(HandleVote(s, v), gs)
  {
    hide OneChain, Entries, VoteSetsOk, GenericsOk;
    var j :| PrimaryAt(s, gs, j);
    var s' := HandleVote(s, v);
    CertifiedVotes(s);
    if s'.digestCertified != s.digestCertified {
      var i := NumberOf(s, gs, k, v.digest);
      HeightOnChain(gs, i);
      HeightOnChain(gs, j);
      HeightOfEntry(s.generics, s.digestCertified);
      HeightOfEntry(s.generics, v.digest);
      assert PrimaryAt(s', gs, i);
    } else {
      assert PrimaryAt(s', gs, j);
    }
  }

  lemma HeightOnChain(gs: seq<Generic>, j: nat)
    requires OneChain(gs) && j <= |gs|
    ensures Height(DigestAt(BlocksOf(gs), j)) == j
  {
    if j > 0 {
      assert ShapeAt(gs, j - 1);
    }
  }

  lemma ProposedBlock(s: State)
    requires s.digestCertified in s.votes
    ensures
      var s' := Propose(s);
      var g := Generic(Block(s.requests[..BatchSize(s.requests)], s.digestCertified, s.chain.height + 1),
                       s.digestCertified, s.votes[s.digestCertified].Values, s.index);
      && s'.sentGenerics == s.sentGenerics + [g]
      && s'.chain.height == s.chain.height + 1 && s'.proposeHeight == s.chain.height + 1
      && s'.digestCertified == s.digestCertified && s'.votes == s.votes && s'.n == s.n && s'.f == s.f
      && Untouched(s, s')
  {
  }

  /** A proposal extends the chain by one block and carries n - f votes for its parent. */
  lemma ProposeExtends(c: Config, s: State, gs: seq<Generic>, k: nat) returns (g: Generic)
    requires WellFormed(s) && VoteSetsOk(s) && s.n == c.n && s.f == c.f && c.n > c.f
    requires ProposalsOk(c, gs) && Entries(s, gs, k) && PrimaryFits(s, gs) && s.sentGenerics == gs
    requires BlockHeight(s.generics, s.digestCertified) >= s.proposeHeight && s.index == PRIMARY
    ensures Propose(s).sentGenerics == gs + [g]
    ensures ProposalsOk(c, gs + [g]) && PrimaryFits(Propose(s), gs + [g])
    ensures Untouched(s, Propose(s))
  {
    var j :| PrimaryAt(s, gs, j);
    HeightOnChain(gs, j);
    HeightOfEntry(s.generics, s.digestCertified);
    assert j == |gs|;
    ProposedBlock(s);
    g := Propose(s).sentGenerics[|gs|];
    if j > 0 {
      ValuesCount(s, s.digestCertified);
    }
    ChainExtends(c, gs, g);
    DigestAtPrefix(BlocksOf(gs), BlocksOf(gs + [g]), j);
    assert PrimaryAt(Propose(s), gs + [g], j);
  }

  lemma ChainExtends(c: Config, gs: seq<Generic>, g: Generic)
    requires ProposalsOk(c, gs)
    requires g.block.parent == g.certified == DigestAt(BlocksOf(gs), |gs|) && g.block.height == |gs| + 1
    requires g.replica == PRIMARY
    requires |gs| > 0 ==> |g.certificate| == c.n - c.f && forall v :: v in g.certificate ==> v.digest == g.certified
    ensures ProposalsOk(c, gs + [g]) && BlocksOf(gs) <= BlocksOf(gs + [g])
  {
    var gs' := gs + [g];
    LinkedExtend(BlocksOf(gs), g.block);
    assert BlocksOf(gs') == BlocksOf(gs) + [g.block];
    forall i: nat | i < |gs'| ensures ShapeAt(gs', i) && CertificateAt(c, gs', i) {
      if i < |gs| {
        assert ShapeAt(gs, i) && CertificateAt(c, gs, i);
      }
    }
  }

  lemma ValuesCount(s: State, d: Digest)
    requires d in s.votes && VoteSetOk(s, d)
    ensures |s.votes[d].Values| == |s.votes[d]|
  {
    var votes := s.votes[d];
    VotesCount(d, votes.Keys);
    assert votes.Values == set r | r in votes.Keys :: Vote(d, r);
  }

  lemma {:induction false} VotesCount(d: Digest, replicas: set<ReplicaIndex>)
    ensures |set r | r in replicas :: Vote(d, r)| == |replicas|
    decreases |replicas|
  {
    if replicas != {} {
      var r :| r in replicas;
      VotesCount(d, replicas - {r});
      assert (set q | q in replicas :: Vote(d, q)) == (set q | q in replicas - {r} :: Vote(d, q)) + {Vote(d, r)};
    }
  }

  /** What is known of earlier proposals stays true when another is appended. */
  lemma FitsMore(c: Config, r: ReplicaIndex, s: State, gs: seq<Generic>, gs': seq<Generic>, taken: set<nat>)
    requires ReplicaFits(c, r, s, gs, taken) && gs <= gs'
    ensures ReplicaFits(c, r, s, gs', taken)
  {
    hide Entries, Holds, BlocksOf;
    var k, waiting :| ReplicaAt(c, r, s, gs, taken, k, waiting);
    HoldsMore(s, gs, gs', k, waiting);
    VotesMore(s, gs, gs', k);
    assert BlocksOf(gs')[..Behind(k)] == BlocksOf(gs)[..Behind(k)];
    DigestAtPrefix(BlocksOf(gs), BlocksOf(gs'), Behind(k));
    assert ReplicaAt(c, r, s, gs', taken, k, waiting);
  }

  lemma EntriesMore(s: State, gs: seq<Generic>, gs': seq<Generic>, k: nat)
    requires Entries(s, gs, k) && gs <= gs'
    ensures Entries(s, gs', k)
  {
    var blocks, blocks' := BlocksOf(gs), BlocksOf(gs');
    assert blocks <= blocks';
    forall j: nat | j <= k ensures EntryAt(s, gs', j) {
      assert EntryAt(s, gs, j);
      DigestAtPrefix(blocks, blocks', j);
    }
    forall d | d in s.generics ensures OnPath(gs', d, k) {
      var j: nat :| j <= k && IsNumber(gs, d, j);
      DigestAtPrefix(blocks, blocks', j);
      assert IsNumber(gs', d, j);
    }
  }

  lemma HoldsMore(s: State, gs: seq<Generic>, gs': seq<Generic>, k: nat, waiting: set<nat>)
    requires Holds(s, gs, k, waiting) && gs <= gs'
    ensures Holds(s, gs', k, waiting)
  {
    var blocks, blocks' := BlocksOf(gs), BlocksOf(gs');
    assert blocks <= blocks';
    EntriesMore(s, gs, gs', k);
    forall j: nat | j in waiting ensures WaitsAt(s, gs', j) {
      assert WaitsAt(s, gs, j);
      DigestAtPrefix(blocks, blocks', j);
    }
    forall d | d in s.reordering ensures WaitsUnder(gs', d, waiting) {
      var j: nat :| IsNumber(gs, d, j) && j in waiting;
      DigestAtPrefix(blocks, blocks', j);
      assert IsNumber(gs', d, j);
    }
  }

  /** The primary's own proposals come back in order; inserting one changes no certified digest. */
  lemma OwnProposalFits(c: Config, s: State, gs: seq<Generic>, taken: set<nat>, j: nat)
    requires OneChain(gs) && s.sentGenerics == gs && ReplicaFits(c, PRIMARY, s, gs, taken) && PrimaryFits(s, gs)
    requires s.status.Running? && j < |gs| && MayTake(s, gs[j])
    ensures ReplicaFits(c, PRIMARY, HandleLoopback(s, gs[j]), gs, taken + {j})
    ensures PrimaryFits(HandleLoopback(s, gs[j]), gs)
    ensures HandleLoopback(s, gs[j]).sentGenerics == gs
    ensures Reorder(s, gs[j]) == HandleLoopback(s, gs[j])
  {
    hide Holds, OneChain, MayTake, PrimaryFits;
    var k, waiting :| ReplicaAt(c, PRIMARY, s, gs, taken, k, waiting);
    if j < k {
      AgainFits(c, PRIMARY, s, gs, taken, k, waiting, j);
      InsertForPrimary(s, gs, j);
    } else {
      OwnProposalIsNext(s, gs, k, waiting, j);
      InsertForPrimary(s, gs, k);
      NextFits(c, s, gs, taken, k);
      NothingReleased(s, gs, k);
    }
  }

  /** The primary has nothing in its buffer, so its own proposal releases nothing. */
  lemma NothingReleased(s: State, gs: seq<Generic>, k: nat)
    requires WellFormed(s) && OneChain(gs) && Holds(s, gs, k, {}) && ExecutedBehind(s, gs, k)
    requires s.status.Running? && k < |gs|
    ensures gs[k].block.parent in s.generics && gs[k].certified in s.generics
    ensures Reorder(s, gs[k]) == InsertGeneric(s, gs[k])
  {
    hide WellFormed, OneChain, Entries;
    InsertNext(s, gs, k, {});
    ReorderInserts(s, gs[k]);
  }

  /** One of the first three blocks comes again. */
  lemma AgainFits(
      c: Config, r: ReplicaIndex, s: State, gs: seq<Generic>, taken: set<nat>, k: nat, waiting: set<nat>, j: nat)
    requires OneChain(gs) && ReplicaAt(c, r, s, gs, taken, k, waiting) && s.status.Running?
    requires j < k && MayTake(s, gs[j])
    ensures gs[j].block.parent in s.generics && gs[j].certified in s.generics
    ensures Reorder(s, gs[j]) == InsertGeneric(s, gs[j])
    ensures ReplicaFits(c, r, InsertGeneric(s, gs[j]), gs, taken + {j})
  {
    hide WellFormed, Entries;
    assert j < 3 by { HeldIsTaken(s, gs, k, waiting, j); assert ShapeAt(gs, j); }
    ReorderAgain(s, gs, k, waiting, j);
    InsertAgain(s, gs, k, j);
    var s' := InsertGeneric(s, gs[j]);
    HoldsSame(s, s', gs, k, waiting);
    VoteSetsSame(s, s');
    VotesAgain(s, gs, k, j);
    assert taken + {j} == taken;
    assert ReplicaAt(c, r, s', gs, taken, k, waiting);
  }

  lemma NextFits(c: Config, s: State, gs: seq<Generic>, taken: set<nat>, k: nat)
    requires OneChain(gs) && ReplicaAt(c, PRIMARY, s, gs, taken, k, {}) && s.status.Running? && k < |gs|
    requires gs[k].block.parent in s.generics && gs[k].certified in s.generics
    ensures ReplicaFits(c, PRIMARY, InsertGeneric(s, gs[k]), gs, taken + {k})
  {
    InsertNext(s, gs, k, {});
    VotesNext(s, gs, k);
    var s' := InsertGeneric(s, gs[k]);
    assert s'.reordering - {Sha256(gs[k].block)} == s'.reordering;
    assert Released(s', Sha256(gs[k].block)) == s';
    TakenInNext(k, {});
    VoteSetsSame(s, s');
    assert ReplicaAt(c, PRIMARY, s', gs, taken + {k}, k + 1, {} - {k + 1});
  }

  lemma OwnProposalIsNext(s: State, gs: seq<Generic>, k: nat, waiting: set<nat>, j: nat)
    requires WellFormed(s) && OneChain(gs) && Holds(s, gs, k, waiting) && s.sentGenerics == gs
    requires j < |gs| && j >= k
    ensures j == k && gs[j].block.parent in s.generics && gs[j].certified in s.generics
  {
    assert ShapeAt(gs, j) && LinkAt(BlocksOf(gs), j);
    assert gs[j] in s.sentGenerics;
    var i: nat :| i <= k && IsNumber(gs, gs[j].block.parent, i);
    if i != j {
      NumbersDiffer(gs, i, j);
    }
  }

  lemma VoteSetsSame(s: State, s': State)
    requires VoteSetsOk(s) && s'.votes == s.votes && s'.n == s.n && s'.f == s.f
    requires s.generics.Keys <= s'.generics.Keys
    ensures VoteSetsOk(s')
  {
    forall d | d in s'.votes ensures VoteSetOk(s', d) {
      assert VoteSetOk(s, d);
    }
  }

  lemma InsertForPrimary(s: State, gs: seq<Generic>, k: nat)
    requires WellFormed(s) && OneChain(gs) && k < |gs|
    requires gs[k].block.parent in s.generics && gs[k].certified in s.generics
    requires PrimaryFits(s, gs)
    ensures PrimaryFits(InsertGeneric(s, gs[k]), gs) && ProposesAlike(s, InsertGeneric(s, gs[k]))
    ensures InsertGeneric(s, gs[k]).reordering == s.reordering
  {
    var j :| PrimaryAt(s, gs, j);
    var s' := InsertGeneric(s, gs[k]);
    assert ShapeAt(gs, k) && LinkAt(BlocksOf(gs), k);
    HeightOnChain(gs, k);
    HeightOnChain(gs, j);
    InsertCertifies(s, gs[k]);
    HeightOfEntry(s'.generics, s.digestCertified);
    HeightOfEntry(s'.generics, gs[k].certified);
    assert PrimaryAt(s', gs, j);
  }

  lemma ProposalFits(c: Config, r: ReplicaIndex, s: State, gs: seq<Generic>, taken: set<nat>, j: nat)
    requires OneChain(gs) && ReplicaFits(c, r, s, gs, taken) && r != PRIMARY
    requires s.status.Running? && j < |gs| && MayTake(s, gs[j])
    ensures ReplicaFits(c, r, Reorder(s, gs[j]), gs, taken + {j})
  {
    hide OneChain, MayTake, Holds;
    var k, waiting :| ReplicaAt(c, r, s, gs, taken, k, waiting);
    if j < k {
      AgainFits(c, r, s, gs, taken, k, waiting, j);
    } else {
      assert j !in taken by { NotTakenBefore(s, gs, k, waiting, j); }
      NewFits(c, r, s, gs, taken, k, waiting, j);
    }
  }

  lemma NotTakenBefore(s: State, gs: seq<Generic>, k: nat, waiting: set<nat>, j: nat)
    requires OneChain(gs) && Holds(s, gs, k, waiting) && k <= j < |gs| && MayTake(s, gs[j])
    ensures j !in TakenIn(k, waiting)
  {
    HeldIsTaken(s, gs, k, waiting, j);
  }

  lemma NewFits(
      c: Config, r: ReplicaIndex, s: State, gs: seq<Generic>, taken: set<nat>, k: nat, waiting: set<nat>, j: nat)
    requires OneChain(gs) && ReplicaAt(c, r, s, gs, taken, k, waiting) && r != PRIMARY
    requires s.status.Running? && k <= j < |gs| && j !in taken
    ensures ReplicaFits(c, r, Reorder(s, gs[j]), gs, taken + {j})
  {
    var k', waiting' := ReorderHolds(s, gs, k, waiting, j);
    var s' := Reorder(s, gs[j]);
    forall d | d in s.generics ensures d in s'.generics {
      var i: nat :| i <= k && IsNumber(gs, d, i);
      assert EntryAt(s', gs, i);
    }
    VoteSetsSame(s, s');
    assert ReplicaAt(c, r, s', gs, taken + {j}, k', waiting');
  }

  lemma BackupPaces(s: State)
    requires WellFormed(s) && s.index != PRIMARY
    ensures OnPace(s) == s
  {
  }

  lemma RequestUntouched(s: State, request: Request)
    requires WellFormed(s)
    ensures Untouched(s, HandleRequest(s, request)) && WellFormed(HandleRequest(s, request))
    ensures
      var s' := HandleRequest(s, request);
      && s'.sentGenerics == s.sentGenerics && s'.votes == s.votes && s'.chain == s.chain
      && s'.proposeHeight == s.proposeHeight && s'.digestCertified == s.digestCertified
  {
  }

  /** Taking a proposal of the primary, over the network or as its own. */
  lemma TakeFits(c: Config, u: Setup, r: ReplicaIndex, j: nat)
    requires SetupInv(c, u) && r in u.replicas && u.replicas[r].status.Running? && WellFormed(u.replicas[r])
    requires j < |Proposals(u)| && MayTake(u.replicas[r], Proposals(u)[j])
    ensures
      var s, gs := u.replicas[r], Proposals(u);
      && ReplicaFits(c, r, Reorder(s, gs[j]), gs, u.delivered[r] + {j})
      && (r == PRIMARY ==>
            && gs[j] in s.sentGenerics && Reorder(s, gs[j]) == HandleLoopback(s, gs[j])
            && PrimaryFits(Reorder(s, gs[j]), gs) && Reorder(s, gs[j]).sentGenerics == gs)
  {
    hide ReplicaFits, PrimaryFits, OneChain, MayTake, CertificateAt, WellFormed, Reorder;
    var s, gs := u.replicas[r], Proposals(u);
    assert ReplicaFits(c, r, s, gs, u.delivered[r]);
    if r == PRIMARY {
      OwnProposalFits(c, s, gs, u.delivered[r], j);
    } else {
      ProposalFits(c, r, s, gs, u.delivered[r], j);
    }
  }

  lemma RequestFits(c: Config, r: ReplicaIndex, s: State, gs: seq<Generic>, taken: set<nat>, request: Request)
    requires ReplicaFits(c, r, s, gs, taken) && WellFormed(s)
    ensures ReplicaFits(c, r, HandleRequest(s, request), gs, taken)
    ensures PrimaryFits(s, gs) ==> PrimaryFits(HandleRequest(s, request), gs)
    ensures HandleRequest(s, request).sentGenerics == s.sentGenerics
  {
    hide HandleRequest, Holds, ExecutedBehind, PrimaryFits;
    var k, waiting :| ReplicaAt(c, r, s, gs, taken, k, waiting);
    RequestUntouched(s, request);
    VoteSetsSame(s, HandleRequest(s, request));
    UntouchedFits(c, r, s, HandleRequest(s, request), gs, taken);
    if PrimaryFits(s, gs) {
      PrimarySame(s, HandleRequest(s, request), gs);
    }
  }

  lemma VoteFits(c: Config, r: ReplicaIndex, s: State, gs: seq<Generic>, taken: set<nat>, v: Vote)
    requires ReplicaFits(c, r, s, gs, taken) && WellFormed(s) && OneChain(gs) && c.n > c.f
    ensures ReplicaFits(c, r, HandleVote(s, v), gs, taken)
    ensures PrimaryFits(s, gs) ==> PrimaryFits(HandleVote(s, v), gs)
    ensures HandleVote(s, v).sentGenerics == s.sentGenerics
  {
    hide HandleVote, Entries, ExecutedBehind, PrimaryFits, OneChain;
    var k, waiting :| ReplicaAt(c, r, s, gs, taken, k, waiting);
    VoteSetsGrow(s, v);
    VoteUntouched(s, v);
    UntouchedFits(c, r, s, HandleVote(s, v), gs, taken);
    if PrimaryFits(s, gs) {
      VoteKeepsPrimary(s, gs, v, k);
    }
  }

  lemma IndexOf(c: Config, r: ReplicaIndex, s: State, gs: seq<Generic>, taken: set<nat>)
    requires ReplicaFits(c, r, s, gs, taken)
    ensures s.index == r
  {
  }

  /** Steps that make no proposal keep one replica's part of the invariant. */
  lemma ActFits(c: Config, u: Setup, r: ReplicaIndex, a: Action)
    requires SetupInv(c, u) && r in u.replicas && r in u.delivered && WellFormed(u.replicas[r])
    requires u.replicas[r].status.Running? && Possible(c, u, r, a)
    requires (a.Tick? ==> r != PRIMARY) && !a.TakeOther? && Guarded(u, (r, a))
    requires a.TakeOwn? ==> Proposals(u)[a.number] in u.replicas[r].sentGenerics
    ensures
      var gs := Proposals(u);
      var s' := Act(u.replicas[r], a, gs);
      && ReplicaFits(c, r, s', gs, u.delivered[r] + NumberIn(a))
      && (r == PRIMARY ==> PrimaryFits(s', gs) && s'.sentGenerics == gs)
  {
    hide ReplicaFits, PrimaryFits, OneChain, MayTake, CertificateAt, WellFormed;
    hide Reorder, HandleVote, HandleRequest, HandleLoopback, OnPace;
    var s, gs := u.replicas[r], Proposals(u);
    assert ReplicaFits(c, r, s, gs, u.delivered[r]);
    IndexOf(c, r, s, gs, u.delivered[r]);
    assert u.delivered[r] + {} == u.delivered[r];
    match a
    case TakeRequest(request) => RequestFits(c, r, s, gs, u.delivered[r], request);
    case TakeVote(v) => VoteFits(c, r, s, gs, u.delivered[r], v);
    case TakeProposal(j) => TakeFits(c, u, r, j);
    case TakeOwn(j) => TakeFits(c, u, r, j);
    case Tick => BackupPaces(s);
  }

  lemma PrimarySame(s: State, s': State, gs: seq<Generic>)
    requires PrimaryFits(s, gs) && s'.votes == s.votes && s'.chain == s.chain && s'.n == s.n && s'.f == s.f
    requires s'.proposeHeight == s.proposeHeight && s'.digestCertified == s.digestCertified
    ensures PrimaryFits(s', gs)
  {
    var j :| PrimaryAt(s, gs, j);
    assert PrimaryAt(s', gs, j);
  }

  /** The replicas that take no step. */
  lemma OthersFit(c: Config, u: Setup, q: ReplicaIndex, gs': seq<Generic>)
    requires SetupInv(c, u) && q in u.replicas && Proposals(u) <= gs'
    ensures ReplicaFits(c, q, u.replicas[q], gs', u.delivered[q])
  {
    assert ReplicaFits(c, q, u.replicas[q], Proposals(u), u.delivered[q]);
    FitsMore(c, q, u.replicas[q], Proposals(u), gs', u.delivered[q]);
  }

  lemma OneFits(c: Config, u: Setup, u': Setup, r: ReplicaIndex)
    requires SetupInv(c, u) && r in u.replicas && r in u'.replicas && r in u'.delivered
    requires u'.replicas == u.replicas[r := u'.replicas[r]] && u'.delivered == u.delivered[r := u'.delivered[r]]
    requires PRIMARY in u'.replicas && Proposals(u) <= Proposals(u')
    requires ProposalsOk(c, Proposals(u')) && PrimaryFits(u'.replicas[PRIMARY], Proposals(u'))
    requires ReplicaFits(c, r, u'.replicas[r], Proposals(u'), u'.delivered[r])
    ensures SetupInv(c, u')
  {
    hide ReplicaFits, PrimaryFits, ProposalsOk;
    forall q | q in u'.replicas ensures ReplicaFits(c, q, u'.replicas[q], Proposals(u'), u'.delivered[q]) {
      if q != r {
        OthersFit(c, u, q, Proposals(u'));
      }
    }
  }

  lemma StepWithoutProposal(c: Config, u: Setup, u': Setup, r: ReplicaIndex, a: Action)
    requires SetupInv(c, u) && ActionBy(c, u, u', r, a) && (a.Tick? ==> r != PRIMARY)
    requires !a.TakeOther? && Guarded(u, (r, a))
    ensures SetupInv(c, u')
  {
    hide ReplicaFits, PrimaryFits, ProposalsOk, WellFormed, Guarded, Act;
    ActFits(c, u, r, a);
    assert u.delivered[r] + {} == u.delivered[r];
    assert u'.delivered == u.delivered[r := u'.delivered[r]];
    OneFits(c, u, u', r);
  }

  lemma StepWithProposal(c: Config, u: Setup, u': Setup)
    requires SetupInv(c, u) && u'.delivered == u.delivered
    requires WellFormed(u.replicas[PRIMARY]) && u'.replicas == u.replicas[PRIMARY := Propose(u.replicas[PRIMARY])]
    requires BlockHeight(u.replicas[PRIMARY].generics, u.replicas[PRIMARY].digestCertified)
             >= u.replicas[PRIMARY].proposeHeight
    requires WellFormed(Propose(u.replicas[PRIMARY]))
    ensures SetupInv(c, u')
  {
    hide ReplicaFits, PrimaryFits, ProposalsOk;
    PrimaryProposes(c, u, u.replicas[PRIMARY]);
    assert u'.delivered == u.delivered[PRIMARY := u'.delivered[PRIMARY]];
    OneFits(c, u, u', PRIMARY);
  }

  lemma PrimaryProposes(c: Config, u: Setup, s: State)
    requires SetupInv(c, u) && s == u.replicas[PRIMARY]
    requires WellFormed(s) && BlockHeight(s.generics, s.digestCertified) >= s.proposeHeight
    requires WellFormed(Propose(s))
    ensures
      var gs' := Propose(s).sentGenerics;
      && Proposals(u) <= gs' && ProposalsOk(c, gs') && PrimaryFits(Propose(s), gs')
      && ReplicaFits(c, PRIMARY, Propose(s), gs', u.delivered[PRIMARY])
  {
    var gs, taken := Proposals(u), u.delivered[PRIMARY];
    assert ReplicaFits(c, PRIMARY, s, gs, taken);
    var k, waiting :| ReplicaAt(c, PRIMARY, s, gs, taken, k, waiting);
    var g := ProposeExtends(c, s, gs, k);
    FitsMore(c, PRIMARY, s, gs, gs + [g], taken);
    ProposeFits(c, s, gs + [g], taken);
  }

  lemma ProposeFits(c: Config, s: State, gs': seq<Generic>, taken: set<nat>)
    requires ReplicaFits(c, PRIMARY, s, gs', taken)
    requires Untouched(s, Propose(s)) && WellFormed(Propose(s)) && Propose(s).votes == s.votes
    ensures ReplicaFits(c, PRIMARY, Propose(s), gs', taken)
  {
    var k, waiting :| ReplicaAt(c, PRIMARY, s, gs', taken, k, waiting);
    var s' := Propose(s);
    HoldsSame(s, s', gs', k, waiting);
    VoteSetsSame(s, s');
    SameVotes(s, s', gs', k);
    assert ReplicaAt(c, PRIMARY, s', gs', taken, k, waiting);
  }

  lemma MoveKeeps(c: Config, u: Setup, u': Setup, r: ReplicaIndex, a: Action)
    requires SetupInv(c, u) && ActionBy(c, u, u', r, a) && Guarded(u, (r, a))
    ensures SetupInv(c, u')
  {
    hide ReplicaFits, PrimaryFits, ProposalsOk;
    assert !a.TakeOther?;
    if a.Tick? && r == PRIMARY {
      var s := u.replicas[PRIMARY];
      OnPaceWellFormed(s);
      if OnPace(s) == s {
        assert u'.replicas == u.replicas;
      } else {
        StepWithProposal(c, u, u');
      }
    } else {
      StepWithoutProposal(c, u, u', r, a);
    }
  }

  lemma StartInv(c: Config)
    requires ValidConfig(c) && PRIMARY in Correct(c)
    ensures SetupInv(c, Start(c))
  {
    var u := Start(c);
    forall r | r in u.replicas ensures ReplicaFits(c, r, u.replicas[r], [], u.delivered[r]) {
      StartFits(c, r);
    }
    assert PrimaryAt(u.replicas[PRIMARY], [], 0);
  }

  lemma StartFits(c: Config, r: ReplicaIndex)
    requires ValidConfig(c)
    ensures ReplicaFits(c, r, Init(c.n, c.f, r), [], {})
  {
    var s := Init(c.n, c.f, r);
    assert BlocksOf([]) == [];
    assert EntryAt(s, [], 0);
    assert IsNumber([], GENESIS_DIGEST, 0);
    assert VoteSetOk(s, GENESIS_DIGEST);
    assert Holds(s, [], 0, {});
    assert ReplicaAt(c, r, s, [], {}, 0, {});
  }

  lemma ShorterHistory(c: Config, history: seq<Setup>, moves: seq<Move>, i: nat)
    requires IsHistory(c, history, moves) && i <= |moves|
    ensures IsHistory(c, history[..i + 1], moves[..i])
    ensures AllGuarded(history, moves) ==> AllGuarded(history[..i + 1], moves[..i])
  {
    var setups, first := history[..i + 1], moves[..i];
    forall j: nat | j < i ensures MoveAt(c, setups, first, j) {
      assert MoveAt(c, history, moves, j);
    }
  }

  lemma {:induction false} HistoryInv(c: Config, history: seq<Setup>, moves: seq<Move>)
    requires ValidConfig(c) && PRIMARY in Correct(c) && IsHistory(c, history, moves) && AllGuarded(history, moves)
    ensures SetupInv(c, history[|history| - 1])
    decreases |moves|
  {
    hide SetupInv, ActionBy;
    if moves == [] {
      StartInv(c);
    } else {
      var last := |moves| - 1;
      ShorterHistory(c, history, moves, last);
      HistoryInv(c, history[..last + 1], moves[..last]);
      assert MoveAt(c, history, moves, last) && Guarded(history[last], moves[last]);
      MoveKeeps(c, history[last], history[last + 1], moves[last].0, moves[last].1);
    }
  }
}
