/** HotStuff with a correct primary: one chain, executed three behind, exactly under a guard. */
module HotStuffPrimary {
  // The proposals form one chain, each carries n - f genuine votes for its parent, and every correct replica
  // executes block h exactly when it inserts block h + 3, whatever the order of delivery. The code takes a
  // proposal of any replica, and takes it again. One of a faulty replica, or one that still waits or is of
  // block 4 or later and comes again, ends this; nothing else does.

  import opened Blocks
  import opened Quorums
  import opened HotStuff
  import opened HotStuffPrimarySteps
  import opened HotStuffPrimaryRecords

  ghost predicate FollowsAt(s: State, gs: seq<Generic>, k: nat, waiting: set<nat>) {
    && Holds(s, gs, k, waiting) && VotedUpTo(s, gs, k)
    && s.executed == BlocksOf(gs)[..Behind(k)]
    && OnlyVotesStop(s)
  }

  /** It is three behind, every other proposal it has waits for its parent, and of all assertions only
      the one on votes for unknown blocks can have stopped it. */
  ghost predicate Follows(s: State, gs: seq<Generic>) {
    exists k, waiting :: FollowsAt(s, gs, k, waiting)
  }

  /** Proposals are the blocks 1, 2, 3, ... of one chain, each certified by n - f genuine votes for its
      parent unless that is the genesis block, and every correct replica follows them. */
  ghost predicate OneChainBuilt(c: Config, u: Setup) {
    && u.replicas.Keys == Correct(c) && PRIMARY in u.replicas
    && ProposalsOk(c, Proposals(u)) && CertificatesGenuine(c, u)
    && forall r :: r in u.replicas ==> Follows(u.replicas[r], Proposals(u))
  }

  lemma CorrectPrimaryBuildsOneChain(c: Config, history: seq<Setup>, moves: seq<Move>)
    requires ValidConfig(c) && PRIMARY in Correct(c) && IsHistory(c, history, moves) && AllGuarded(history, moves)
    ensures OneChainBuilt(c, history[|history| - 1])
    ensures
      var u := history[|history| - 1];
      forall r :: r in u.replicas ==> ThreeBehind(u.replicas[r], Proposals(u))
  {
    HistoryInv(c, history, moves);
    HistoryVotes(c, history, moves);
    var u := history[|history| - 1];
    forall r | r in u.replicas
      ensures Follows(u.replicas[r], Proposals(u)) && ThreeBehind(u.replicas[r], Proposals(u))
    {
      var s, gs := u.replicas[r], Proposals(u);
      assert ReplicaFits(c, r, s, gs, u.delivered[r]);
      var k, waiting :| ReplicaAt(c, r, s, gs, u.delivered[r], k, waiting);
      assert Entries(s, gs, k) && FollowsAt(s, gs, k, waiting);
    }
  }

  /** The requests that a correct replica has executed are, in order and without gap or repetition, the
      first of those the primary queued; those proposed and still queued are all of them. */
  lemma RequestsConserved(c: Config, history: seq<Setup>, moves: seq<Move>, r: ReplicaIndex)
    requires ValidConfig(c) && PRIMARY in Correct(c) && IsHistory(c, history, moves) && AllGuarded(history, moves)
    requires r in Correct(c)
    ensures
      var u := history[|history| - 1];
      && OneChainBuilt(c, u) && RequestsInv(u)
      && Flatten(u.replicas[r].executed) <= Flatten(BlocksOf(Proposals(u))) <= u.queued
  {
    hide ProposalsOk, CertificatesGenuine, Follows, AllGuarded, ThreeBehind;
    CorrectPrimaryBuildsOneChain(c, history, moves);
    HistoryRequests(c, history, moves);
    var u := history[|history| - 1];
    assert u.replicas[r].executed <= BlocksOf(Proposals(u)) by { ExecutedIsPrefix(u.replicas[r], Proposals(u)); }
    FlattenPrefix(u.replicas[r].executed, BlocksOf(Proposals(u)));
  }

  lemma ExecutedIsPrefix(s: State, gs: seq<Generic>)
    requires ThreeBehind(s, gs)
    ensures s.executed <= BlocksOf(gs)
  {
  }

  // ---------- proposals of other replicas ----------

  ghost predicate NoneOfBlock(gs: seq<Generic>, d: Digest) {
    forall g :: g in gs ==> Sha256(g.block) != d
  }

  /** No proposal of the block of `d` is buffered. */
  ghost predicate NotWaiting(s: State, d: Digest) {
    forall e :: e in s.reordering ==> NoneOfBlock(s.reordering[e], d)
  }

  lemma {:induction false} ReorderKeepsEntry(s: State, g: Generic, d: Digest)
    requires WellFormed(s) && d in s.generics && NotWaiting(s, d) && Sha256(g.block) != d
    ensures
      var s' := Reorder(s, g);
      d in s'.generics && s'.generics[d] == s.generics[d] && NotWaiting(s', d)
    decreases Buffered(s.reordering) + 1, 0, 0
  {
    hide WellFormed, InsertGeneric;
    if s.status.Running? && g.block.parent in s.generics && g.certified in s.generics {
      var inserted, e := InsertGeneric(s, g), Sha256(g.block);
      if inserted.status.Running? && e in inserted.reordering {
        BufferedWithout(s.reordering, e);
        ReorderAllKeepsEntry(Released(inserted, e), inserted.reordering[e], d);
      }
    }
  }

  lemma {:induction false} ReorderAllKeepsEntry(s: State, gs: seq<Generic>, d: Digest)
    requires WellFormed(s) && d in s.generics && NotWaiting(s, d) && NoneOfBlock(gs, d)
    ensures
      var s' := ReorderAll(s, gs);
      d in s'.generics && s'.generics[d] == s.generics[d] && NotWaiting(s', d)
    decreases Buffered(s.reordering) + |gs|, 1, |gs|
  {
    hide WellFormed, NotWaiting;
    if gs != [] {
      ReorderKeepsEntry(s, gs[0], d);
      ReorderAllKeepsEntry(Reorder(s, gs[0]), gs[1..], d);
    }
  }

  /** Nothing buffered is of a block whose parent is present. */
  lemma WaitingLacksParent(s: State, gs: seq<Generic>, k: nat, waiting: set<nat>, block: Block)
    requires OneChain(gs) && Holds(s, gs, k, waiting) && block.parent in s.generics
    ensures NotWaiting(s, Sha256(block))
  {
    forall e | e in s.reordering ensures NoneOfBlock(s.reordering[e], Sha256(block)) {
      var j: nat :| IsNumber(gs, e, j) && j in waiting;
      assert WaitsAt(s, gs, j) && LinkAt(BlocksOf(gs), j);
      if gs[j].block == block {
        var i := NumberOf(s, gs, k, block.parent);
        NumbersDiffer(gs, i, j);
        assert false;
      }
    }
  }

  lemma TakenInIsEntry(s: State, gs: seq<Generic>, k: nat, waiting: set<nat>, g: Generic)
    requires WellFormed(s) && s.status.Running? && OneChain(gs) && Holds(s, gs, k, waiting)
    requires g.block.parent in s.generics && g.certified in s.generics
    ensures
      var s', d := Reorder(s, g), Sha256(g.block);
      d != GENESIS_DIGEST && d in s'.generics && s'.generics[d] == g
  {
    hide WellFormed, Holds, OneChain;
    var inserted, d := InsertGeneric(s, g), Sha256(g.block);
    InsertedOk(s, g);
    WaitingLacksParent(s, gs, k, waiting, g.block);
    if inserted.status.Running? && d in inserted.reordering {
      BufferedWithout(s.reordering, d);
      ReorderAllKeepsEntry(Released(inserted, d), inserted.reordering[d], d);
    }
  }

  lemma WaitingIsPrimarys(s: State, gs: seq<Generic>, k: nat, waiting: set<nat>, d: Digest, g: Generic)
    requires OneChain(gs) && Holds(s, gs, k, waiting) && d in s.reordering && g in s.reordering[d]
    ensures g.replica == PRIMARY
  {
    var j: nat :| IsNumber(gs, d, j) && j in waiting;
    assert WaitsAt(s, gs, j) && ShapeAt(gs, j);
  }

  lemma OtherEntryBreaks(s: State, gs: seq<Generic>, d: Digest)
    requires OneChain(gs) && d in s.generics && d != GENESIS_DIGEST && s.generics[d].replica != PRIMARY
    ensures !ThreeBehind(s, gs) && !Follows(s, gs)
  {
    forall k: nat ensures !Entries(s, gs, k) {
      if Entries(s, gs, k) {
        EntryIsPrimarys(s, gs, k, d);
        assert false;
      }
    }
  }

  lemma OtherWaitingBreaks(s: State, gs: seq<Generic>, d: Digest, g: Generic)
    requires OneChain(gs) && d in s.reordering && g in s.reordering[d] && g.replica != PRIMARY
    ensures !Follows(s, gs)
  {
    forall k, waiting ensures !Holds(s, gs, k, waiting) {
      if Holds(s, gs, k, waiting) {
        WaitingIsPrimarys(s, gs, k, waiting, d, g);
        assert false;
      }
    }
  }

  /** A replica that follows the primary and takes a proposal of another replica no longer follows. It is
      still three behind exactly when the proposal is buffered: its parent or certified block is missing. */
  lemma OtherBreaks(s: State, gs: seq<Generic>, k: nat, waiting: set<nat>, g: Generic)
    requires WellFormed(s) && s.status.Running? && OneChain(gs) && FollowsAt(s, gs, k, waiting)
    requires g.replica != PRIMARY
    ensures !Follows(Reorder(s, g), gs)
    ensures ThreeBehind(Reorder(s, g), gs) <==> g.block.parent !in s.generics || g.certified !in s.generics
  {
    hide WellFormed, OneChain;
    var s' := Reorder(s, g);
    if g.block.parent in s.generics && g.certified in s.generics {
      TakenInIsEntry(s, gs, k, waiting, g);
      OtherEntryBreaks(s', gs, Sha256(g.block));
    } else {
      var d := if g.block.parent !in s.generics then g.block.parent else g.certified;
      assert s' == s.(reordering := Buffer(s.reordering, d, g));
      assert s'.reordering[d][|s'.reordering[d]| - 1] == g;
      OtherWaitingBreaks(s', gs, d, g);
      EntriesSame(s, s', gs, k);
      SameVotes(s, s', gs, k);
    }
  }

  // ---------- proposals that come again ----------

  lemma WaitsAlone(s: State, gs: seq<Generic>, k: nat, waiting: set<nat>, d: Digest)
    requires Holds(s, gs, k, waiting) && d in s.reordering
    ensures |s.reordering[d]| == 1
  {
    var j: nat :| IsNumber(gs, d, j) && j in waiting;
    assert WaitsAt(s, gs, j);
  }

  lemma TwoWaitingBreak(s: State, gs: seq<Generic>, d: Digest)
    requires d in s.reordering && |s.reordering[d]| > 1
    ensures !Follows(s, gs)
  {
    hide Holds;
    forall k, waiting ensures !Holds(s, gs, k, waiting) {
      if Holds(s, gs, k, waiting) {
        WaitsAlone(s, gs, k, waiting, d);
        assert false;
      }
    }
  }

  /** A waiting proposal that comes again is buffered twice. */
  lemma WaitsTwice(s: State, gs: seq<Generic>, k: nat, waiting: set<nat>, j: nat)
    requires WellFormed(s) && s.status.Running? && OneChain(gs) && Holds(s, gs, k, waiting) && j in waiting
    ensures j < |gs| && !Follows(Reorder(s, gs[j]), gs)
  {
    hide WellFormed, Follows;
    assert WaitsAt(s, gs, j) && LinkAt(BlocksOf(gs), j);
    var d := gs[j].block.parent;
    if d in s.generics {
      var i := NumberOf(s, gs, k, d);
      NumbersDiffer(gs, i, j);
      assert false;
    }
    TwoWaitingBreak(Reorder(s, gs[j]), gs, d);
  }

  /** A proposal of the primary that comes again although the guard forbids it. */
  lemma AgainBreaks(s: State, gs: seq<Generic>, k: nat, waiting: set<nat>, j: nat)
    requires WellFormed(s) && s.status.Running? && OneChain(gs)
    requires Holds(s, gs, k, waiting) && ExecutedBehind(s, gs, k) && j < |gs| && !MayTake(s, gs[j])
    ensures !Follows(Reorder(s, gs[j]), gs)
    ensures waiting == {} ==>
              gs[j].block.parent in s.generics && gs[j].certified in s.generics && !Follows(InsertGeneric(s, gs[j]), gs)
  {
    hide WellFormed, OneChain, Entries;
    assert ShapeAt(gs, j) by { ChainShape(gs, j); }
    HeldIsTaken(s, gs, k, waiting, j);
    if j < k {
      ReorderAgain(s, gs, k, waiting, j);
      InsertAgain(s, gs, k, j);
    } else {
      WaitsTwice(s, gs, k, waiting, j);
    }
  }

  lemma ChainShape(gs: seq<Generic>, j: nat)
    requires OneChain(gs) && j < |gs|
    ensures ShapeAt(gs, j)
  {
  }

  // ---------- the exact condition ----------

  ghost predicate BuiltThroughout(c: Config, history: seq<Setup>) {
    forall i {:trigger history[i]} :: 0 <= i < |history| ==> OneChainBuilt(c, history[i])
  }

  /** Throughout a run there is one chain that all correct replicas follow if and only if each takes only
      proposals that pass the guard. */
  lemma OneChainIff(c: Config, history: seq<Setup>, moves: seq<Move>)
    requires ValidConfig(c) && PRIMARY in Correct(c) && IsHistory(c, history, moves)
    ensures BuiltThroughout(c, history) <==> AllGuarded(history, moves)
  {
    hide OneChainBuilt, Guarded;
    if AllGuarded(history, moves) {
      forall i | 0 <= i < |history| ensures OneChainBuilt(c, history[i]) {
        ShorterHistory(c, history, moves, i);
        CorrectPrimaryBuildsOneChain(c, history[..i + 1], moves[..i]);
      }
    } else {
      var i := FirstUnguarded(history, moves);
      ShorterHistory(c, history, moves, i);
      HistoryInv(c, history[..i + 1], moves[..i]);
      assert MoveAt(c, history, moves, i);
      MoveBreaks(c, history[i], history[i + 1], moves[i].0, moves[i].1);
    }
  }

  lemma {:induction false} FirstUnguarded(history: seq<Setup>, moves: seq<Move>) returns (i: nat)
    requires |history| == |moves| + 1 && !AllGuarded(history, moves)
    ensures i < |moves| && !Guarded(history[i], moves[i]) && AllGuarded(history[..i + 1], moves[..i])
    decreases |moves|
  {
    hide Guarded;
    var last := |moves| - 1;
    if AllGuarded(history[..last + 1], moves[..last]) {
      i := last;
      forall j | 0 <= j < |moves| && j != last ensures Guarded(history[j], moves[j]) {
        assert moves[..last][j] == moves[j];
      }
    } else {
      i := FirstUnguarded(history[..last + 1], moves[..last]);
      assert moves[..last][..i] == moves[..i] && history[..last + 1][..i + 1] == history[..i + 1];
    }
  }

  lemma FittingOtherBreaks(c: Config, r: ReplicaIndex, s: State, gs: seq<Generic>, taken: set<nat>, g: Generic)
    requires WellFormed(s) && s.status.Running? && OneChain(gs) && ReplicaFits(c, r, s, gs, taken)
    requires g.replica != PRIMARY
    ensures !Follows(Reorder(s, g), gs)
    ensures g.block.parent in s.generics && g.certified in s.generics ==> !ThreeBehind(Reorder(s, g), gs)
  {
    hide WellFormed, OneChain, Follows, ThreeBehind;
    var k, waiting :| ReplicaAt(c, r, s, gs, taken, k, waiting);
    assert FollowsAt(s, gs, k, waiting);
    OtherBreaks(s, gs, k, waiting, g);
  }

  lemma FittingAgainBreaks(c: Config, r: ReplicaIndex, s: State, gs: seq<Generic>, taken: set<nat>, j: nat)
    requires WellFormed(s) && s.status.Running? && OneChain(gs) && ReplicaFits(c, r, s, gs, taken)
    requires j < |gs| && !MayTake(s, gs[j])
    ensures !Follows(Reorder(s, gs[j]), gs)
    ensures r == PRIMARY ==>
              gs[j].block.parent in s.generics && gs[j].certified in s.generics && !Follows(InsertGeneric(s, gs[j]), gs)
  {
    hide WellFormed, OneChain, Follows, MayTake, Holds;
    var k, waiting :| ReplicaAt(c, r, s, gs, taken, k, waiting);
    AgainBreaks(s, gs, k, waiting, j);
  }

  lemma MoveBreaks(c: Config, u: Setup, u': Setup, r: ReplicaIndex, a: Action)
    requires SetupInv(c, u) && ActionBy(c, u, u', r, a) && !Guarded(u, (r, a))
    ensures !OneChainBuilt(c, u')
  {
    hide WellFormed, OneChain, ReplicaFits, Follows, PrimaryFits, ThreeBehind, CertificatesGenuine, MayTake;
    var s, gs := u.replicas[r], Proposals(u);
    assert ReplicaFits(c, r, s, gs, u.delivered[r]);
    if a.TakeOther? {
      assert a.proposal.replica != PRIMARY;
      FittingOtherBreaks(c, r, s, gs, u.delivered[r], a.proposal);
    } else {
      FittingAgainBreaks(c, r, s, gs, u.delivered[r], a.number);
    }
    assert r in u'.replicas && !Follows(u'.replicas[r], gs) && Proposals(u') == gs;
  }

  const FAULTY_BACKUP: Config := Config(4, 1, {3})

  /** An empty block on the genesis block, proposed by the faulty backup. */
  const ITS_OWN: Generic := Generic(Block([], GENESIS_DIGEST, 1), GENESIS_DIGEST, {}, 3)

  /** Such a run is possible: with a correct primary and one faulty backup of four replicas, the very first
      step can leave a replica with an entry that is on no chain of the primary. */
  lemma OtherProposalIsTaken() returns (history: seq<Setup>, moves: seq<Move>)
    ensures ValidConfig(FAULTY_BACKUP) && PRIMARY in Correct(FAULTY_BACKUP)
    ensures IsHistory(FAULTY_BACKUP, history, moves) && moves == [(1, TakeOther(ITS_OWN))]
    ensures history[1].replicas.Keys == Correct(FAULTY_BACKUP)
    ensures !ThreeBehind(history[1].replicas[1], Proposals(history[1]))
  {
    hide ThreeBehind, ReplicaFits, Reorder, WellFormed;
    var c := FAULTY_BACKUP;
    var u, s := Start(c), Init(4, 1, 1);
    var u' := Setup(u.replicas[1 := Reorder(s, ITS_OWN)], u.delivered, []);
    assert ActionBy(c, u, u', 1, TakeOther(ITS_OWN));
    history, moves := [u, u'], [(1, TakeOther(ITS_OWN))];
    assert MoveAt(c, history, moves, 0);
    StartFits(c, 1);
    assert BlocksOf([]) == [] && OneChain([]);
    FittingOtherBreaks(c, 1, s, [], {}, ITS_OWN);
  }
}
