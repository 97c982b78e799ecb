/** Agreement of HotStuff over all runs, with f arbitrary replicas and a leader that may equivocate. */
module HotStuffSafety {
  // A run interleaves the handlers of the correct replicas. Votes are authenticated: a vote in the name of
  // a correct replica was sent by it. Nothing else is assumed of the network or of faulty replicas, except
  // that accepted proposals have the shape `do_propose` gives them.

  import opened Blocks
  import opened Quorums
  import opened HotStuff
  import opened HotStuffRuns

  // ---------- quorum arguments ----------

  lemma CorrectVoter(c: Config, sys: System, d: Digest) returns (r: ReplicaIndex)
    requires Inv(c, sys) && Certified(c, sys, d) && d != GENESIS_DIGEST
    ensures r in sys && Voted(sys, r, d)
  {
    r := SomeCorrect(c.faulty, Voters(c, sys, d));
  }

  lemma CommonVoter(c: Config, sys: System, d: Digest, e: Digest) returns (r: ReplicaIndex)
    requires Inv(c, sys) && d != GENESIS_DIGEST && e != GENESIS_DIGEST
    requires Certified(c, sys, d) && Certified(c, sys, e)
    ensures r in sys && Voted(sys, r, d) && Voted(sys, r, e)
  {
    r := CommonCorrect(c.n, c.faulty, Voters(c, sys, d), Voters(c, sys, e));
  }

  /** A certified block has the shape of an accepted proposal, and its parent is certified. */
  lemma CertifiedSound(c: Config, sys: System, d: Digest)
    requires Inv(c, sys) && Certified(c, sys, d) && d != GENESIS_DIGEST
    ensures d.Sha256? && d.block.parent.Sha256?
    ensures d.block.height == d.block.parent.block.height + 1
    ensures Certified(c, sys, d.block.parent)
  {
    var r := CorrectVoter(c, sys, d);
    var s := sys[r];
    var i :| 0 <= i < |s.sentVotes| && s.sentVotes[i] == Vote(d, r);
    assert VoteOk(s, r, s.sentVotes[i]);
    assert EntryOk(s.generics, d);
    assert Sound(c, sys, s.generics[d]);
  }

  /** Two blocks of equal height that both gather n - f votes are the same block. */
  lemma CertifiedUnique(c: Config, sys: System, d: Digest, e: Digest)
    requires Inv(c, sys) && Certified(c, sys, d) && Certified(c, sys, e)
    requires Height(d) == Height(e)
    ensures d == e
  {
    if d != GENESIS_DIGEST {
      CertifiedSound(c, sys, d);
    }
    if e != GENESIS_DIGEST {
      CertifiedSound(c, sys, e);
    }
    if d != GENESIS_DIGEST && e != GENESIS_DIGEST && d != e {
      var r := CommonVoter(c, sys, d, e);
      TwoVotes(c, sys, r, d, e);
    }
  }

  lemma TwoVotes(c: Config, sys: System, r: ReplicaIndex, d: Digest, e: Digest)
    requires Inv(c, sys) && Voted(sys, r, d) && Voted(sys, r, e) && d != e
    ensures VotedInOrder(c, sys, d, e) || VotedInOrder(c, sys, e, d)
  {
    hide VotedInOrder, VoteOk, LogOk, ProposalsSound, WellFormed, Certified;
    var votes := sys[r].sentVotes;
    assert ReplicaInv(c, sys, r, sys[r]);
    var i :| 0 <= i < |votes| && votes[i] == Vote(d, r);
    var j :| 0 <= j < |votes| && votes[j] == Vote(e, r);
    if i < j {
      assert VotedInOrder(c, sys, votes[i].digest, votes[j].digest);
    } else {
      assert VotedInOrder(c, sys, votes[j].digest, votes[i].digest);
    }
  }

  /** A replica that voted for both blocks voted for the lower one first. */
  lemma CommonVoterLock(c: Config, sys: System, d: Digest, e: Digest) returns (lock: Digest)
    requires Inv(c, sys) && d != GENESIS_DIGEST && e != GENESIS_DIGEST
    requires Certified(c, sys, d) && Certified(c, sys, e) && Height(d) < Height(e)
    ensures LockBetween(c, sys, d, e, lock)
  {
    var r := CommonVoter(c, sys, d, e);
    TwoVotes(c, sys, r, d, e);
    lock :| LockBetween(c, sys, d, e, lock);
  }

  lemma {:induction false} ReachesHeight(c: Config, sys: System, d: Digest, ancestor: Digest)
    requires Inv(c, sys) && Certified(c, sys, d) && Reaches(d, ancestor)
    ensures Height(ancestor) <= Height(d)
    decreases d
  {
    if d != ancestor && d != GENESIS_DIGEST {
      CertifiedSound(c, sys, d);
      ReachesHeight(c, sys, d.block.parent, ancestor);
    }
  }

  /** The heart of agreement: whatever is certified at or above a decided block descends from it. */
  lemma {:induction false} DecidedIsAncestor(c: Config, sys: System, d: Digest, e: Digest)
    requires Inv(c, sys) && Decided(c, sys, d) && Certified(c, sys, e)
    requires Height(d) <= Height(e)
    ensures Reaches(e, d)
    decreases Height(e)
  {
    var d2 :| DecidedBy(c, sys, d, d2);
    CertifiedSound(c, sys, d2);
    var d1 := d2.block.parent;
    CertifiedSound(c, sys, d1);
    CertifiedSound(c, sys, d);
    if Height(e) == Height(d) {
      CertifiedUnique(c, sys, d, e);
    } else if Height(e) == Height(d1) {
      CertifiedUnique(c, sys, d1, e);
    } else if Height(e) == Height(d2) {
      CertifiedUnique(c, sys, d2, e);
    } else {
      CertifiedSound(c, sys, e);
      var lock := CommonVoterLock(c, sys, d2, e);
      if Reaches(e.block.parent, lock) {
        ReachesHeight(c, sys, e.block.parent, lock);
        DecidedIsAncestor(c, sys, d, lock);
        ReachesTransitive(e.block.parent, lock, d);
      } else {
        DecidedIsAncestor(c, sys, d, e.block.parent);
      }
    }
  }

  // ---------- main theorems ----------

  lemma LogsAgree(c: Config, sys: System, q: ReplicaIndex, r: ReplicaIndex)
    requires Inv(c, sys) && q in sys && r in sys
    requires sys[q].executed != [] && sys[r].executed != []
    requires Height(DigestAt(sys[q].executed, |sys[q].executed|)) <= Height(DigestAt(sys[r].executed, |sys[r].executed|))
    ensures sys[q].executed <= sys[r].executed
  {
    var a, b := sys[q].executed, sys[r].executed;
    var tipA, tipB := DigestAt(a, |a|), DigestAt(b, |b|);
    assert Decided(c, sys, Sha256(a[|a| - 1])) && Decided(c, sys, Sha256(b[|b| - 1]));
    DecidedCertified(c, sys, tipB);
    DecidedIsAncestor(c, sys, tipA, tipB);
    AncestorIsPrefix(a, b, |b|);
  }

  lemma DecidedCertified(c: Config, sys: System, d: Digest)
    requires Inv(c, sys) && Decided(c, sys, d)
    ensures Certified(c, sys, d)
  {
    var d2 :| DecidedBy(c, sys, d, d2);
    CertifiedSound(c, sys, d2);
    CertifiedSound(c, sys, d2.block.parent);
  }

  /** Agreement: in every reachable state of every run, the blocks executed by any two correct
      replicas form parent-linked chains of which one is a prefix of the other. */
  lemma Agreement(c: Config, run: seq<System>, q: ReplicaIndex, r: ReplicaIndex)
    requires ValidConfig(c) && IsRun(c, run)
    requires q in Correct(c) && r in Correct(c)
    ensures
      var sys := run[|run| - 1];
      && q in sys && r in sys
      && Linked(sys[q].executed) && Linked(sys[r].executed)
      && PrefixComparable(sys[q].executed, sys[r].executed)
  {
    RunInv(c, run);
    var sys := run[|run| - 1];
    var a, b := sys[q].executed, sys[r].executed;
    if a != [] && b != [] {
      if Height(DigestAt(a, |a|)) <= Height(DigestAt(b, |b|)) {
        LogsAgree(c, sys, q, r);
      } else {
        LogsAgree(c, sys, r, q);
      }
    }
  }

  /** In every run a correct replica votes at strictly increasing heights, so at most once a height,
      and no two blocks of the same height both gather n - f votes. */
  lemma VotesNeverConflict(c: Config, run: seq<System>)
    requires ValidConfig(c) && IsRun(c, run)
    ensures
      var sys := run[|run| - 1];
      && (forall r, i, j {:trigger sys[r].sentVotes[i], sys[r].sentVotes[j]} ::
            r in sys && 0 <= i < j < |sys[r].sentVotes| ==>
              Height(sys[r].sentVotes[i].digest) < Height(sys[r].sentVotes[j].digest))
      && (forall d, e :: Certified(c, sys, d) && Certified(c, sys, e) && Height(d) == Height(e) ==> d == e)
  {
    RunInv(c, run);
    var sys := run[|run| - 1];
    forall r, i, j | r in sys && 0 <= i < j < |sys[r].sentVotes|
      ensures Height(sys[r].sentVotes[i].digest) < Height(sys[r].sentVotes[j].digest)
    {
      assert VotedInOrder(c, sys, sys[r].sentVotes[i].digest, sys[r].sentVotes[j].digest);
    }
    forall d, e | Certified(c, sys, d) && Certified(c, sys, e) && Height(d) == Height(e) ensures d == e {
      CertifiedUnique(c, sys, d, e);
    }
  }

  /** Along every run no correct replica takes back a vote or an executed block, and the height it
      has voted at and the height of its lock never decrease. */
  lemma {:induction false} NothingIsTakenBack(c: Config, run: seq<System>, i: nat, r: ReplicaIndex)
    requires ValidConfig(c) && IsRun(c, run) && i < |run| && r in Correct(c)
    ensures r in run[i] && r in run[|run| - 1] && Progress(run[i][r], run[|run| - 1][r])
    decreases |run|
  {
    var last := |run| - 1;
    RunInv(c, run);
    if i < last {
      RunWithoutLast(c, run);
      NothingIsTakenBack(c, run[..last], i, r);
      RunInv(c, run[..last]);
      StepKeeps(c, run[last - 1], run[last]);
      ProgressTransitive(run[i][r], run[last - 1][r], run[last][r]);
    }
  }

  lemma ProgressTransitive(s: State, s': State, s'': State)
    requires Progress(s, s') && Progress(s', s'')
    ensures Progress(s, s'')
  {
  }
}
