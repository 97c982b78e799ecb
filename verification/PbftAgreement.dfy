/** PBFT with a correct primary and up to f arbitrary backups, over all runs. */
module PbftAgreement {
  // Whatever the order, loss or repetition of messages, the blocks a correct replica executes are a prefix
  // of the chain the primary proposed, and every executed block is backed by enough prepared replicas.
  //
  // Pre-prepares are authenticated as the primary's, prepares and commits as their sender's.

  import opened Blocks
  import opened Quorums
  import opened Chains
  import opened Pbft
  import opened PbftRuns

  /** The correct replicas that hold the block of `d` and n - f - 1 distinct prepares for it. */
  ghost function PreparedReplicas(sys: System, d: Digest): set<ReplicaIndex> {
    set q | q in sys && Prepared(sys[q], d)
  }

  /** A full commit certificate proves that n - 2f correct replicas are prepared. */
  lemma FullIsBacked(c: Config, sys: System, r: ReplicaIndex, d: Digest)
    requires Inv(c, sys) && r in sys && Full(sys[r], d)
    ensures |PreparedReplicas(sys, d)| >= c.n - 2 * c.f
  {
    hide ExecutedOk, StatusOk, ChainFollows, PrePreparesOk, WellFormed, Prepared, PrimaryInv;
    assert ReplicaInv(c, sys, Proposed(sys), r, sys[r]);
    var certificate := CertificateOf(sys[r].commitCertificates, d);
    assert CommitsOk(c, sys, d, certificate);
    var prepared := PreparedReplicas(sys, d);
    forall k | k in certificate ensures k in prepared + c.faulty {
      if k !in c.faulty {
        assert certificate[k] in sys[k].sentCommits;
        assert ReplicaInv(c, sys, Proposed(sys), k, sys[k]);
      }
    }
    SubsetSize(certificate.Keys, prepared + c.faulty);
  }

  lemma ExecutedFromChain(c: Config, sys: System, r: ReplicaIndex)
    requires Inv(c, sys) && r in Correct(c)
    ensures r in sys && ExecutedOk(Proposed(sys), sys[r]) && StatusOk(r, sys[r]) && Linked(Proposed(sys))
    ensures sys[r].status.Running? ==> exists committed :: ChainFollows(Proposed(sys), sys[r], committed)
  {
    hide CertificatesOk, WellFormed, PrePreparesOk, SentOk, ExecutedOk, StatusOk, ChainFollows;
    assert ReplicaInv(c, sys, Proposed(sys), r, sys[r]);
  }

  /** Agreement: in every reachable state of every run, the blocks executed by a correct replica are a
      prefix of the chain the correct primary proposed, so those of two replicas are prefixes of one
      another; the chain is parent-linked and no block occurs twice. */
  lemma Agreement(c: Config, run: seq<System>, q: ReplicaIndex, r: ReplicaIndex)
    requires CorrectPrimary(c) && IsRun(c, run) && q in Correct(c) && r in Correct(c)
    ensures
      var sys := run[|run| - 1];
      && q in sys && r in sys
      && sys[q].executed <= Proposed(sys) && sys[r].executed <= Proposed(sys)
      && PrefixComparable(sys[q].executed, sys[r].executed)
      && Linked(Proposed(sys))
      && forall i, j :: 0 <= i < j < |sys[q].executed| ==> sys[q].executed[i] != sys[q].executed[j]
  {
    hide Inv, Linked, Next, StatusOk, ChainFollows, Proposed;
    RunInv(c, run);
    var sys := run[|run| - 1];
    ExecutedFromChain(c, sys, q);
    ExecutedFromChain(c, sys, r);
    forall i, j | 0 <= i < j < |sys[q].executed| ensures sys[q].executed[i] != sys[q].executed[j] {
      NoRepeats(Proposed(sys), sys[q].executed, i, j);
    }
  }

  /** Every executed block has been proposed by the primary and is held, together with n - f - 1 prepares
      for it in the names of distinct replicas, by at least n - 2f correct replicas; each of these
      prepares that is in the name of a correct replica was sent by it. */
  lemma ExecutedIsPrepared(c: Config, run: seq<System>, r: ReplicaIndex, b: Block)
    requires CorrectPrimary(c) && IsRun(c, run)
    requires r in run[|run| - 1] && b in run[|run| - 1][r].executed
    ensures b in Proposed(run[|run| - 1])
    ensures |PreparedReplicas(run[|run| - 1], Sha256(b))| >= c.n - 2 * c.f
    ensures
      var sys, d := run[|run| - 1], Sha256(b);
      forall k :: k in PreparedReplicas(sys, d) ==> PreparesOk(c, sys, d, CertificateOf(sys[k].prepareCertificates, d))
  {
    hide Next;
    RunInv(c, run);
    var sys, d := run[|run| - 1], Sha256(b);
    assert ReplicaInv(c, sys, Proposed(sys), r, sys[r]);
    FullIsBacked(c, sys, r, d);
    forall k | k in PreparedReplicas(sys, d)
      ensures PreparesOk(c, sys, d, CertificateOf(sys[k].prepareCertificates, d))
    {
      CertificateIsGenuine(c, sys, k, d);
    }
  }

  lemma CertificateIsGenuine(c: Config, sys: System, k: ReplicaIndex, d: Digest)
    requires Inv(c, sys) && k in sys
    ensures PreparesOk(c, sys, d, CertificateOf(sys[k].prepareCertificates, d))
  {
    assert ReplicaInv(c, sys, Proposed(sys), k, sys[k]);
  }

  /** Request conservation: the requests a correct replica has executed are a prefix of the requests in
      the order the primary queued them; what the primary has not put into a block is still queued;
      blocks are batches of 1 to 100 requests. */
  lemma RequestsConserved(c: Config, run: seq<System>, r: ReplicaIndex)
    requires CorrectPrimary(c) && IsRun(c, run) && r in Correct(c)
    ensures
      var sys := run[|run| - 1];
      && r in sys && PRIMARY in sys
      && Flatten(sys[r].executed) <= Flatten(Proposed(sys))
      && Flatten(Proposed(sys)) + sys[PRIMARY].requests == sys[PRIMARY].accepted
      && forall b :: b in Proposed(sys) ==> 0 < |b.requests| <= MAX_BATCH_SIZE
  {
    RunInv(c, run);
    var sys := run[|run| - 1];
    var blocks := Proposed(sys);
    assert ReplicaInv(c, sys, blocks, r, sys[r]);
    FlattenPrefix(sys[r].executed, blocks);
    forall b | b in blocks ensures 0 < |b.requests| <= MAX_BATCH_SIZE {
      var i: nat :| i < |blocks| && blocks[i] == b;
      assert BatchOk(blocks, i);
    }
  }

  /** The assertions on certificate sizes and on conflicting commits never fail. A correct replica stops
      only if the commits for a block outran its pre-prepare, or if it is the primary and is handed its
      own pre-prepare over the network. A running one has executed everything it could: the first
      block it has not executed lacks a full commit certificate. */
  lemma OnlyTheseStops(c: Config, run: seq<System>, r: ReplicaIndex)
    requires CorrectPrimary(c) && IsRun(c, run) && r in Correct(c)
    ensures
      var sys := run[|run| - 1];
      && r in sys
      && StatusOk(r, sys[r])
      && (sys[r].status.Running? && |sys[r].executed| < |Proposed(sys)| ==>
            !Full(sys[r], Sha256(Proposed(sys)[|sys[r].executed|])))
  {
    hide Inv, Linked, Next, StatusOk, ChainFollows, Proposed, Full;
    RunInv(c, run);
    var sys := run[|run| - 1];
    ExecutedFromChain(c, sys, r);
    var s, blocks := sys[r], Proposed(sys);
    if s.status.Running? && |s.executed| < |blocks| {
      var committed :| ChainFollows(blocks, s, committed);
      NextNotFull(blocks, s, committed);
    }
  }

  lemma NextNotFull(blocks: seq<Block>, s: State, committed: set<nat>)
    requires Linked(blocks) && ChainFollows(blocks, s, committed) && |s.executed| < |blocks|
    ensures !Full(s, Sha256(blocks[|s.executed|]))
  {
    hide Reassembles, Linked, Full;
    var k := |s.executed|;
    if Full(s, Sha256(blocks[k])) {
      var j: nat :| j in committed && j < |blocks| && Sha256(blocks[k]) == Sha256(blocks[j]);
      PositionsDiffer(blocks, j + 1, k + 1);
      assert false;
    }
  }
}
