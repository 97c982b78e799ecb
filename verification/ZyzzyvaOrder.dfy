/** Zyzzyva with a correct primary over all runs. */
module ZyzzyvaOrder {
  // Whatever the order, loss or repetition of order requests, a correct replica executes a prefix of the
  // primary's chain and answers with the results of running it in order. If no order request is delivered
  // to a replica twice, the assertion on conflicting commits never fails and everything that could be
  // executed has been.

  import opened Blocks
  import opened Quorums
  import opened Chains
  import opened Zyzzyva
  import opened ZyzzyvaRuns

  lemma InvFacts(c: Config, sys: System, r: ReplicaIndex, once: bool)
    requires Inv(c, sys, once) && r in Correct(c)
    ensures r in sys && PRIMARY in sys && PrimaryInv(sys[PRIMARY]) && Linked(Proposed(sys))
    ensures sys[r].executed <= Proposed(sys) && ExecutionOk(sys[r]) && (once ==> Exact(Proposed(sys), sys[r]))
  {
    hide WellFormed, HoldsFrom, Exact, WithinChain, ExecutionOk;
    assert ReplicaInv(c, Proposed(sys), r, sys[r], once);
  }

  /** Request conservation, for any delivery of order requests: what correct replicas have executed are
      prefixes of the chain the primary proposed, without repetition; the requests in it are a prefix
      of those the primary queued, in that order; what is in no block is still queued. */
  lemma RequestsConserved(c: Config, run: seq<System>, q: ReplicaIndex, r: ReplicaIndex, once: bool)
    requires CorrectPrimary(c) && IsRun(c, run, once) && q in Correct(c) && r in Correct(c)
    ensures
      var sys := run[|run| - 1];
      && q in sys && r in sys && PRIMARY in sys
      && sys[q].executed <= Proposed(sys) && sys[r].executed <= Proposed(sys)
      && PrefixComparable(sys[q].executed, sys[r].executed)
      && (forall i, j :: 0 <= i < j < |sys[q].executed| ==> sys[q].executed[i] != sys[q].executed[j])
      && Flatten(sys[q].executed) <= Flatten(Proposed(sys))
      && Flatten(Proposed(sys)) + sys[PRIMARY].requests == sys[PRIMARY].accepted
      && forall b :: b in Proposed(sys) ==> 0 < |b.requests| <= MAX_BATCH_SIZE
  {
    hide Inv, Next, Linked, Exact, ExecutionOk, Proposed;
    RunInv(c, run, once);
    var sys := run[|run| - 1];
    InvFacts(c, sys, q, once);
    InvFacts(c, sys, r, once);
    FlattenPrefix(sys[q].executed, Proposed(sys));
    forall i, j | 0 <= i < j < |sys[q].executed| ensures sys[q].executed[i] != sys[q].executed[j] {
      NoRepeats(Proposed(sys), sys[q].executed, i, j);
    }
    PrimaryConserves(sys);
  }

  lemma PrimaryConserves(sys: System)
    requires PRIMARY in sys && PrimaryInv(sys[PRIMARY])
    ensures Flatten(Proposed(sys)) + sys[PRIMARY].requests == sys[PRIMARY].accepted
    ensures forall b :: b in Proposed(sys) ==> 0 < |b.requests| <= MAX_BATCH_SIZE
  {
    var blocks := Proposed(sys);
    forall b | b in blocks ensures 0 < |b.requests| <= MAX_BATCH_SIZE {
      var i: nat :| i < |blocks| && blocks[i] == b;
      assert BatchOk(blocks, i);
    }
  }

  /** If no order request reaches a replica twice, a correct replica never stops, and it has executed
      exactly the longest prefix of the primary's chain of which it has received every block. */
  lemma ExactWhenOnce(c: Config, run: seq<System>, r: ReplicaIndex)
    requires CorrectPrimary(c) && IsRun(c, run, true) && r in Correct(c)
    ensures
      var sys := run[|run| - 1];
      && r in sys && sys[r].status == Running
      && sys[r].executed <= Proposed(sys)
      && (forall b :: b in sys[r].executed ==> Sha256(b) in sys[r].orderRequests)
      && (|sys[r].executed| < |Proposed(sys)| ==>
            Sha256(Proposed(sys)[|sys[r].executed|]) !in sys[r].orderRequests)
  {
    hide Inv, Next, Linked, ExecutionOk, Proposed, ChainFollows;
    RunInv(c, run, true);
    var sys := run[|run| - 1];
    InvFacts(c, sys, r, true);
    var committed :| ChainFollows(Proposed(sys), sys[r], committed);
    FollowsExactly(Proposed(sys), sys[r], committed);
  }

  lemma FollowsExactly(blocks: seq<Block>, s: State, committed: set<nat>)
    requires Linked(blocks) && s.executed <= blocks && ChainFollows(blocks, s, committed)
    ensures forall b :: b in s.executed ==> Sha256(b) in s.orderRequests
    ensures |s.executed| < |blocks| ==> Sha256(blocks[|s.executed|]) !in s.orderRequests
  {
    hide Linked;
    var k := |s.executed|;
    if k < |blocks| && Sha256(blocks[k]) in s.orderRequests {
      assert AtOneOf(blocks, committed, Sha256(blocks[k]));
      var j: nat :| j in committed && j < |blocks| && Sha256(blocks[k]) == Sha256(blocks[j]);
      PositionsDiffer(blocks, j + 1, k + 1);
      assert false;
    }
  }

  /** Whatever a correct replica says to clients is the block at some place of the primary's chain with,
      for each of its requests, the result it has when the chain is run in order up to it. */
  lemma ResponsesFollowTheLog(
      c: Config, run: seq<System>, r: ReplicaIndex, clients: seq<ClientIndex>, m: SpecResponse, i: nat, once: bool)
    requires CorrectPrimary(c) && IsRun(c, run, once) && r in Correct(c) && r in run[|run| - 1]
    requires (clients, m) in run[|run| - 1][r].sentResponses && i < |m.results|
    ensures m.block in Proposed(run[|run| - 1]) && m.replica == run[|run| - 1][r].index
    ensures clients == ClientsOf(m.block.requests) && |m.results| == |m.block.requests|
    ensures IsResult(Flatten(Proposed(run[|run| - 1])), m.block.requests[i].client, m.block.requests[i].num, m.results[i])
  {
    hide Inv, Next, Linked, Exact, Proposed, ClientsOf, Flatten, IsResult;
    RunInv(c, run, once);
    var sys := run[|run| - 1];
    InvFacts(c, sys, r, once);
    var s := sys[r];
    var j: nat :| j < |s.sentResponses| && s.sentResponses[j] == (clients, m);
    assert ResponseAt(s.executed, s.index, s.sentResponses, j);
    ResultInBlock(s.executed, j, i);
    FlattenPrefix(s.executed, Proposed(sys));
    IsResultLater(Flatten(s.executed), Flatten(Proposed(sys)),
                  m.block.requests[i].client, m.block.requests[i].num, m.results[i]);
  }

  lemma ResultInBlock(executed: seq<Block>, j: nat, i: nat)
    requires j < |executed| && i < |executed[j].requests|
    ensures
      var results := ResultsAfter(Flatten(executed[..j]), executed[j].requests);
      var request := executed[j].requests[i];
      IsResult(Flatten(executed), request.client, request.num, results[i])
  {
    hide Ran, IsResult;
    var requests := executed[j].requests;
    var before, log := Flatten(executed[..j]), Flatten(executed[..j + 1]);
    assert executed[..j + 1][..j] == executed[..j];
    ResultsInOrder(before, requests, i);
    var result := ResultsAfter(before, requests)[i];
    assert log[..|before| + i + 1] == before + requests[..i + 1];
    ResultHere(log, |before| + i, result);
    FlattenPrefix(executed[..j + 1], executed);
    IsResultLater(log, Flatten(executed), requests[i].client, requests[i].num, result);
  }

  lemma ResultHere(log: seq<Request>, k: nat, result: Result)
    requires k < |log| && result == Ran(log[..k + 1])
    ensures IsResult(log, log[k].client, log[k].num, result)
  {
    assert ResultAt(log, log[k].client, log[k].num, result, k);
  }

  /** A correct replica acknowledges a commit only for a block of the primary's chain that it holds. */
  lemma LocalCommitsAreForHeldBlocks(c: Config, run: seq<System>, r: ReplicaIndex, i: nat, once: bool)
    requires CorrectPrimary(c) && IsRun(c, run, once) && r in Correct(c) && r in run[|run| - 1]
    requires i < |run[|run| - 1][r].sentLocalCommits|
    ensures
      var sys := run[|run| - 1];
      var m := sys[r].sentLocalCommits[i].1;
      m.digest in sys[r].orderRequests && FromChain(Proposed(sys), m.digest)
  {
    hide Next, WithinChain, ExecutionOk, Exact, Proposed, PrimaryInv;
    RunInv(c, run, once);
    var sys := run[|run| - 1];
    assert ReplicaInv(c, Proposed(sys), r, sys[r], once);
    assert sys[r].sentLocalCommits[i] in sys[r].sentLocalCommits;
  }
}
