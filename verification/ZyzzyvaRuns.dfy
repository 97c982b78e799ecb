/** Runs of Zyzzyva with a correct primary, and the invariant that every run keeps.

    Order requests may be lost, repeated and reordered; with `once` none reaches a replica twice.
    Backups need not be correct for what is proved of the correct ones: what they send plays no part
    in what a correct replica executes. */
module ZyzzyvaRuns {
  import opened Blocks
  import opened Quorums
  import opened Chains
  import opened Zyzzyva

  type System = map<ReplicaIndex, State>

  datatype Event =
    | RequestArrives(request: Request)
    | OrderRequestArrives(orderRequest: OrderRequest)
    | CommitArrives(remote: nat, commit: Commit)
    | Pace

  /** Order requests are authenticated as the primary's; with `once` none reaches a replica twice. */
  ghost predicate Enabled(sys: System, r: ReplicaIndex, e: Event, once: bool)
    requires r in sys
  {
    match e
    case OrderRequestArrives(m) =>
      && PRIMARY in sys && m in sys[PRIMARY].sentOrderRequests
      && (once ==> Sha256(m.block) !in sys[r].orderRequests)
    case _ => true
  }

  ghost function Handle(s: State, e: Event): State
    requires WellFormed(s)
  {
    match e
    case RequestArrives(request) => HandleRequest(s, request)
    case OrderRequestArrives(m) => HandleOrderRequest(s, m)
    case CommitArrives(remote, commit) => HandleCommit(s, remote, commit)
    case Pace => OnPace(s)
  }

  ghost predicate StepBy(sys: System, sys': System, r: ReplicaIndex, e: Event, once: bool) {
    && r in sys && WellFormed(sys[r]) && Enabled(sys, r, e, once)
    && sys' == sys[r := Handle(sys[r], e)]
  }

  ghost predicate Next(sys: System, sys': System, once: bool) {
    exists r, e :: StepBy(sys, sys', r, e, once)
  }

  ghost function InitSystem(c: Config): System {
    map r | r in Correct(c) :: Init(c.n, r)
  }

  ghost predicate IsRun(c: Config, run: seq<System>, once: bool) {
    && |run| > 0
    && run[0] == InitSystem(c)
    && forall i :: 0 <= i < |run| - 1 ==> Next(run[i], run[i + 1], once)
  }

  // ---------- what the replicas of a system have sent ----------

  ghost predicate Responded(s: State, m: SpecResponse) {
    exists i :: 0 <= i < |s.sentResponses| && s.sentResponses[i].1 == m
  }

  ghost predicate Said(sys: System, said: set<SpecResponse>) {
    forall m :: m in said ==> m.replica in sys && Responded(sys[m.replica], m)
  }

  ghost predicate Acknowledges(s: State, m: LocalCommit) {
    exists i :: 0 <= i < |s.sentLocalCommits| && s.sentLocalCommits[i].1 == m
  }

  ghost predicate Acknowledged(sys: System, saidCommits: set<LocalCommit>) {
    forall m :: m in saidCommits ==> m.replica in sys && Acknowledges(sys[m.replica], m)
  }

  // ---------- the invariant ----------

  ghost function BlocksOf(sent: seq<OrderRequest>): (blocks: seq<Block>)
    ensures |blocks| == |sent|
    ensures forall i :: 0 <= i < |sent| ==> blocks[i] == sent[i].block
  {
    if sent == [] then [] else BlocksOf(sent[..|sent| - 1]) + [sent[|sent| - 1].block]
  }

  ghost function Proposed(sys: System): seq<Block> {
    if PRIMARY in sys then BlocksOf(sys[PRIMARY].sentOrderRequests) else []
  }

  ghost function ResultsAfter(log: seq<Request>, requests: seq<Request>): seq<Result> {
    RunRequests(Ran(log), requests).1
  }

  /** Response number i is for the i-th executed block, with the results of running it after all the
      blocks before it. */
  ghost predicate ResponseAt(
      executed: seq<Block>, index: ReplicaIndex, responses: seq<(seq<ClientIndex>, SpecResponse)>, i: nat)
    requires i < |executed| && i < |responses|
  {
    var block := executed[i];
    var results := ResultsAfter(Flatten(executed[..i]), block.requests);
    responses[i] == (ClientsOf(block.requests), SpecResponse(block, results, index))
  }

  /** The application has run the executed blocks, and each has been answered once, in order. */
  ghost predicate ExecutionOk(s: State) {
    && s.app == Ran(Flatten(s.executed))
    && |s.sentResponses| == |s.executed|
    && forall i: nat {:trigger ResponseAt(s.executed, s.index, s.sentResponses, i)} ::
         i < |s.executed| ==> ResponseAt(s.executed, s.index, s.sentResponses, i)
  }

  ghost predicate HoldsFrom(blocks: seq<Block>, orderRequests: map<Digest, OrderRequest>) {
    forall d :: d in orderRequests ==> FromChain(blocks, d)
  }

  /** `committed` are the positions of the blocks received; all that can be executed has been. */
  ghost predicate ChainFollows(blocks: seq<Block>, s: State, committed: set<nat>) {
    && |s.executed| !in committed
    && Reassembles(s.chain, blocks, committed, |s.executed|)
    && (forall j: nat :: j in committed ==> j < |blocks| && Sha256(blocks[j]) in s.orderRequests)
    && (forall d :: d in s.orderRequests ==> AtOneOf(blocks, committed, d))
  }

  ghost predicate Exact(blocks: seq<Block>, s: State) {
    s.status == Running && exists committed :: ChainFollows(blocks, s, committed)
  }

  ghost predicate ReplicaInv(c: Config, blocks: seq<Block>, r: ReplicaIndex, s: State, once: bool) {
    && s.index == r && s.n == c.n && s.viewNum == 0
    && WellFormed(s)
    && HoldsFrom(blocks, s.orderRequests)
    && (forall m :: m in s.sentLocalCommits ==> m.1.digest in s.commits)
    && (forall d :: d in s.commits ==> d in s.orderRequests)
    && s.executed <= blocks
    && WithinChain(s.chain, blocks, |s.executed|)
    && ExecutionOk(s)
    && (once ==> Exact(blocks, s))
  }

  ghost predicate PrimaryInv(s: State) {
    && ProposesInOrder(s.chain, s.requests, s.accepted, BlocksOf(s.sentOrderRequests))
  }

  ghost predicate Inv(c: Config, sys: System, once: bool) {
    && CorrectPrimary(c)
    && sys.Keys == Correct(c)
    && PrimaryInv(sys[PRIMARY])
    && forall r :: r in sys ==> ReplicaInv(c, Proposed(sys), r, sys[r], once)
  }

  // ---------- executing ----------

  lemma {:induction false} RunRequestsApp(log: seq<Request>, requests: seq<Request>)
    ensures RunRequests(Ran(log), requests).0 == Ran(log + requests)
    decreases |requests|
  {
    hide Ran;
    if requests == [] {
      assert log + requests == log;
    } else {
      var last := |requests| - 1;
      RunRequestsApp(log, requests[..last]);
      RanOneMore(log + requests[..last], requests[last]);
      assert log + requests == log + requests[..last] + [requests[last]];
    }
  }

  /** Each result is what its request returns when everything before it has run. */
  lemma {:induction false} ResultsInOrder(log: seq<Request>, requests: seq<Request>, i: nat)
    requires i < |requests|
    ensures ResultsAfter(log, requests)[i] == Ran(log + requests[..i + 1])
    decreases |requests|
  {
    hide Ran;
    var last := |requests| - 1;
    if i == last {
      RunRequestsApp(log, requests[..last]);
      RanOneMore(log + requests[..last], requests[last]);
      assert log + requests[..i + 1] == log + requests[..last] + [requests[last]];
    } else {
      ResultsInOrder(log, requests[..last], i);
      assert requests[..last][..i + 1] == requests[..i + 1];
    }
  }

  lemma RunBlockOk(s: State, block: Block)
    requires ExecutionOk(s)
    ensures ExecutionOk(RunBlock(s, block))
  {
    hide RunRequests, ClientsOf, Ran;
    var s' := RunBlock(s, block);
    var k := |s.executed|;
    RunRequestsApp(Flatten(s.executed), block.requests);
    assert s'.executed[..k] == s.executed;
    assert Flatten(s'.executed) == Flatten(s.executed) + block.requests;
    forall i: nat | i < k + 1 ensures ResponseAt(s'.executed, s'.index, s'.sentResponses, i) {
      if i < k {
        assert ResponseAt(s.executed, s.index, s.sentResponses, i);
        assert s'.executed[..i] == s.executed[..i];
      }
    }
  }

  lemma SameExecution(s: State, s': State)
    requires ExecutionOk(s)
    requires s'.app == s.app && s'.sentResponses == s.sentResponses && s'.executed == s.executed && s'.index == s.index
    ensures ExecutionOk(s')
  {
    forall i: nat | i < |s'.executed| ensures ResponseAt(s'.executed, s'.index, s'.sentResponses, i) {
      assert ResponseAt(s.executed, s.index, s.sentResponses, i);
    }
  }

  lemma BlockOfPosition(blocks: seq<Block>, s: State, j: nat)
    requires WellFormed(s) && j < |blocks| && DigestAt(blocks, j + 1) in s.orderRequests
    ensures s.orderRequests[DigestAt(blocks, j + 1)].block == blocks[j]
  {
    var d := DigestAt(blocks, j + 1);
    assert d == Sha256(s.orderRequests[d].block);
  }

  /** Executing the next block and what waits behind it stays on the chain. */
  lemma {:induction false} ExecuteWithin(s: State, blocks: seq<Block>)
    requires WellFormed(s) && Linked(blocks) && ExecutionOk(s)
    requires s.executed <= blocks && |s.executed| < |blocks|
    requires WithinChain(s.chain, blocks, |s.executed| + 1)
    ensures
      var s' := ExecuteFrom(s, blocks[|s.executed|]);
      && s'.executed <= blocks && WithinChain(s'.chain, blocks, |s'.executed|) && ExecutionOk(s')
    decreases |s.chain.pending|
  {
    hide RunBlock, WithinChain, Linked, ExecuteFrom, WellFormed, ExecutionOk;
    var k := |s.executed|;
    var block := blocks[k];
    NextWithin(s.chain, blocks, k + 1);
    ExecuteFromStep(s, block);
    RunBlockOk(s, block);
    var s1 := RunBlock(s, block).(chain := NextOf(s.chain).0);
    SameExecution(RunBlock(s, block), s1);
    assert s1.executed == blocks[..k + 1];
    if NextOf(s.chain).1.Some? {
      BlockOfPosition(blocks, s, k + 1);
      ExecuteWithin(s1, blocks);
    }
  }

  /** Executing continues up to the first block that has not been received. */
  lemma {:induction false} ExecuteFollows(s: State, blocks: seq<Block>, committed: set<nat>)
    requires WellFormed(s) && Linked(blocks)
    requires s.executed <= blocks && |s.executed| < |blocks|
    requires Reassembles(s.chain, blocks, committed, |s.executed| + 1)
    ensures
      var s' := ExecuteFrom(s, blocks[|s.executed|]);
      && s'.executed <= blocks && |s'.executed| !in committed
      && Reassembles(s'.chain, blocks, committed, |s'.executed|)
    decreases |s.chain.pending|
  {
    hide RunBlock, Reassembles, Linked, ExecuteFrom, WellFormed;
    var k := |s.executed|;
    var block := blocks[k];
    NextReassembles(s.chain, blocks, committed, k + 1);
    ExecuteFromStep(s, block);
    var s1 := RunBlock(s, block).(chain := NextOf(s.chain).0);
    assert s1.executed == blocks[..k + 1];
    if k + 1 in committed {
      BlockOfPosition(blocks, s, k + 1);
      ExecuteFollows(s1, blocks, committed);
    }
  }

  lemma SameWellFormed(s: State, s1: State)
    requires WellFormed(s) && s1.n == s.n
    requires s1.orderRequests == s.orderRequests && s1.chain.pending == s.chain.pending
    ensures WellFormed(s1)
  {
  }

  lemma ReceiveWithin(s: State, blocks: seq<Block>, j: nat)
    requires WellFormed(s) && Linked(blocks) && ExecutionOk(s) && s.executed <= blocks
    requires WithinChain(s.chain, blocks, |s.executed|)
    requires j < |blocks| && Sha256(blocks[j]) in s.orderRequests
    ensures
      var s' := DoExecute(s, Sha256(blocks[j]));
      && s'.executed <= blocks && WithinChain(s'.chain, blocks, |s'.executed|) && ExecutionOk(s')
  {
    hide WithinChain, Linked, ExecuteFrom, WellFormed, ExecutionOk;
    var k := |s.executed|;
    BlockOfPosition(blocks, s, j);
    CommitWithin(s.chain, blocks, k, j);
    var s1 := s.(chain := CommitTo(s.chain, blocks[j]).0);
    if j == k {
      SameWellFormed(s, s1);
      SameExecution(s, s1);
      ExecuteWithin(s1, blocks);
    } else {
      SameExecution(s, DoExecute(s, Sha256(blocks[j])));
    }
  }

  /** A block received for the first time. */
  lemma ReceiveFollows(s: State, s1: State, blocks: seq<Block>, committed: set<nat>, j: nat)
    requires WellFormed(s) && WellFormed(s1) && Linked(blocks) && s.status == Running && s.executed <= blocks
    requires ChainFollows(blocks, s, committed)
    requires j < |blocks| && Sha256(blocks[j]) !in s.orderRequests
    requires s1 == s.(orderRequests := s1.orderRequests) && s1.orderRequests.Keys == s.orderRequests.Keys + {Sha256(blocks[j])}
    ensures
      var s' := DoExecute(s1, Sha256(blocks[j]));
      s'.status == Running && ChainFollows(blocks, s', committed + {j})
  {
    hide RunBlock, Reassembles, Linked, ExecuteFrom, WellFormed;
    var d := Sha256(blocks[j]);
    var k := |s.executed|;
    BlockOfPosition(blocks, s1, j);
    CommitReassembles(s.chain, blocks, committed, k, j);
    var s' := DoExecute(s1, d);
    if j == k {
      var s2 := s1.(chain := CommitTo(s.chain, blocks[j]).0);
      SameWellFormed(s1, s2);
      ExecuteFollows(s2, blocks, committed + {j});
    }
    forall e | e in s'.orderRequests ensures AtOneOf(blocks, committed + {j}, e) {
      if e != d {
        assert AtOneOf(blocks, committed, e);
      }
    }
  }

  // ---------- handlers ----------

  lemma HoldsMore(blocks: seq<Block>, orderRequests: map<Digest, OrderRequest>, m: OrderRequest)
    requires HoldsFrom(blocks, orderRequests) && m.block in blocks
    ensures HoldsFrom(blocks, orderRequests[Sha256(m.block) := m])
  {
  }

  lemma OrderRequestKeeps(c: Config, blocks: seq<Block>, r: ReplicaIndex, s: State, m: OrderRequest, once: bool)
    requires CorrectPrimary(c) && Linked(blocks) && ReplicaInv(c, blocks, r, s, once) && m.block in blocks
    requires once ==> Sha256(m.block) !in s.orderRequests
    ensures ReplicaInv(c, blocks, r, HandleOrderRequest(s, m), once)
  {
    hide WithinChain, Linked, WellFormed, ExecutionOk, DoExecute, HoldsFrom, ChainFollows;
    if s.status == Running && m.viewNum == s.viewNum {
      var j: nat :| j < |blocks| && blocks[j] == m.block;
      var s1 := StoredOrderRequest(s, m);
      HoldsMore(blocks, s.orderRequests, m);
      SameExecution(s, s1);
      ReceiveWithin(s1, blocks, j);
      if once {
        var committed :| ChainFollows(blocks, s, committed);
        ReceiveFollows(s, s1, blocks, committed, j);
      }
    }
  }

  lemma StoredOrderRequest(s: State, m: OrderRequest) returns (s1: State)
    requires WellFormed(s)
    ensures s1 == s.(orderRequests := s.orderRequests[Sha256(m.block) := m]) && WellFormed(s1)
    ensures s1.orderRequests.Keys == s.orderRequests.Keys + {Sha256(m.block)}
  {
    s1 := s.(orderRequests := s.orderRequests[Sha256(m.block) := m]);
  }

  lemma QuietKeeps(c: Config, blocks: seq<Block>, r: ReplicaIndex, s: State, s': State, once: bool)
    requires ReplicaInv(c, blocks, r, s, once)
    requires s' == s.(requests := s'.requests, accepted := s'.accepted, sentOrderRequests := s'.sentOrderRequests,
                      commits := s'.commits, sentLocalCommits := s'.sentLocalCommits,
                      chain := s.chain.(digestParent := s'.chain.digestParent, height := s'.chain.height))
    requires forall m :: m in s'.sentLocalCommits ==> m.1.digest in s'.commits
    requires forall d :: d in s'.commits ==> d in s.orderRequests
    ensures ReplicaInv(c, blocks, r, s', once)
  {
    hide Linked, WellFormed, AtOneOf, ExecutionOk, HoldsFrom, Reassembles;
    SameWellFormed(s, s');
    SameExecution(s, s');
    SameWithin(s.chain, s'.chain, blocks, |s.executed|);
    if once {
      var committed :| ChainFollows(blocks, s, committed);
      SameReassembles(s.chain, s'.chain, blocks, committed, |s.executed|);
      assert ChainFollows(blocks, s', committed);
    }
  }

  lemma HandleReplicaInv(c: Config, sys: System, r: ReplicaIndex, e: Event, once: bool)
    requires Inv(c, sys, once) && r in sys && Enabled(sys, r, e, once)
    ensures ReplicaInv(c, Proposed(sys), r, Handle(sys[r], e), once)
  {
    hide HandleOrderRequest, WithinChain, Linked, WellFormed, ExecutionOk, HoldsFrom, Exact, Proposed;
    var s, blocks := sys[r], Proposed(sys);
    assert ReplicaInv(c, blocks, r, s, once);
    match e
    case OrderRequestArrives(m) =>
      ProposedHas(c, sys, m, once);
      OrderRequestKeeps(c, blocks, r, s, m, once);
    case _ => QuietKeeps(c, blocks, r, s, Handle(s, e), once);
  }

  lemma ProposedHas(c: Config, sys: System, m: OrderRequest, once: bool)
    requires Inv(c, sys, once) && m in sys[PRIMARY].sentOrderRequests
    ensures m.block in Proposed(sys) && Linked(Proposed(sys))
  {
    var sent := sys[PRIMARY].sentOrderRequests;
    var i :| 0 <= i < |sent| && sent[i] == m;
    assert BlocksOf(sent)[i] == m.block;
  }

  // ---------- one step ----------

  lemma PrimaryStep(s: State, e: Event)
    requires WellFormed(s) && PrimaryInv(s)
    ensures PrimaryInv(Handle(s, e))
  {
    hide WellFormed, HandleOrderRequest, Linked;
    var s' := Handle(s, e);
    match e
    case RequestArrives(request) =>
      if s' != s {
        AcceptKeepsOrder(s.chain, s.requests, s.accepted, BlocksOf(s.sentOrderRequests), request);
      }
    case Pace =>
      if s' != s {
        ProposeKeepsOrder(s.chain, s.requests, s.accepted, BlocksOf(s.sentOrderRequests));
        assert s'.sentOrderRequests[..|s.sentOrderRequests|] == s.sentOrderRequests;
      }
    case _ =>
  }

  lemma SentMore(s: State, e: Event)
    requires WellFormed(s)
    ensures s.sentOrderRequests <= Handle(s, e).sentOrderRequests
  {
    hide WellFormed, HandleOrderRequest;
  }

  lemma BlocksOfMore(sent: seq<OrderRequest>, sent': seq<OrderRequest>)
    requires sent <= sent'
    ensures BlocksOf(sent) <= BlocksOf(sent')
  {
    forall i | 0 <= i < |sent| ensures BlocksOf(sent)[i] == BlocksOf(sent')[i] {
      assert sent'[i] == sent[i];
    }
  }

  lemma FollowsMore(blocks: seq<Block>, blocks': seq<Block>, s: State, committed: set<nat>)
    requires ChainFollows(blocks, s, committed) && blocks <= blocks'
    ensures ChainFollows(blocks', s, committed)
  {
    hide Reassembles;
    ReassemblesMore(s.chain, blocks, blocks', committed, |s.executed|);
    forall d | d in s.orderRequests ensures AtOneOf(blocks', committed, d) {
      assert AtOneOf(blocks, committed, d);
    }
  }

  lemma ReplicaInvGrows(c: Config, blocks: seq<Block>, blocks': seq<Block>, r: ReplicaIndex, s: State, once: bool)
    requires ReplicaInv(c, blocks, r, s, once) && blocks <= blocks'
    ensures ReplicaInv(c, blocks', r, s, once)
  {
    hide WellFormed, ExecutionOk, ChainFollows, WithinChain;
    WithinMore(s.chain, blocks, blocks', |s.executed|);
    if once {
      var committed :| ChainFollows(blocks, s, committed);
      FollowsMore(blocks, blocks', s, committed);
    }
  }

  lemma StepKeeps(c: Config, sys: System, sys': System, once: bool)
    requires Inv(c, sys, once) && Next(sys, sys', once)
    ensures Inv(c, sys', once)
  {
    hide WellFormed, ReplicaInv, PrimaryInv, Enabled, Handle, ValidConfig;
    var r, e :| StepBy(sys, sys', r, e, once);
    HandleReplicaInv(c, sys, r, e, once);
    SentMore(sys[r], e);
    if r == PRIMARY {
      PrimaryStep(sys[r], e);
    }
    BlocksOfMore(sys[PRIMARY].sentOrderRequests, sys'[PRIMARY].sentOrderRequests);
    forall q | q in sys' ensures ReplicaInv(c, Proposed(sys'), q, sys'[q], once) {
      assert ReplicaInv(c, Proposed(sys), q, sys'[q], once);
      ReplicaInvGrows(c, Proposed(sys), Proposed(sys'), q, sys'[q], once);
    }
  }

  lemma InitReplicaInv(c: Config, r: ReplicaIndex, once: bool)
    requires ValidConfig(c)
    ensures ReplicaInv(c, [], r, Init(c.n, r), once)
  {
    var s := Init(c.n, r);
    assert Flatten([]) == [];
    assert Reassembles(s.chain, [], {}, 0);
    assert ChainFollows([], s, {});
  }

  lemma InitInv(c: Config, once: bool)
    requires CorrectPrimary(c)
    ensures Inv(c, InitSystem(c), once)
  {
    hide ReplicaInv;
    var sys := InitSystem(c);
    assert BlocksOf([]) == [] && Flatten([]) == [];
    forall r | r in sys ensures ReplicaInv(c, Proposed(sys), r, sys[r], once) {
      InitReplicaInv(c, r, once);
    }
  }

  lemma {:induction false} RunInv(c: Config, run: seq<System>, once: bool)
    requires CorrectPrimary(c) && IsRun(c, run, once)
    ensures Inv(c, run[|run| - 1], once)
    decreases |run|
  {
    hide Inv, Next;
    if |run| == 1 {
      InitInv(c, once);
    } else {
      var shorter := run[..|run| - 1];
      forall i | 0 <= i < |shorter| - 1 ensures Next(shorter[i], shorter[i + 1], once) {
        assert Next(run[i], run[i + 1], once);
      }
      assert Next(run[|run| - 2], run[|run| - 1], once);
      RunInv(c, shorter, once);
      StepKeeps(c, run[|run| - 2], run[|run| - 1], once);
    }
  }
}
