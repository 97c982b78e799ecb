/** What PBFT replicas answer and what a client accepts. */
module PbftExecution {
  // Every reply is the result of running the executed blocks in order, and a client that accepts f + 1
  // matching replies gets the result its own request has in the primary's order.

  import opened Blocks
  import opened Quorums
  import opened Chains
  import opened Pbft
  import opened PbftRuns
  import opened PbftAgreement
  import QuorumClient

  /** The reply answers request number i of the log, run in order. */
  ghost predicate Answers(log: seq<Request>, i: nat, index: ReplicaIndex, client: ClientIndex, reply: Reply) {
    reply.replica == index && ResultAt(log, client, reply.requestNum, reply.result, i)
  }

  /** The application has run `log`, and its requests have been answered, once each and in order. */
  ghost predicate AnswersOnly(s: State, log: seq<Request>) {
    && s.app == Ran(log)
    && |s.sentReplies| == |log|
    && forall i {:trigger s.sentReplies[i]} :: 0 <= i < |s.sentReplies| ==>
         Answers(log, i, s.index, s.sentReplies[i].0, s.sentReplies[i].1)
  }

  ghost predicate ExecutionOk(s: State) {
    AnswersOnly(s, Flatten(s.executed))
  }

  lemma RunOneAnswers(s: State, log: seq<Request>, request: Request, digest: Digest)
    requires AnswersOnly(s, log)
    ensures
      var reply := (request.client, Reply(request.num, s.app + [request.op], digest, s.index));
      AnswersOnly(s.(app := s.app + [request.op], sentReplies := s.sentReplies + [reply]), log + [request])
  {
    hide Ran;
    var log' := log + [request];
    var reply := Reply(request.num, s.app + [request.op], digest, s.index);
    var sent' := s.sentReplies + [(request.client, reply)];
    RanOneMore(log, request);
    forall i | 0 <= i < |sent'| ensures Answers(log', i, s.index, sent'[i].0, sent'[i].1) {
      if i < |s.sentReplies| {
        assert sent'[i] == s.sentReplies[i];
        assert log'[..i + 1] == log[..i + 1];
      } else {
        assert log'[..i + 1] == log';
      }
    }
  }

  lemma {:induction false} RunRequestsAnswers(s: State, log: seq<Request>, requests: seq<Request>, digest: Digest)
    requires AnswersOnly(s, log)
    ensures AnswersOnly(RunRequests(s, requests, digest), log + requests)
    decreases |requests|
  {
    hide AnswersOnly;
    if requests == [] {
      assert log + requests == log;
    } else {
      var request := requests[0];
      var reply := (request.client, Reply(request.num, s.app + [request.op], digest, s.index));
      RunOneAnswers(s, log, request, digest);
      RunRequestsAnswers(s.(app := s.app + [request.op], sentReplies := s.sentReplies + [reply]),
                         log + [request], requests[1..], digest);
      assert log + [request] + requests[1..] == log + requests;
    }
  }

  lemma RunBlockAnswers(s: State, block: Block, digest: Digest)
    requires ExecutionOk(s)
    ensures ExecutionOk(RunBlock(s, block, digest))
  {
    var executed := s.executed + [block];
    assert executed[..|executed| - 1] == s.executed;
    assert Flatten(executed) == Flatten(s.executed) + block.requests;
    RunRequestsAnswers(s.(executed := executed), Flatten(s.executed), block.requests, digest);
  }

  lemma SameExecution(s: State, s': State)
    requires ExecutionOk(s)
    requires s'.app == s.app && s'.sentReplies == s.sentReplies && s'.executed == s.executed && s'.index == s.index
    ensures ExecutionOk(s')
  {
  }

  lemma {:induction false} ExecuteFromAnswers(s: State, block: Block, digest: Digest)
    requires WellFormed(s) && ExecutionOk(s)
    ensures ExecutionOk(ExecuteFrom(s, block, digest))
    decreases |s.chain.pending|
  {
    hide RunBlock, ExecutionOk, ExecuteFrom, WellFormed;
    ExecuteFromStep(s, block, digest);
    RunBlockAnswers(s, block, digest);
    var (chain, next) := NextOf(s.chain);
    var s1 := RunBlock(s, block, digest).(chain := chain);
    SameExecution(RunBlock(s, block, digest), s1);
    if next.Some? {
      ExecuteFromAnswers(s1, s.prePrepares[next.value].block, digest);
    }
  }

  lemma CommitAnswers(s: State, m: Commit)
    requires WellFormed(s) && ExecutionOk(s)
    ensures ExecutionOk(InsertCommit(s, m))
  {
    hide ExecutionOk, ExecuteFrom;
    var s' := InsertCommit(s, m);
    var d := m.digest;
    var certificate' := CertificateOf(s.commitCertificates, d)[m.replica := m];
    var s1 := s.(commitCertificates := s.commitCertificates[d := certificate']);
    var filled := |CertificateOf(s.commitCertificates, d)| < s.n - s.f && |certificate'| >= s.n - s.f;
    if filled && d in s.prePrepares && CommitTo(s.chain, s.prePrepares[d].block).1 == Executable {
      var block := s.prePrepares[d].block;
      var s2 := s1.(chain := CommitTo(s.chain, block).0);
      SameExecution(s, s2);
      ExecuteFromAnswers(s2, block, d);
    } else {
      SameExecution(s, s');
    }
  }

  lemma HandleAnswers(s: State, e: Event)
    requires WellFormed(s) && ExecutionOk(s)
    ensures ExecutionOk(Handle(s, e))
  {
    hide ExecutionOk, WellFormed, InsertCommit, InsertPrepare;
    match e
    case CommitArrives(m) => CommitAnswers(s, m);
    case OwnCommitArrives(m) => CommitAnswers(s, m);
    case _ => SameExecution(s, Handle(s, e));
  }

  /** In every reachable state of every run, each correct replica's application state and every reply
      it has sent are those of running its executed blocks, in order, once each. */
  lemma {:induction false} RepliesFollowTheLog(c: Config, run: seq<System>, r: ReplicaIndex)
    requires CorrectPrimary(c) && IsRun(c, run) && r in Correct(c)
    ensures r in run[|run| - 1] && ExecutionOk(run[|run| - 1][r])
    decreases |run|
  {
    hide ExecutionOk, Handle, Enabled, WellFormed;
    RunInv(c, run);
    if |run| == 1 {
      InitAnswers(c, r);
    } else {
      RunWithoutLast(c, run);
      var sys, sys' := run[|run| - 2], run[|run| - 1];
      RepliesFollowTheLog(c, run[..|run| - 1], r);
      var q, e :| StepBy(c, sys, sys', q, e);
      if q == r {
        HandleAnswers(sys[r], e);
      }
    }
  }

  lemma InitAnswers(c: Config, r: ReplicaIndex)
    ensures ExecutionOk(Init(c.n, c.f, r))
  {
    assert Flatten([]) == [];
  }

  // ---------- the client ----------

  /** What a PBFT client compares: the block digest and the result. */
  type Key = (Digest, Result)

  /** Everything `said` was sent to `client` by a correct replica. */
  ghost predicate SaidBy(sys: System, client: ClientIndex, said: set<QuorumClient.Reply<Key>>) {
    forall m :: m in said ==>
      && m.replica in sys
      && (client, Reply(m.requestNum, m.key.1, m.key.0, m.replica)) in sys[m.replica].sentReplies
  }

  /** Requests are authenticated: one in the name of `client` is among those it sent. */
  ghost predicate RequestsGenuine(sys: System, client: ClientIndex, sent: seq<(nat, Op)>) {
    PRIMARY in sys &&
    forall i :: 0 <= i < |sys[PRIMARY].accepted| && sys[PRIMARY].accepted[i].client == client ==>
      (sys[PRIMARY].accepted[i].num, sys[PRIMARY].accepted[i].op) in sent
  }

  lemma ReplyIsLogResult(
      c: Config, run: seq<System>, client: ClientIndex, said: set<QuorumClient.Reply<Key>>, num: nat, key: Key)
    requires CorrectPrimary(c) && IsRun(c, run) && SaidBy(run[|run| - 1], client, said)
    requires |QuorumClient.Backers(said, num, key)| > 0
    ensures IsResult(Flatten(Proposed(run[|run| - 1])), client, num, key.1)
  {
    var sys := run[|run| - 1];
    var r :| r in QuorumClient.Backers(said, num, key);
    var m :| m in said && m.requestNum == num && m.key == key && m.replica == r;
    RunInv(c, run);
    RepliesFollowTheLog(c, run, r);
    ExecutedFromChain(c, sys, r);
    FlattenPrefix(sys[r].executed, Proposed(sys));
    IsResultLater(Flatten(sys[r].executed), Flatten(Proposed(sys)), client, num, key.1);
  }

  lemma BackedByCorrect(c: Config, said: set<QuorumClient.Reply<Key>>, num: nat, key: Key)
    requires ValidConfig(c) && QuorumClient.Backed(c.faulty, said, c.f + 1, (num, key))
    ensures |QuorumClient.Backers(said, num, key)| > 0
  {
  }

  /** End to end: whatever the replies that reach it, each result a client hands to its caller is the
      result that its request with that number, and the operation it sent under that number, has in
      the one order of requests that the primary queued, run from the start. */
  lemma ClientGetsLogResult(
      c: Config, run: seq<System>, client: ClientIndex, said: set<QuorumClient.Reply<Key>>,
      events: seq<QuorumClient.Event<Key>>, i: nat)
    returns (k: nat)
    requires CorrectPrimary(c) && IsRun(c, run) && SaidBy(run[|run| - 1], client, said)
    requires QuorumClient.GenuineEvents(c.faulty, said, events)
    requires
      var s := QuorumClient.After(QuorumClient.Init<Key>(c.f + 1, QuorumClient.Exactly), events);
      i < |s.completed| && RequestsGenuine(run[|run| - 1], client, s.sent)
    ensures
      var s := QuorumClient.After(QuorumClient.Init<Key>(c.f + 1, QuorumClient.Exactly), events);
      var log := run[|run| - 1][PRIMARY].accepted;
      && |s.completed| <= |s.sent| && s.completed[i].0 == i + 1 == s.sent[i].0
      && k < |log| && log[k] == Request(client, i + 1, s.sent[i].1)
      && s.completed[i].1.1 == Ran(log[..k + 1])
  {
    hide Inv, Next, Proposed, StatusOk, ExecutedOk, ChainFollows, Linked;
    var s := QuorumClient.After(QuorumClient.Init<Key>(c.f + 1, QuorumClient.Exactly), events);
    QuorumClient.AcceptsOnlyBackedResults(c.faulty, said, c.f + 1, QuorumClient.Exactly, events);
    BackedByCorrect(c, said, i + 1, s.completed[i].1);
    ReplyIsLogResult(c, run, client, said, i + 1, s.completed[i].1);
    RequestsConserved(c, run, PRIMARY);
    var log, blocks := run[|run| - 1][PRIMARY].accepted, Flatten(Proposed(run[|run| - 1]));
    k :| ResultAt(blocks, client, i + 1, s.completed[i].1.1, k);
    assert log[..k + 1] == blocks[..k + 1];
    assert (log[k].num, log[k].op) in s.sent;
  }
}
