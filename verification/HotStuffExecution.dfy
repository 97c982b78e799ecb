/** What HotStuff replicas answer to clients, over all runs: the application has run exactly the
    requests of the executed blocks in order, and every reply carries the result that this order
    gives. */
module HotStuffExecution {
  // Together with agreement on the executed blocks, correct replicas never give different results for the
  // same position of the log.

  import opened Blocks
  import opened Quorums
  import opened Chains
  import opened HotStuff
  import opened HotStuffRuns
  import opened HotStuffSafety

  /** `reply` is this replica's result for some request of `log` after running everything before it. */
  ghost predicate Answers(log: seq<Request>, index: ReplicaIndex, client: ClientIndex, reply: Reply) {
    reply.replica == index && IsResult(log, client, reply.requestNum, reply.result)
  }

  /** The reply to request number k of the log. */
  ghost function AnswerTo(log: seq<Request>, k: nat, index: ReplicaIndex): (ClientIndex, Reply)
    requires k < |log|
  {
    (log[k].client, Reply(log[k].num, Ran(log[..k + 1]), index))
  }

  type Sent = seq<(ClientIndex, Reply)>
  type Cache = map<ClientIndex, (nat, Option<Reply>)>

  ghost predicate IsAnswered(index: ReplicaIndex, sent: Sent, log: seq<Request>, k: nat)
    requires k < |log|
  {
    AnswerTo(log, k, index) in sent
  }

  /** Request k is the last one of its client in the log. */
  ghost predicate IsLatest(log: seq<Request>, k: nat) {
    k < |log| && forall j :: k < j < |log| ==> log[j].client != log[k].client
  }

  /** Its reply is cached, to be sent again, unless the client has sent a newer request since. */
  ghost predicate IsCached(index: ReplicaIndex, cache: Cache, log: seq<Request>, k: nat)
    requires k < |log|
  {
    var c := log[k].client;
    c in cache && (cache[c] == (log[k].num, Some(AnswerTo(log, k, index).1))
                   || (cache[c].1.None? && cache[c].0 > log[k].num))
  }

  ghost predicate AllAnswered(index: ReplicaIndex, sent: Sent, log: seq<Request>) {
    forall k: nat {:trigger IsAnswered(index, sent, log, k)} :: k < |log| ==> IsAnswered(index, sent, log, k)
  }

  ghost predicate AllCached(index: ReplicaIndex, cache: Cache, log: seq<Request>) {
    forall k: nat {:trigger IsCached(index, cache, log, k)} :: IsLatest(log, k) ==> IsCached(index, cache, log, k)
  }

  /** Everything sent or cached for clients answers a request of `log`, which is what has run. */
  ghost predicate AnswersOnly(s: State, log: seq<Request>) {
    && s.app == Ran(log)
    && AllAnswered(s.index, s.sentReplies, log) && AllCached(s.index, s.replies, log)
    && (forall i {:trigger s.sentReplies[i]} :: 0 <= i < |s.sentReplies| ==>
          Answers(log, s.index, s.sentReplies[i].0, s.sentReplies[i].1))
    && (forall c {:trigger s.replies[c]} :: c in s.replies && s.replies[c].1.Some? ==>
          Answers(log, s.index, c, s.replies[c].1.value))
  }

  ghost predicate ExecutionOk(s: State) {
    AnswersOnly(s, Flatten(s.executed))
  }

  lemma AnswersMore(log: seq<Request>, more: seq<Request>, index: ReplicaIndex, client: ClientIndex, reply: Reply)
    requires log <= more && Answers(log, index, client, reply)
    ensures Answers(more, index, client, reply)
  {
    IsResultLater(log, more, client, reply.requestNum, reply.result);
  }

  /** Running one request and answering it. */
  lemma RunOneAnswers(s: State, log: seq<Request>, request: Request)
    requires AnswersOnly(s, log)
    ensures
      var reply := Reply(request.num, s.app + [request.op], s.index);
      AnswersOnly(s.(app := s.app + [request.op],
                     replies := s.replies[request.client := (request.num, Some(reply))],
                     sentReplies := s.sentReplies + [(request.client, reply)]), log + [request])
  {
    hide IsResult, Ran, AllAnswered, AllCached;
    OneMoreAnswered(s.index, s.sentReplies, log, request);
    OneMoreCached(s.index, s.replies, log, request);
    var log' := log + [request];
    var reply := Reply(request.num, s.app + [request.op], s.index);
    assert log'[..|log| + 1] == log';
    var sent' := s.sentReplies + [(request.client, reply)];
    RanOneMore(log, request);
    forall i | 0 <= i < |sent'| ensures Answers(log', s.index, sent'[i].0, sent'[i].1) {
      if i < |s.sentReplies| {
        assert sent'[i] == s.sentReplies[i];
        AnswersMore(log, log', s.index, s.sentReplies[i].0, s.sentReplies[i].1);
      }
    }
    forall c | c in s.replies && s.replies[c].1.Some? ensures Answers(log', s.index, c, s.replies[c].1.value) {
      AnswersMore(log, log', s.index, c, s.replies[c].1.value);
    }
  }

  lemma AnswerToEarlier(log: seq<Request>, log': seq<Request>, k: nat, index: ReplicaIndex)
    requires log <= log' && k < |log|
    ensures AnswerTo(log', k, index) == AnswerTo(log, k, index)
  {
    assert log'[..k + 1] == log[..k + 1];
  }

  lemma OneMoreAnswered(index: ReplicaIndex, sent: Sent, log: seq<Request>, request: Request)
    requires AllAnswered(index, sent, log)
    ensures AllAnswered(index, sent + [AnswerTo(log + [request], |log|, index)], log + [request])
  {
    hide AnswerTo;
    var log' := log + [request];
    var sent' := sent + [AnswerTo(log', |log|, index)];
    forall k: nat | k < |log'| ensures IsAnswered(index, sent', log', k) {
      if k < |log| {
        AnswerToEarlier(log, log', k, index);
        assert IsAnswered(index, sent, log, k);
      }
    }
  }

  lemma OneMoreCached(index: ReplicaIndex, cache: Cache, log: seq<Request>, request: Request)
    requires AllCached(index, cache, log)
    ensures
      var answer := AnswerTo(log + [request], |log|, index).1;
      AllCached(index, cache[request.client := (request.num, Some(answer))], log + [request])
  {
    hide AnswerTo;
    var log' := log + [request];
    var cache' := cache[request.client := (request.num, Some(AnswerTo(log', |log|, index).1))];
    forall k: nat | IsLatest(log', k) ensures IsCached(index, cache', log', k) {
      if k < |log| {
        AnswerToEarlier(log, log', k, index);
        LatestBefore(log, request, k);
        assert IsCached(index, cache, log, k);
      }
    }
  }

  lemma LatestBefore(log: seq<Request>, request: Request, k: nat)
    requires IsLatest(log + [request], k) && k < |log|
    ensures IsLatest(log, k) && log[k].client != request.client
  {
    var log' := log + [request];
    assert log'[|log|] == request && forall j :: k <= j < |log| ==> log'[j] == log[j];
  }

  lemma {:induction false} RunRequestsAnswers(s: State, log: seq<Request>, requests: seq<Request>)
    requires AnswersOnly(s, log)
    ensures AnswersOnly(RunRequests(s, requests), log + requests)
    decreases |requests|
  {
    hide AnswersOnly;
    if requests == [] {
      assert log + requests == log;
    } else {
      var request := requests[0];
      var reply := Reply(request.num, s.app + [request.op], s.index);
      var s' := s.(app := s.app + [request.op],
                   replies := s.replies[request.client := (request.num, Some(reply))],
                   sentReplies := s.sentReplies + [(request.client, reply)]);
      RunOneAnswers(s, log, request);
      RunRequestsAnswers(s', log + [request], requests[1..]);
      assert log + [request] + requests[1..] == log + requests;
    }
  }

  lemma CommitBlockExecutes(s: State, block: Block)
    requires ExecutionOk(s)
    ensures ExecutionOk(CommitBlock(s, block))
  {
    if block.parent == s.chain.digestExecute {
      var executed := s.executed + [block];
      var chain := CommitTo(s.chain, block).0;
      assert executed[..|executed| - 1] == s.executed;
      RunRequestsAnswers(s.(chain := chain, executed := executed), Flatten(s.executed), block.requests);
    }
  }

  lemma SameExecution(s: State, s': State)
    requires ExecutionOk(s)
    requires s'.app == s.app && s'.replies == s.replies && s'.sentReplies == s.sentReplies
    requires s'.executed == s.executed && s'.index == s.index
    ensures ExecutionOk(s')
  {
  }

  lemma InsertExecutes(s: State, g: Generic)
    requires WellFormed(s) && g.block.parent in s.generics && g.certified in s.generics && ExecutionOk(s)
    ensures ExecutionOk(InsertGeneric(s, g))
  {
    InsertedOk(s, g);
    var d := Sha256(g.block);
    var s1 := s.(generics := s.generics[d := g]);
    var s2 := CertifyAndLock(VoteFor(s1, g), d);
    SameExecution(s, s2);
    if CommitTarget(s2.generics, d).Some? {
      CommitBlockExecutes(s2, s2.generics[CommitTarget(s2.generics, d).value].block);
    }
  }

  lemma {:induction false} ReorderExecutes(s: State, g: Generic)
    requires WellFormed(s) && ExecutionOk(s)
    ensures ExecutionOk(Reorder(s, g))
    decreases Buffered(s.reordering) + 1, 0, 0
  {
    if s.status.Running? && g.block.parent in s.generics && g.certified in s.generics {
      InsertExecutes(s, g);
      var inserted := InsertGeneric(s, g);
      var d := Sha256(g.block);
      if inserted.status.Running? && d in inserted.reordering {
        BufferedWithout(s.reordering, d);
        SameExecution(inserted, Released(inserted, d));
        ReorderAllExecutes(Released(inserted, d), inserted.reordering[d]);
      }
    }
  }

  lemma {:induction false} ReorderAllExecutes(s: State, gs: seq<Generic>)
    requires WellFormed(s) && ExecutionOk(s)
    ensures ExecutionOk(ReorderAll(s, gs))
    decreases Buffered(s.reordering) + |gs|, 1, |gs|
  {
    if gs != [] {
      ReorderExecutes(s, gs[0]);
      ReorderAllExecutes(Reorder(s, gs[0]), gs[1..]);
    }
  }

  lemma RequestExecutes(s: State, request: Request)
    requires ExecutionOk(s)
    ensures ExecutionOk(HandleRequest(s, request))
  {
    var s', log := HandleRequest(s, request), Flatten(s.executed);
    hide Answers, Flatten, Ran, AllAnswered, AllCached;
    RequestKeepsAnswers(s, request, log);
    forall i | 0 <= i < |s'.sentReplies| ensures Answers(log, s.index, s'.sentReplies[i].0, s'.sentReplies[i].1) {
      if i < |s.sentReplies| {
        assert s'.sentReplies[i] == s.sentReplies[i];
      } else {
        assert s.replies[request.client].1.Some?;
      }
    }
    forall c | c in s'.replies && s'.replies[c].1.Some? ensures Answers(log, s.index, c, s'.replies[c].1.value) {
      assert s.replies[c].1.Some?;
    }
  }

  lemma RequestKeepsAnswers(s: State, request: Request, log: seq<Request>)
    requires AllAnswered(s.index, s.sentReplies, log) && AllCached(s.index, s.replies, log)
    ensures
      var s' := HandleRequest(s, request);
      AllAnswered(s.index, s'.sentReplies, log) && AllCached(s.index, s'.replies, log)
  {
    hide AnswerTo, IsLatest;
    var s' := HandleRequest(s, request);
    forall k: nat | k < |log| ensures IsAnswered(s.index, s'.sentReplies, log, k) {
      assert IsAnswered(s.index, s.sentReplies, log, k);
    }
    forall k: nat | k < |log| && IsLatest(log, k) ensures IsCached(s.index, s'.replies, log, k) {
      assert IsCached(s.index, s.replies, log, k);
    }
    assert forall k: nat :: IsLatest(log, k) ==> k < |log| by { LatestIsIn(log); }
  }

  lemma LatestIsIn(log: seq<Request>)
    ensures forall k: nat :: IsLatest(log, k) ==> k < |log|
  {
  }

  lemma VoteExecutes(s: State, v: Vote)
    requires WellFormed(s) && ExecutionOk(s)
    ensures ExecutionOk(HandleVote(s, v))
  {
    hide ExecutionOk, WellFormed;
    SameExecution(s, HandleVote(s, v));
  }

  lemma PaceExecutes(s: State)
    requires WellFormed(s) && ExecutionOk(s)
    ensures ExecutionOk(OnPace(s))
  {
    hide ExecutionOk, WellFormed;
    SameExecution(s, OnPace(s));
  }

  lemma HandleExecutes(s: State, e: Event)
    requires WellFormed(s) && (e.OwnProposalArrives? ==> e.own in s.sentGenerics) && ExecutionOk(s)
    ensures ExecutionOk(Handle(s, e))
  {
    hide ExecutionOk, InsertGeneric, HandleRequest, HandleVote, OnPace;
    match e
    case RequestArrives(request) => RequestExecutes(s, request);
    case ProposalArrives(g) => ReorderExecutes(s, g);
    case OwnProposalArrives(g) =>
      if s.status.Running? {
        InsertExecutes(s, g);
      }
    case VoteArrives(v) => VoteExecutes(s, v);
    case Pace => PaceExecutes(s);
  }

  /** In every reachable state of every run, each correct replica's application state and every reply
      it has sent are those of running its executed blocks, in order, once each. */
  lemma {:induction false} RepliesFollowTheLog(c: Config, run: seq<System>, r: ReplicaIndex)
    requires ValidConfig(c) && IsRun(c, run) && r in Correct(c)
    ensures r in run[|run| - 1] && ExecutionOk(run[|run| - 1][r])
    decreases |run|
  {
    RunInv(c, run);
    if |run| == 1 {
      assert Flatten([]) == [];
    } else {
      RunWithoutLast(c, run);
      var sys, sys' := run[|run| - 2], run[|run| - 1];
      RepliesFollowTheLog(c, run[..|run| - 1], r);
      var q, e :| StepBy(c, sys, sys', q, e);
      if q == r {
        HandleExecutes(sys[r], e);
      }
    }
  }

  /** Two correct replicas give the same result for the same request position of the log. */
  lemma ResultsAgree(c: Config, run: seq<System>, q: ReplicaIndex, r: ReplicaIndex, k: nat)
    requires ValidConfig(c) && IsRun(c, run) && q in Correct(c) && r in Correct(c)
    requires q in run[|run| - 1] && k < |Flatten(run[|run| - 1][q].executed)|
    requires r in run[|run| - 1] && k < |Flatten(run[|run| - 1][r].executed)|
    ensures
      var a, b := Flatten(run[|run| - 1][q].executed), Flatten(run[|run| - 1][r].executed);
      a[k] == b[k] && Ran(a[..k + 1]) == Ran(b[..k + 1])
  {
    Agreement(c, run, q, r);
    var a, b := run[|run| - 1][q].executed, run[|run| - 1][r].executed;
    if a <= b {
      FlattenPrefix(a, b);
      assert Flatten(b)[..k + 1] == Flatten(a)[..k + 1];
    } else {
      FlattenPrefix(b, a);
      assert Flatten(a)[..k + 1] == Flatten(b)[..k + 1];
    }
  }

  /** In every run, a request that reaches a running replica whose log has it as the latest of its client, and that has
      accepted no newer one, is answered again with its result. */
  lemma RepeatIsAnswered(c: Config, run: seq<System>, r: ReplicaIndex, k: nat)
    requires ValidConfig(c) && IsRun(c, run) && r in Correct(c)
    requires r in run[|run| - 1] && run[|run| - 1][r].status.Running?
    requires
      var s := run[|run| - 1][r];
      var log := Flatten(s.executed);
      && IsLatest(log, k)
      && !(log[k].client in s.replies && s.replies[log[k].client].0 > log[k].num)
    ensures
      var s := run[|run| - 1][r];
      var log := Flatten(s.executed);
      HandleRequest(s, log[k]).sentReplies == s.sentReplies + [AnswerTo(log, k, r)]
  {
    hide Next, Flatten, Ran, ReplicaInv;
    RepliesFollowTheLog(c, run, r);
    var s := run[|run| - 1][r];
    var log := Flatten(s.executed);
    assert IsCached(s.index, s.replies, log, k);
    assert s.index == r by { IndexInRun(c, run, r); }
  }

  lemma IndexInRun(c: Config, run: seq<System>, r: ReplicaIndex)
    requires ValidConfig(c) && IsRun(c, run) && r in Correct(c)
    ensures r in run[|run| - 1] && run[|run| - 1][r].index == r
  {
    RunInv(c, run);
    assert ReplicaInv(c, run[|run| - 1], r, run[|run| - 1][r]);
  }
}
