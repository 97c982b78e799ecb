/** What HotStuff, Neo and Zyzzyva clients accept, end to end. */
module ClientResults {
  // Each result handed to a caller is the result its request has in the log that some correct replica has
  // executed (for Zyzzyva, in the primary's order), and the executed logs of correct replicas are prefixes
  // of one another.

  import opened Blocks
  import opened Quorums
  import QuorumClient
  import HotStuff
  import HotStuffRuns
  import HotStuffExecution
  import Neo
  import NeoRuns
  import NeoSystem
  import NeoAgreement
  import Zyzzyva
  import ZyzzyvaRuns
  import ZyzzyvaOrder
  import Client = ZyzzyvaClient
  import ClientRuns = ZyzzyvaClientRuns

  lemma SomeBacker<Key(!new)>(
      c: Config, said: set<QuorumClient.Reply<Key>>, threshold: nat, num: nat, key: Key)
    returns (m: QuorumClient.Reply<Key>)
    requires ValidConfig(c) && threshold > c.f && QuorumClient.Backed(c.faulty, said, threshold, (num, key))
    ensures m in said && m.requestNum == num && m.key == key
  {
    var r :| r in QuorumClient.Backers(said, num, key);
    m :| m in said && m.requestNum == num && m.key == key && m.replica == r;
  }

  // ---------- HotStuff: f + 1 replies with the same result ----------

  ghost predicate HotStuffSaid(
      sys: HotStuffRuns.System, client: ClientIndex, said: set<QuorumClient.Reply<Result>>)
  {
    forall m :: m in said ==>
      && m.replica in sys
      && (client, HotStuff.Reply(m.requestNum, m.key, m.replica)) in sys[m.replica].sentReplies
  }

  /** Each result a HotStuff client hands to its caller is the one that its request with that number has
      in the log executed by some correct replica, run in order. */
  lemma HotStuffResult(
      c: Config, run: seq<HotStuffRuns.System>, client: ClientIndex, said: set<QuorumClient.Reply<Result>>,
      events: seq<QuorumClient.Event<Result>>, i: nat)
    returns (r: ReplicaIndex)
    requires ValidConfig(c) && HotStuffRuns.IsRun(c, run) && HotStuffSaid(run[|run| - 1], client, said)
    requires QuorumClient.GenuineEvents(c.faulty, said, events)
    requires i < |QuorumClient.After(QuorumClient.Init<Result>(c.f + 1, QuorumClient.Exactly), events).completed|
    ensures
      var done := QuorumClient.After(QuorumClient.Init<Result>(c.f + 1, QuorumClient.Exactly), events).completed[i];
      && r in Correct(c) && r in run[|run| - 1]
      && done.0 == i + 1
      && IsResult(Flatten(run[|run| - 1][r].executed), client, i + 1, done.1)
  {
    hide HotStuffRuns.ReplicaInv, HotStuffRuns.Next;
    QuorumClient.AcceptsOnlyBackedResults(c.faulty, said, c.f + 1, QuorumClient.Exactly, events);
    var done := QuorumClient.After(QuorumClient.Init<Result>(c.f + 1, QuorumClient.Exactly), events).completed[i];
    var m := SomeBacker(c, said, c.f + 1, i + 1, done.1);
    r := m.replica;
    HotStuffRuns.RunInv(c, run);
    HotStuffExecution.RepliesFollowTheLog(c, run, r);
    assert HotStuffExecution.ExecutionOk(run[|run| - 1][r]);
  }

  // ---------- Neo: n - f replies with the same epoch, sequence number and result ----------

  type NeoKey = (nat, nat, Result)

  ghost predicate NeoSaid(sys: NeoSystem.System, client: ClientIndex, said: set<QuorumClient.Reply<NeoKey>>) {
    forall m :: m in said ==>
      && m.replica in sys
      && (client, Neo.Reply(m.requestNum, m.key.2, m.key.0, m.key.1, m.replica)) in sys[m.replica].sentReplies
  }

  /** Each result a Neo client hands to its caller was sent by n - 2f correct replicas, and is the one its
      request with that number has in the log executed by one of them. */
  lemma NeoResult(
      c: Config, run: seq<NeoSystem.System>, client: ClientIndex, said: set<QuorumClient.Reply<NeoKey>>,
      events: seq<QuorumClient.Event<NeoKey>>, i: nat)
    returns (r: ReplicaIndex)
    requires ValidConfig(c) && NeoSystem.IsRun(c, run) && NeoSaid(run[|run| - 1], client, said)
    requires QuorumClient.GenuineEvents(c.faulty, said, events)
    requires i < |QuorumClient.After(QuorumClient.Init<NeoKey>(c.n - c.f, QuorumClient.AtLeast), events).completed|
    ensures
      var done := QuorumClient.After(QuorumClient.Init<NeoKey>(c.n - c.f, QuorumClient.AtLeast), events).completed[i];
      && r in Correct(c) && r in run[|run| - 1]
      && done.0 == i + 1
      && |QuorumClient.Backers(said, i + 1, done.1)| >= c.n - 2 * c.f
      && IsResult(NeoAgreement.Executed(run[|run| - 1][r]), client, i + 1, done.1.2)
  {
    QuorumClient.AcceptsOnlyBackedResults(c.faulty, said, c.n - c.f, QuorumClient.AtLeast, events);
    var done := QuorumClient.After(QuorumClient.Init<NeoKey>(c.n - c.f, QuorumClient.AtLeast), events).completed[i];
    var m := SomeBacker(c, said, c.n - c.f, i + 1, done.1);
    r := m.replica;
    NeoSystem.RunInv(c, run);
    NeoAgreement.Agreement(c, run, r, r);
    NeoReplyResult(run[|run| - 1][r], client, m);
  }

  lemma NeoReplyResult(s: Neo.State, client: ClientIndex, m: QuorumClient.Reply<NeoKey>)
    requires NeoRuns.ExecutedUpTo(s, s.confirmedNum)
    requires (client, Neo.Reply(m.requestNum, m.key.2, m.key.0, m.key.1, m.replica)) in s.sentReplies
    ensures s.confirmedNum <= |s.requests| && IsResult(NeoAgreement.Executed(s), client, m.requestNum, m.key.2)
  {
    var k := s.confirmedNum;
    var j: nat :| j < k && s.sentReplies[j] == (client, Neo.Reply(m.requestNum, m.key.2, m.key.0, m.key.1, m.replica));
    assert s.sentReplies[j] == NeoRuns.ReplyAt(s.requests, j, s.index);
    var log := NeoAgreement.Executed(s);
    assert s.requests[..j + 1] == s.requests[..k][..j + 1];
    assert ResultAt(log, client, m.requestNum, m.key.2, j);
  }

  // ---------- Zyzzyva: n matching responses, or n - f of them and n - f local commits ----------

  lemma ZyzzyvaResponder(
      c: Config, said: set<Zyzzyva.SpecResponse>, client: ClientIndex, done: Client.Completion)
    returns (m: Zyzzyva.SpecResponse)
    requires ValidConfig(c) && ClientRuns.CompletionOk(c, said, client, done)
    ensures m in said && ClientRuns.ProducedIn(client, done.num, done.digest, done.result, m)
  {
    var quorum := if done.path == Client.Fast then c.n else c.n - c.f;
    var m0 :|
      && ClientRuns.ProducedIn(client, done.num, done.digest, done.result, m0)
      && |ClientRuns.Responders(said, m0.block, m0.results)| + |c.faulty| >= quorum;
    var r :| r in ClientRuns.Responders(said, m0.block, m0.results);
    m :| m in said && m.block == m0.block && m.results == m0.results && m.replica == r;
  }

  /** With a correct primary, each result a Zyzzyva client hands to its caller is the one its request
      has in the order of the primary's chain, and the block it completes is on that chain. */
  lemma ZyzzyvaResult(
      c: Config, run: seq<ZyzzyvaRuns.System>, once: bool, said: set<Zyzzyva.SpecResponse>,
      saidCommits: set<Zyzzyva.LocalCommit>, client: ClientIndex, byzantine: bool,
      events: seq<ClientRuns.Event>, i: nat)
    requires CorrectPrimary(c) && ZyzzyvaRuns.IsRun(c, run, once) && ZyzzyvaRuns.Said(run[|run| - 1], said)
    requires ClientRuns.GenuineEvents(c, said, saidCommits, events)
    requires i < |ClientRuns.After(Client.InitClient(c.n, c.f, client, byzantine), events).completed|
    ensures
      var done := ClientRuns.After(Client.InitClient(c.n, c.f, client, byzantine), events).completed[i];
      var blocks := ZyzzyvaRuns.Proposed(run[|run| - 1]);
      && done.num == i + 1
      && done.digest.Sha256? && done.digest.block in blocks
      && IsResult(Flatten(blocks), client, i + 1, done.result)
  {
    hide ZyzzyvaRuns.Inv, ZyzzyvaRuns.Next, ZyzzyvaRuns.Proposed, ClientRuns.After, Flatten, IsResult;
    ClientRuns.AcceptsOnlyProducedResults(c, said, saidCommits, client, byzantine, events);
    var done := ClientRuns.After(Client.InitClient(c.n, c.f, client, byzantine), events).completed[i];
    var m := ZyzzyvaResponder(c, said, client, done);
    ZyzzyvaKeys(c, run, once);
    var s := run[|run| - 1][m.replica];
    var j :| 0 <= j < |s.sentResponses| && s.sentResponses[j].1 == m;
    ZyzzyvaOrder.ResponsesFollowTheLog(
      c, run, m.replica, s.sentResponses[j].0, m, Client.Position(m.block.requests, client, i + 1).value, once);
  }

  /** Requests are authenticated: one in the name of `client` is among those it sent. */
  ghost predicate ZyzzyvaRequestsGenuine(sys: ZyzzyvaRuns.System, client: ClientIndex, sent: seq<(nat, Op)>) {
    PRIMARY in sys &&
    forall i :: 0 <= i < |sys[PRIMARY].accepted| && sys[PRIMARY].accepted[i].client == client ==>
      (sys[PRIMARY].accepted[i].num, sys[PRIMARY].accepted[i].op) in sent
  }

  /** End to end: the result is that of the operation the client sent under that number, at a position of the one
      order of requests that the primary queued, run from the start. */
  lemma ZyzzyvaClientGetsLogResult(
      c: Config, run: seq<ZyzzyvaRuns.System>, once: bool, said: set<Zyzzyva.SpecResponse>,
      saidCommits: set<Zyzzyva.LocalCommit>, client: ClientIndex, byzantine: bool,
      events: seq<ClientRuns.Event>, i: nat)
    returns (k: nat)
    requires CorrectPrimary(c) && ZyzzyvaRuns.IsRun(c, run, once) && ZyzzyvaRuns.Said(run[|run| - 1], said)
    requires ClientRuns.GenuineEvents(c, said, saidCommits, events)
    requires
      var s := ClientRuns.After(Client.InitClient(c.n, c.f, client, byzantine), events);
      i < |s.completed| && ZyzzyvaRequestsGenuine(run[|run| - 1], client, s.sent)
    ensures
      var s := ClientRuns.After(Client.InitClient(c.n, c.f, client, byzantine), events);
      var log := run[|run| - 1][PRIMARY].accepted;
      && |s.completed| <= |s.sent| && s.completed[i].num == i + 1 == s.sent[i].0
      && k < |log| && log[k] == Request(client, i + 1, s.sent[i].1)
      && s.completed[i].result == Ran(log[..k + 1])
  {
    hide ZyzzyvaRuns.Inv, ZyzzyvaRuns.Next, ZyzzyvaRuns.Proposed, ClientRuns.After, Flatten, Ran, ZyzzyvaRuns.Said;
    ZyzzyvaResult(c, run, once, said, saidCommits, client, byzantine, events, i);
    ClientRuns.AcceptsOnlyProducedResults(c, said, saidCommits, client, byzantine, events);
    ZyzzyvaOrder.RequestsConserved(c, run, PRIMARY, PRIMARY, once);
    var s := ClientRuns.After(Client.InitClient(c.n, c.f, client, byzantine), events);
    var log, blocks := run[|run| - 1][PRIMARY].accepted, Flatten(ZyzzyvaRuns.Proposed(run[|run| - 1]));
    k :| ResultAt(blocks, client, i + 1, s.completed[i].result, k);
    assert log[..k + 1] == blocks[..k + 1];
    assert (log[k].num, log[k].op) in s.sent;
  }

  lemma ZyzzyvaKeys(c: Config, run: seq<ZyzzyvaRuns.System>, once: bool)
    requires CorrectPrimary(c) && ZyzzyvaRuns.IsRun(c, run, once)
    ensures run[|run| - 1].Keys == Correct(c)
  {
    hide ZyzzyvaRuns.ReplicaInv, ZyzzyvaRuns.Next;
    ZyzzyvaRuns.RunInv(c, run, once);
  }

  /** The correct replicas that hold the order request for the block of `digest`. */
  ghost function Holders(sys: ZyzzyvaRuns.System, digest: Digest): set<ReplicaIndex> {
    set r | r in sys && digest in sys[r].orderRequests
  }

  /** With a correct primary, a block completed on the commit path by a client that does not turn to
      another block while holding local commits is held by at least n - 2f correct replicas. */
  lemma ZyzzyvaSlowPathIsHeld(
      c: Config, run: seq<ZyzzyvaRuns.System>, once: bool, said: set<Zyzzyva.SpecResponse>,
      saidCommits: set<Zyzzyva.LocalCommit>, client: ClientIndex, byzantine: bool,
      events: seq<ClientRuns.Event>, i: nat)
    requires CorrectPrimary(c) && ZyzzyvaRuns.IsRun(c, run, once) && ZyzzyvaRuns.Acknowledged(run[|run| - 1], saidCommits)
    requires ClientRuns.GenuineEvents(c, said, saidCommits, events)
    requires ClientRuns.Undisturbed(Client.InitClient(c.n, c.f, client, byzantine), events)
    requires i < |ClientRuns.After(Client.InitClient(c.n, c.f, client, byzantine), events).completed|
    ensures
      var done := ClientRuns.After(Client.InitClient(c.n, c.f, client, byzantine), events).completed[i];
      done.path == Client.Slow ==> |Holders(run[|run| - 1], done.digest)| >= c.n - 2 * c.f
  {
    hide ZyzzyvaRuns.Next, ZyzzyvaRuns.Proposed, ClientRuns.After, ClientRuns.Undisturbed;
    ClientRuns.SlowPathIsConfirmed(c, said, saidCommits, client, byzantine, events);
    var done := ClientRuns.After(Client.InitClient(c.n, c.f, client, byzantine), events).completed[i];
    assert ClientRuns.Confirmed(c, saidCommits, done);
    ZyzzyvaKeys(c, run, once);
    ConfirmersHold(c, run, once, saidCommits, done.digest);
  }

  lemma ConfirmersHold(
      c: Config, run: seq<ZyzzyvaRuns.System>, once: bool, saidCommits: set<Zyzzyva.LocalCommit>, digest: Digest)
    requires CorrectPrimary(c) && ZyzzyvaRuns.IsRun(c, run, once) && ZyzzyvaRuns.Acknowledged(run[|run| - 1], saidCommits)
    ensures |ClientRuns.Confirmers(saidCommits, digest)| <= |Holders(run[|run| - 1], digest)|
  {
    hide ZyzzyvaRuns.Next, ZyzzyvaRuns.Proposed;
    ZyzzyvaKeys(c, run, once);
    var sys := run[|run| - 1];
    forall r | r in ClientRuns.Confirmers(saidCommits, digest) ensures r in Holders(sys, digest) {
      var m :| m in saidCommits && m.digest == digest && m.replica == r;
      var i :| 0 <= i < |sys[r].sentLocalCommits| && sys[r].sentLocalCommits[i].1 == m;
      ZyzzyvaOrder.LocalCommitsAreForHeldBlocks(c, run, r, i, once);
    }
    SubsetSize(ClientRuns.Confirmers(saidCommits, digest), Holders(sys, digest));
  }
}
