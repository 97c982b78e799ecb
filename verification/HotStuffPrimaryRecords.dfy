/** What the proposals of a correct HotStuff primary record, in runs whatever faulty replicas propose:
    their certificates hold genuine votes.

    And while every proposal taken passes the guard: the blocks proposed so far and the queue
    are, in order, all requests the primary has queued. */
module HotStuffPrimaryRecords {
  import opened Blocks
  import opened Quorums
  import opened Chains
  import opened HotStuff
  import opened HotStuffRuns
  import opened HotStuffPrimarySteps

  // ---------- votes ----------

  ghost predicate StoredGenuine(c: Config, sys: System, s: State) {
    forall d, r :: d in s.votes && r in s.votes[d] ==> ShownBy(c, sys, s.votes[d][r])
  }

  ghost predicate CertificateGenuine(c: Config, sys: System, g: Generic) {
    forall v :: v in g.certificate ==> ShownBy(c, sys, v)
  }

  /** Each vote in a certificate of the primary is one of a faulty replica or was cast. */
  ghost predicate CertificatesGenuine(c: Config, u: Setup)
    requires PRIMARY in u.replicas
  {
    forall g :: g in Proposals(u) ==> CertificateGenuine(c, u.replicas, g)
  }

  ghost predicate VotesInv(c: Config, u: Setup) {
    && PRIMARY in u.replicas
    && (forall r :: r in u.replicas ==> StoredGenuine(c, u.replicas, u.replicas[r]))
    && CertificatesGenuine(c, u)
  }

  lemma ShownLater(c: Config, sys: System, sys': System, v: Vote)
    requires ShownBy(c, sys, v) && VotesKept(sys, sys')
    ensures ShownBy(c, sys', v)
  {
  }

  /** No step takes a vote back. */
  ghost predicate VotesKept(sys: System, sys': System) {
    forall r, d :: Voted(sys, r, d) ==> Voted(sys', r, d)
  }

  lemma StoredLater(c: Config, sys: System, sys': System, s: State)
    requires StoredGenuine(c, sys, s) && VotesKept(sys, sys')
    ensures StoredGenuine(c, sys', s)
  {
    hide ShownBy, VotesKept;
    forall d, r | d in s.votes && r in s.votes[d] ensures ShownBy(c, sys', s.votes[d][r]) {
      ShownLater(c, sys, sys', s.votes[d][r]);
    }
  }

  lemma InsertVotes(s: State, g: Generic)
    requires WellFormed(s) && g.block.parent in s.generics && g.certified in s.generics
    ensures s.sentVotes <= InsertGeneric(s, g).sentVotes
  {
    InsertedOk(s, g);
    var s1 := VoteFor(s.(generics := s.generics[Sha256(g.block) := g]), g);
    assert InsertGeneric(s, g).sentVotes == s1.sentVotes;
  }

  lemma {:induction false} ReorderVotes(s: State, g: Generic)
    requires WellFormed(s)
    ensures s.sentVotes <= Reorder(s, g).sentVotes
    decreases Buffered(s.reordering) + 1, 0, 0
  {
    hide WellFormed;
    if s.status.Running? && g.block.parent in s.generics && g.certified in s.generics {
      var inserted := InsertGeneric(s, g);
      InsertVotes(s, g);
      if inserted.status.Running? && Sha256(g.block) in inserted.reordering {
        BufferedWithout(s.reordering, Sha256(g.block));
        ReorderAllVotes(Released(inserted, Sha256(g.block)), inserted.reordering[Sha256(g.block)]);
      }
    }
  }

  lemma {:induction false} ReorderAllVotes(s: State, gs: seq<Generic>)
    requires WellFormed(s)
    ensures s.sentVotes <= ReorderAll(s, gs).sentVotes
    decreases Buffered(s.reordering) + |gs|, 1, |gs|
  {
    hide WellFormed;
    if gs != [] {
      ReorderVotes(s, gs[0]);
      ReorderAllVotes(Reorder(s, gs[0]), gs[1..]);
    }
  }

  /** What a step can do to votes and certificates. */
  lemma ActVotes(c: Config, u: Setup, r: ReplicaIndex, a: Action)
    requires PRIMARY in u.replicas && r in u.replicas && r in u.delivered && WellFormed(u.replicas[r])
    requires u.replicas[r].index == r && Possible(c, u, r, a) && StoredGenuine(c, u.replicas, u.replicas[r])
    ensures
      var s, s' := u.replicas[r], Act(u.replicas[r], a, Proposals(u));
      && s.sentVotes <= s'.sentVotes
      && StoredGenuine(c, u.replicas, s')
      && forall g :: g in s'.sentGenerics && g !in s.sentGenerics ==> CertificateGenuine(c, u.replicas, g)
  {
    hide ShownBy, WellFormed;
    var s, gs := u.replicas[r], Proposals(u);
    match a
    case TakeRequest(request) =>
    case TakeVote(v) =>
    case TakeProposal(j) => ReorderVotes(s, gs[j]);
    case TakeOwn(j) =>
      if s.status.Running? {
        assert gs[j].block.parent in s.generics && gs[j].certified in s.generics by { OwnIsInsertable(s, gs[j]); }
        InsertVotes(s, gs[j]);
      }
    case TakeOther(g) => ReorderVotes(s, g);
    case Tick =>
  }

  lemma OwnIsInsertable(s: State, g: Generic)
    requires WellFormed(s) && g in s.sentGenerics
    ensures g.block.parent in s.generics && g.certified in s.generics
  {
  }

  lemma MoveKeepsVotes(c: Config, u: Setup, u': Setup, r: ReplicaIndex, a: Action)
    requires VotesInv(c, u) && ActionBy(c, u, u', r, a)
    ensures VotesInv(c, u')
  {
    hide StoredGenuine, CertificateGenuine, Act, Possible, WellFormed;
    ActVotes(c, u, r, a);
    assert VotesKept(u.replicas, u'.replicas);
    forall q | q in u'.replicas ensures StoredGenuine(c, u'.replicas, u'.replicas[q]) {
      assert StoredGenuine(c, u.replicas, u.replicas[q]);
      StoredLater(c, u.replicas, u'.replicas, u'.replicas[q]);
    }
    forall g | g in Proposals(u') ensures CertificateGenuine(c, u'.replicas, g) {
      assert CertificateGenuine(c, u.replicas, g);
      CertificateLater(c, u.replicas, u'.replicas, g);
    }
  }

  lemma CertificateLater(c: Config, sys: System, sys': System, g: Generic)
    requires CertificateGenuine(c, sys, g) && VotesKept(sys, sys')
    ensures CertificateGenuine(c, sys', g)
  {
    hide ShownBy, VotesKept;
    forall v | v in g.certificate ensures ShownBy(c, sys', v) {
      ShownLater(c, sys, sys', v);
    }
  }

  lemma {:induction false} HistoryVotes(c: Config, history: seq<Setup>, moves: seq<Move>)
    requires ValidConfig(c) && PRIMARY in Correct(c) && IsHistory(c, history, moves)
    ensures VotesInv(c, history[|history| - 1])
    decreases |moves|
  {
    hide ActionBy;
    if moves != [] {
      var last := |moves| - 1;
      ShorterHistory(c, history, moves, last);
      HistoryVotes(c, history[..last + 1], moves[..last]);
      assert MoveAt(c, history, moves, last);
      MoveKeepsVotes(c, history[last], history[last + 1], moves[last].0, moves[last].1);
    }
  }

  // ---------- requests ----------

  ghost predicate BatchAt(gs: seq<Generic>, i: nat)
    requires i < |gs|
  {
    |gs[i].block.requests| <= MAX_BATCH_SIZE
  }

  /** Everything queued is in a block of at most 100 requests or still in the queue, in order. */
  ghost predicate RequestsInv(u: Setup) {
    && PRIMARY in u.replicas
    && Flatten(BlocksOf(Proposals(u))) + u.replicas[PRIMARY].requests == u.queued
    && forall i: nat :: i < |Proposals(u)| ==> BatchAt(Proposals(u), i)
  }

  /** Handlers other than those for requests and paces leave queue and proposals alone. */
  lemma {:induction false} ReorderQueue(s: State, g: Generic)
    requires WellFormed(s)
    ensures Reorder(s, g).requests == s.requests
    decreases Buffered(s.reordering) + 1, 0, 0
  {
    hide WellFormed;
    if s.status.Running? && g.block.parent in s.generics && g.certified in s.generics {
      var inserted := InsertGeneric(s, g);
      if inserted.status.Running? && Sha256(g.block) in inserted.reordering {
        BufferedWithout(s.reordering, Sha256(g.block));
        ReorderAllQueue(Released(inserted, Sha256(g.block)), inserted.reordering[Sha256(g.block)]);
      }
    }
  }

  lemma {:induction false} ReorderAllQueue(s: State, gs: seq<Generic>)
    requires WellFormed(s)
    ensures ReorderAll(s, gs).requests == s.requests
    decreases Buffered(s.reordering) + |gs|, 1, |gs|
  {
    hide WellFormed;
    if gs != [] {
      ReorderQueue(s, gs[0]);
      ReorderAllQueue(Reorder(s, gs[0]), gs[1..]);
    }
  }

  /** What a step of the primary does to queue and proposals. */
  lemma ActQueue(u: Setup, a: Action)
    requires PRIMARY in u.replicas && WellFormed(u.replicas[PRIMARY]) && u.replicas[PRIMARY].index == PRIMARY
    requires u.replicas[PRIMARY].status.Running?
    requires a.TakeProposal? || a.TakeOwn? ==> a.number < |Proposals(u)|
    requires a.Tick? ==> u.replicas[PRIMARY].digestCertified in u.replicas[PRIMARY].votes
    ensures
      var s, s' := u.replicas[PRIMARY], Act(u.replicas[PRIMARY], a, Proposals(u));
      || (s'.sentGenerics == s.sentGenerics && s'.requests == s.requests + QueuedBy(PRIMARY, s, a))
      || (Batched(s, s') && QueuedBy(PRIMARY, s, a) == [])
  {
    hide WellFormed;
    var s := u.replicas[PRIMARY];
    match a
    case TakeRequest(request) =>
    case TakeVote(v) =>
    case TakeProposal(j) => ReorderQueue(s, Proposals(u)[j]);
    case TakeOwn(j) =>
    case TakeOther(g) => ReorderQueue(s, g);
    case Tick =>
      if OnPace(s) != s {
        var g := OnPace(s).sentGenerics[|s.sentGenerics|];
        assert BatchedIn(s, OnPace(s), g);
      }
  }

  ghost predicate BatchedIn(s: State, s': State, g: Generic) {
    && s'.sentGenerics == s.sentGenerics + [g]
    && g.block.requests + s'.requests == s.requests && |g.block.requests| <= MAX_BATCH_SIZE
  }

  /** One more proposal, whose block takes a batch off the queue. */
  ghost predicate Batched(s: State, s': State) {
    exists g :: BatchedIn(s, s', g)
  }

  lemma BatchKeepsRequests(gs: seq<Generic>, g: Generic, rest: seq<Request>)
    ensures Flatten(BlocksOf(gs + [g])) + rest == Flatten(BlocksOf(gs)) + (g.block.requests + rest)
  {
    var blocks := BlocksOf(gs + [g]);
    assert blocks[..|blocks| - 1] == BlocksOf(gs);
  }

  lemma MoveKeepsRequests(c: Config, u: Setup, u': Setup, r: ReplicaIndex, a: Action)
    requires SetupInv(c, u) && RequestsInv(u) && ActionBy(c, u, u', r, a)
    ensures RequestsInv(u')
  {
    hide Act, WellFormed, RequestsInv, Batched, QueuedBy, SetupInv;
    if r == PRIMARY {
      CertifiedHasVotes(c, u);
      ActQueue(u, a);
      var s, s' := u.replicas[PRIMARY], u'.replicas[PRIMARY];
      if s'.sentGenerics == s.sentGenerics && s'.requests == s.requests + QueuedBy(PRIMARY, s, a) {
        QueueMove(u, u', QueuedBy(PRIMARY, s, a));
      } else {
        BatchMove(u, u');
      }
    } else {
      OthersQueueNothing(r, u.replicas[r], a);
      QueueMove(u, u', []);
    }
  }

  lemma QueueMove(u: Setup, u': Setup, more: seq<Request>)
    requires RequestsInv(u) && PRIMARY in u'.replicas && Proposals(u') == Proposals(u)
    requires u'.replicas[PRIMARY].requests == u.replicas[PRIMARY].requests + more && u'.queued == u.queued + more
    ensures RequestsInv(u')
  {
  }

  lemma OthersQueueNothing(r: ReplicaIndex, s: State, a: Action)
    requires r != PRIMARY || !a.TakeRequest?
    ensures QueuedBy(r, s, a) == []
  {
  }

  lemma BatchMove(u: Setup, u': Setup)
    requires RequestsInv(u) && PRIMARY in u'.replicas && Batched(u.replicas[PRIMARY], u'.replicas[PRIMARY])
    requires u'.queued == u.queued
    ensures RequestsInv(u')
  {
    var s, s' := u.replicas[PRIMARY], u'.replicas[PRIMARY];
    var g :| BatchedIn(s, s', g);
    BatchKeepsRequests(Proposals(u), g, s'.requests);
    forall i: nat | i < |Proposals(u')| ensures BatchAt(Proposals(u'), i) {
      assert i < |Proposals(u)| ==> BatchAt(Proposals(u), i);
    }
  }

  lemma CertifiedHasVotes(c: Config, u: Setup)
    requires SetupInv(c, u)
    ensures u.replicas[PRIMARY].digestCertified in u.replicas[PRIMARY].votes
  {
    var s, gs := u.replicas[PRIMARY], Proposals(u);
    assert ReplicaFits(c, PRIMARY, s, gs, u.delivered[PRIMARY]);
    var k, waiting :| ReplicaAt(c, PRIMARY, s, gs, u.delivered[PRIMARY], k, waiting);
    var j :| PrimaryAt(s, gs, j);
  }

  lemma {:induction false} HistoryRequests(c: Config, history: seq<Setup>, moves: seq<Move>)
    requires ValidConfig(c) && PRIMARY in Correct(c) && IsHistory(c, history, moves) && AllGuarded(history, moves)
    ensures RequestsInv(history[|history| - 1])
    decreases |moves|
  {
    hide ActionBy, SetupInv, RequestsInv;
    if moves == [] {
      assert RequestsInv(Start(c)) by { StartRequests(c); }
    } else {
      var last := |moves| - 1;
      ShorterHistory(c, history, moves, last);
      HistoryRequests(c, history[..last + 1], moves[..last]);
      HistoryInv(c, history[..last + 1], moves[..last]);
      assert MoveAt(c, history, moves, last);
      MoveKeepsRequests(c, history[last], history[last + 1], moves[last].0, moves[last].1);
    }
  }

  lemma StartRequests(c: Config)
    requires PRIMARY in Correct(c)
    ensures RequestsInv(Start(c))
  {
    assert BlocksOf([]) == [] && Flatten([]) == [];
  }
}
