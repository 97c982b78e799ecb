/** Exactly which insertions keep HotStuff replicas three behind a correct primary. */
module HotStuffInsertions {
  // What waits in a reorder buffer does no harm: copies of proposals of the primary, and proposals of faulty
  // replicas. Only when a proposal is inserted does it have to be the primary's, and new or of the first three
  // blocks. That is the guard `insert_generic` lacks.

  import opened Blocks
  import opened Quorums
  import opened Chains
  import opened HotStuff
  import opened HotStuffPrimarySteps
  import opened HotStuffPrimaryRecords

  /** A call of `insert_generic`: the state it finds, and the proposal. */
  datatype Insertion = Insertion(before: State, proposal: Generic)

  ghost predicate CanInsert(i: Insertion) {
    && WellFormed(i.before)
    && i.proposal.block.parent in i.before.generics && i.proposal.certified in i.before.generics
  }

  /** The insertions that `Reorder` makes, in order. */
  ghost function Inserts(s: State, g: Generic): (r: seq<Insertion>)
    requires WellFormed(s)
    ensures forall i :: i in r ==> CanInsert(i)
    decreases Buffered(s.reordering) + 1, 0, 0
  {
    if s.status.Panicked? || g.block.parent !in s.generics || g.certified !in s.generics then []
    else
      var inserted := InsertGeneric(s, g);
      [Insertion(s, g)] +
      if inserted.status.Running? && Sha256(g.block) in inserted.reordering then
        BufferedWithout(s.reordering, Sha256(g.block));
        InsertsAll(Released(inserted, Sha256(g.block)), inserted.reordering[Sha256(g.block)])
      else []
  }

  ghost function InsertsAll(s: State, gs: seq<Generic>): (r: seq<Insertion>)
    requires WellFormed(s)
    ensures forall i :: i in r ==> CanInsert(i)
    decreases Buffered(s.reordering) + |gs|, 1, |gs|
  {
    if gs == [] then [] else Inserts(s, gs[0]) + InsertsAll(Reorder(s, gs[0]), gs[1..])
  }

  /** The guard on the state before: the primary's, and not inserted yet or of the first three blocks. */
  ghost predicate MayInsert(i: Insertion) {
    && i.proposal.replica == PRIMARY
    && (Sha256(i.proposal.block) !in i.before.generics || i.proposal.block.height <= 3)
  }

  /** The replica is three behind, and nothing but a vote for an unknown block has stopped it. */
  ghost predicate Behindhand(s: State, gs: seq<Generic>) {
    ThreeBehind(s, gs) && OnlyVotesStop(s)
  }

  ghost predicate BehindhandAfter(i: Insertion, gs: seq<Generic>)
    requires CanInsert(i)
  {
    Behindhand(InsertGeneric(i.before, i.proposal), gs)
  }

  ghost predicate AllMay(inserts: seq<Insertion>) {
    forall i :: i in inserts ==> MayInsert(i)
  }

  ghost predicate AllBehindhand(inserts: seq<Insertion>, gs: seq<Generic>)
    requires forall i :: i in inserts ==> CanInsert(i)
  {
    forall i :: i in inserts ==> BehindhandAfter(i, gs)
  }

  // ---------- one insertion ----------

  /** A buffered proposal in the name of the primary is one of its proposals. */
  ghost predicate BufferGenuine(s: State, gs: seq<Generic>) {
    forall d :: d in s.reordering ==> Genuine(s.reordering[d], gs)
  }

  ghost predicate Genuine(some: seq<Generic>, gs: seq<Generic>) {
    forall g :: g in some && g.replica == PRIMARY ==> g in gs
  }

  /** What every insertion that passes the guard keeps; the buffer is arbitrary but genuine. */
  ghost predicate Good(s: State, gs: seq<Generic>, k: nat) {
    && WellFormed(s) && Entries(s, gs, k) && ExecutedBehind(s, gs, k) && VotedUpTo(s, gs, k)
    && VoteSetsOk(s) && (s.index == PRIMARY ==> PrimaryFits(s, gs))
  }

  lemma OtherIsNot(s: State, gs: seq<Generic>, d: Digest)
    requires OneChain(gs) && d in s.generics && d != GENESIS_DIGEST && s.generics[d].replica != PRIMARY
    ensures !Behindhand(s, gs)
  {
    hide OneChain;
    forall k: nat ensures !Entries(s, gs, k) {
      if Entries(s, gs, k) {
        EntryIsPrimarys(s, gs, k, d);
        assert false;
      }
    }
  }

  /** Of the primary's proposals, one of the first k or the next can be inserted. */
  lemma InsertableNumber(s: State, gs: seq<Generic>, k: nat, g: Generic) returns (j: nat)
    requires WellFormed(s) && OneChain(gs) && Entries(s, gs, k) && g in gs && g.block.parent in s.generics
    ensures j < |gs| && gs[j] == g && j <= k
    ensures Sha256(g.block) in s.generics <==> j < k
    ensures g.block.height == j + 1
  {
    hide WellFormed;
    var i :| 0 <= i < |gs| && gs[i] == g;
    j := i;
    assert ShapeAt(gs, j) && LinkAt(BlocksOf(gs), j);
    var up := NumberOf(s, gs, k, g.block.parent);
    if up != j {
      NumbersDiffer(gs, up, j);
      assert false;
    }
    if j < k {
      assert EntryAt(s, gs, j + 1);
    } else if Sha256(g.block) in s.generics {
      var at := NumberOf(s, gs, k, Sha256(g.block));
      NumbersDiffer(gs, at, j + 1);
      assert false;
    }
  }

  lemma InsertNew(s: State, gs: seq<Generic>, k: nat)
    requires OneChain(gs) && Good(s, gs, k) && s.status.Running? && k < |gs|
    ensures gs[k].block.parent in s.generics && gs[k].certified in s.generics
    ensures
      var s' := InsertGeneric(s, gs[k]);
      s'.status.Running? && Entries(s', gs, k + 1) && ExecutedBehind(s', gs, k + 1) && VotedUpTo(s', gs, k + 1)
  {
    hide VoteSetsOk, PrimaryFits, OneChain, VoteFor, Update, VotedUpTo;
    NextEntries(s, gs, k);
    VotesNext(s, gs, k);
    InsertedOk(s, gs[k]);
    var d := Sha256(gs[k].block);
    assert d == DigestAt(BlocksOf(gs), k + 1);
    var s1 := s.(generics := s.generics[d := gs[k]]);
    var s2 := VoteFor(s1, gs[k]);
    EntriesSame(s1, s2, gs, k + 1);
    ExecutesThreeBehind(s2, gs, k + 1);
    EntriesSame(s2, Update(s2, d), gs, k + 1);
  }

  /** One insertion leaves a replica three behind, and running, exactly when it passes the guard. */
  lemma InsertIff(s: State, gs: seq<Generic>, k: nat, g: Generic) returns (k': nat)
    requires OneChain(gs) && Good(s, gs, k) && s.status.Running? && CanInsert(Insertion(s, g))
    requires g.replica == PRIMARY ==> g in gs
    ensures MayInsert(Insertion(s, g)) <==> BehindhandAfter(Insertion(s, g), gs)
    ensures MayInsert(Insertion(s, g)) ==> InsertGeneric(s, g).status.Running? && Good(InsertGeneric(s, g), gs, k')
  {
    hide OneChain, Entries, VoteSetsOk, PrimaryFits, WellFormed, InsertGeneric, Behindhand;
    var s' := InsertGeneric(s, g);
    InsertedOk(s, g);
    k' := k;
    if g.replica != PRIMARY {
      OtherIsNot(s', gs, Sha256(g.block));
    } else {
      var j := InsertableNumber(s, gs, k, g);
      if j == k {
        InsertNew(s, gs, k);
        k' := k + 1;
        GoodAfter(s, gs, k', g, j);
      } else {
        InsertAgain(s, gs, k, j);
        if j < 3 {
          EntriesSame(s, s', gs, k);
          VotesAgain(s, gs, k, j);
          GoodAfter(s, gs, k', g, j);
        } else {
          StoppedIsNot(s', gs);
        }
      }
    }
  }

  lemma BehindhandFrom(s: State, gs: seq<Generic>, k: nat)
    requires Entries(s, gs, k) && ExecutedBehind(s, gs, k) && VotedUpTo(s, gs, k)
    ensures Behindhand(s, gs)
  {
  }

  lemma StoppedIsNot(s: State, gs: seq<Generic>)
    requires s.status == Panicked(NotExecutable)
    ensures !Behindhand(s, gs)
  {
  }

  lemma GoodAfter(s: State, gs: seq<Generic>, k: nat, g: Generic, j: nat)
    requires OneChain(gs) && WellFormed(s) && VoteSetsOk(s) && (s.index == PRIMARY ==> PrimaryFits(s, gs))
    requires j < |gs| && gs[j] == g && CanInsert(Insertion(s, g))
    requires Entries(InsertGeneric(s, g), gs, k) && ExecutedBehind(InsertGeneric(s, g), gs, k)
    requires VotedUpTo(InsertGeneric(s, g), gs, k)
    ensures Good(InsertGeneric(s, g), gs, k) && Behindhand(InsertGeneric(s, g), gs)
  {
    hide WellFormed, OneChain, PrimaryFits, Entries;
    var s' := InsertGeneric(s, g);
    VoteSetsSame(s, s');
    if s.index == PRIMARY {
      InsertForPrimary(s, gs, j);
    }
    BehindhandFrom(s', gs, k);
  }

  // ---------- one delivery ----------

  lemma BufferMore(s: State, gs: seq<Generic>, k: nat, d: Digest, g: Generic)
    requires Good(s, gs, k) && BufferGenuine(s, gs) && (g.replica == PRIMARY ==> g in gs)
    ensures
      var s' := s.(reordering := Buffer(s.reordering, d, g));
      Good(s', gs, k) && BufferGenuine(s', gs)
  {
    hide PrimaryAt;
    var s' := s.(reordering := Buffer(s.reordering, d, g));
    EntriesSame(s, s', gs, k);
    SameVotes(s, s', gs, k);
    VoteSetsSame(s, s');
    if s.index == PRIMARY {
      PrimarySame(s, s', gs);
    }
    assert d in s.reordering ==> Genuine(s.reordering[d], gs);
  }

  lemma ReleaseGood(s: State, gs: seq<Generic>, k: nat, d: Digest)
    requires Good(s, gs, k) && BufferGenuine(s, gs) && d in s.reordering
    ensures Good(Released(s, d), gs, k) && BufferGenuine(Released(s, d), gs) && Genuine(s.reordering[d], gs)
  {
    hide PrimaryAt, WellFormed, Genuine;
    var s' := Released(s, d);
    EntriesSame(s, s', gs, k);
    SameVotes(s, s', gs, k);
    VoteSetsSame(s, s');
    if s.index == PRIMARY {
      PrimarySame(s, s', gs);
    }
  }

  lemma SameBuffer(s: State, s': State, gs: seq<Generic>)
    requires BufferGenuine(s, gs) && s'.reordering == s.reordering
    ensures BufferGenuine(s', gs)
  {
  }

  ghost predicate GoodSomewhere(s: State, gs: seq<Generic>) {
    (exists k: nat :: Good(s, gs, k)) && BufferGenuine(s, gs)
  }

  /** Handling a proposal: after every insertion it leads to the replica is three behind if and only if every one
      of them passes the guard; then all that is kept is kept. */
  lemma {:induction false} ReorderIff(s: State, gs: seq<Generic>, k: nat, g: Generic)
    requires OneChain(gs) && Good(s, gs, k) && BufferGenuine(s, gs) && (g.replica == PRIMARY ==> g in gs)
    ensures AllMay(Inserts(s, g)) <==> AllBehindhand(Inserts(s, g), gs)
    ensures AllMay(Inserts(s, g)) ==> GoodSomewhere(Reorder(s, g), gs)
    decreases Buffered(s.reordering) + 1, 0, 0
  {
    hide OneChain, Good, BufferGenuine, MayInsert, BehindhandAfter, AllMay, AllBehindhand;
    assert WellFormed(s) by { GoodIsWellFormed(s, gs, k); }
    assert AllMay([]) && AllBehindhand([], gs) by { NoneMay(gs); }
    if s.status.Panicked? {
    } else if g.block.parent !in s.generics {
      BufferMore(s, gs, k, g.block.parent, g);
    } else if g.certified !in s.generics {
      BufferMore(s, gs, k, g.certified, g);
    } else {
      var inserted, d := InsertGeneric(s, g), Sha256(g.block);
      var k' := InsertIff(s, gs, k, g);
      SameBuffer(s, inserted, gs);
      var rest := if inserted.status.Running? && d in inserted.reordering
                  then InsertsAll(Released(inserted, d), inserted.reordering[d]) else [];
      FirstThen(Insertion(s, g), rest, gs);
      if MayInsert(Insertion(s, g)) && d in inserted.reordering {
        BufferedWithout(s.reordering, d);
        ReleaseGood(inserted, gs, k', d);
        ReorderAllIff(Released(inserted, d), gs, k', inserted.reordering[d]);
      }
    }
  }

  lemma {:induction false} ReorderAllIff(s: State, gs: seq<Generic>, k: nat, some: seq<Generic>)
    requires OneChain(gs) && Good(s, gs, k) && BufferGenuine(s, gs) && Genuine(some, gs)
    ensures AllMay(InsertsAll(s, some)) <==> AllBehindhand(InsertsAll(s, some), gs)
    ensures AllMay(InsertsAll(s, some)) ==> GoodSomewhere(ReorderAll(s, some), gs)
    decreases Buffered(s.reordering) + |some|, 1, |some|
  {
    hide OneChain, Good, BufferGenuine, AllMay, AllBehindhand;
    assert WellFormed(s) by { GoodIsWellFormed(s, gs, k); }
    assert AllMay([]) && AllBehindhand([], gs) by { NoneMay(gs); }
    if some != [] {
      ReorderIff(s, gs, k, some[0]);
      var s1 := Reorder(s, some[0]);
      SomeThen(Inserts(s, some[0]), InsertsAll(s1, some[1..]), gs);
      if AllMay(Inserts(s, some[0])) {
        var k1: nat :| Good(s1, gs, k1);
        ReorderAllIff(s1, gs, k1, some[1..]);
      }
    }
  }

  lemma GoodIsWellFormed(s: State, gs: seq<Generic>, k: nat)
    requires Good(s, gs, k)
    ensures WellFormed(s)
  {
  }

  lemma NoneMay(gs: seq<Generic>)
    ensures AllMay([]) && AllBehindhand([], gs)
  {
  }

  lemma SomeThen(some: seq<Insertion>, rest: seq<Insertion>, gs: seq<Generic>)
    requires forall i :: i in some + rest ==> CanInsert(i)
    ensures AllMay(some + rest) <==> AllMay(some) && AllMay(rest)
    ensures (forall i :: i in some ==> CanInsert(i)) && (forall i :: i in rest ==> CanInsert(i))
    ensures AllBehindhand(some + rest, gs) <==> AllBehindhand(some, gs) && AllBehindhand(rest, gs)
  {
    hide CanInsert, MayInsert, BehindhandAfter;
    assert forall i :: i in some ==> i in some + rest;
    assert forall i :: i in rest ==> i in some + rest;
  }

  lemma FirstThen(first: Insertion, rest: seq<Insertion>, gs: seq<Generic>)
    requires CanInsert(first) && forall i :: i in rest ==> CanInsert(i)
    ensures AllMay([first] + rest) <==> MayInsert(first) && AllMay(rest)
    ensures AllBehindhand([first] + rest, gs) <==> BehindhandAfter(first, gs) && AllBehindhand(rest, gs)
  {
    hide CanInsert, MayInsert, BehindhandAfter;
    SomeThen([first], rest, gs);
    assert first in [first];
  }

  // ---------- runs ----------

  /** The insertions that one step leads to. */
  ghost function InsertsOf(u: Setup, m: Move): (r: seq<Insertion>)
    ensures forall i :: i in r ==> CanInsert(i)
  {
    var (r, a) := m;
    if PRIMARY !in u.replicas || r !in u.replicas || !WellFormed(u.replicas[r]) then []
    else
      var s, gs := u.replicas[r], Proposals(u);
      match a
      case TakeProposal(j) => if j < |gs| then Inserts(s, gs[j]) else []
      case TakeOther(g) => Inserts(s, g)
      case TakeOwn(j) =>
        if j < |gs| && s.status.Running? && CanInsert(Insertion(s, gs[j])) then [Insertion(s, gs[j])] else []
      case _ => []
  }

  ghost predicate LooseAt(c: Config, r: ReplicaIndex, s: State, gs: seq<Generic>, k: nat) {
    && s.index == r && s.n == c.n && s.f == c.f
    && Good(s, gs, k) && BufferGenuine(s, gs)
    && (r != PRIMARY ==> s.sentGenerics == [])
  }

  ghost predicate LooseFits(c: Config, r: ReplicaIndex, s: State, gs: seq<Generic>) {
    exists k: nat :: LooseAt(c, r, s, gs, k)
  }

  ghost predicate LooseInv(c: Config, u: Setup) {
    && ValidConfig(c) && PRIMARY in Correct(c)
    && u.replicas.Keys == Correct(c)
    && ProposalsOk(c, Proposals(u))
    && forall r :: r in u.replicas ==> LooseFits(c, r, u.replicas[r], Proposals(u))
  }

  lemma LooseReplica(c: Config, u: Setup, r: ReplicaIndex) returns (k: nat)
    requires LooseInv(c, u) && r in u.replicas
    ensures LooseAt(c, r, u.replicas[r], Proposals(u), k)
  {
    assert LooseFits(c, r, u.replicas[r], Proposals(u));
    k :| LooseAt(c, r, u.replicas[r], Proposals(u), k);
  }

  /** Requests, votes and paces that propose nothing. */
  lemma QuietLoose(c: Config, r: ReplicaIndex, s: State, s': State, gs: seq<Generic>, k: nat)
    requires LooseAt(c, r, s, gs, k) && Untouched(s, s') && WellFormed(s') && VoteSetsOk(s')
    requires s'.sentGenerics == s.sentGenerics && (r == PRIMARY ==> PrimaryFits(s', gs))
    ensures LooseFits(c, r, s', gs)
  {
    hide WellFormed, PrimaryFits, VoteSetsOk;
    EntriesSame(s, s', gs, k);
    SameVotes(s, s', gs, k);
    SameBuffer(s, s', gs);
    assert LooseAt(c, r, s', gs, k);
  }

  lemma RequestLoose(c: Config, r: ReplicaIndex, s: State, gs: seq<Generic>, k: nat, request: Request)
    requires LooseAt(c, r, s, gs, k) && WellFormed(s)
    ensures LooseFits(c, r, HandleRequest(s, request), gs)
    ensures HandleRequest(s, request).sentGenerics == s.sentGenerics
  {
    hide HandleRequest, Entries, ExecutedBehind, PrimaryFits, WellFormed;
    var s' := HandleRequest(s, request);
    RequestUntouched(s, request);
    VoteSetsSame(s, s');
    if r == PRIMARY {
      PrimarySame(s, s', gs);
    }
    QuietLoose(c, r, s, s', gs, k);
  }

  lemma VoteLoose(c: Config, r: ReplicaIndex, s: State, gs: seq<Generic>, k: nat, v: Vote)
    requires LooseAt(c, r, s, gs, k) && WellFormed(s) && OneChain(gs) && c.n > c.f
    ensures LooseFits(c, r, HandleVote(s, v), gs)
    ensures HandleVote(s, v).sentGenerics == s.sentGenerics
  {
    hide HandleVote, Entries, ExecutedBehind, PrimaryFits, WellFormed, OneChain;
    var s' := HandleVote(s, v);
    VoteUntouched(s, v);
    VoteSetsGrow(s, v);
    if r == PRIMARY {
      VoteKeepsPrimary(s, gs, v, k);
    }
    QuietLoose(c, r, s, s', gs, k);
  }

  /** Taking a proposal, in whichever way it comes. */
  lemma ReorderLoose(c: Config, r: ReplicaIndex, s: State, gs: seq<Generic>, k: nat, g: Generic)
    requires LooseAt(c, r, s, gs, k) && WellFormed(s) && OneChain(gs) && (g.replica == PRIMARY ==> g in gs)
    ensures AllMay(Inserts(s, g)) <==> AllBehindhand(Inserts(s, g), gs)
    ensures AllMay(Inserts(s, g)) ==> LooseFits(c, r, Reorder(s, g), gs)
    ensures Reorder(s, g).sentGenerics == s.sentGenerics
  {
    hide Good, BufferGenuine, OneChain, WellFormed, Reorder, AllMay, AllBehindhand;
    ReorderIff(s, gs, k, g);
    if AllMay(Inserts(s, g)) {
      var k': nat :| Good(Reorder(s, g), gs, k');
      assert LooseAt(c, r, Reorder(s, g), gs, k');
    }
  }

  lemma OwnLoose(c: Config, s: State, gs: seq<Generic>, k: nat, g: Generic)
    requires LooseAt(c, PRIMARY, s, gs, k) && WellFormed(s) && OneChain(gs) && s.status.Running?
    requires g in gs && g.replica == PRIMARY && g in s.sentGenerics && CanInsert(Insertion(s, g))
    ensures AllMay([Insertion(s, g)]) <==> AllBehindhand([Insertion(s, g)], gs)
    ensures AllMay([Insertion(s, g)]) ==> LooseFits(c, PRIMARY, HandleLoopback(s, g), gs)
    ensures HandleLoopback(s, g).sentGenerics == s.sentGenerics
  {
    hide Good, BufferGenuine, OneChain, WellFormed, MayInsert, BehindhandAfter;
    var k' := InsertIff(s, gs, k, g);
    assert Insertion(s, g) in [Insertion(s, g)];
    SameBuffer(s, InsertGeneric(s, g), gs);
    if MayInsert(Insertion(s, g)) {
      assert LooseAt(c, PRIMARY, InsertGeneric(s, g), gs, k');
    }
  }

  lemma LooseMore(c: Config, r: ReplicaIndex, s: State, gs: seq<Generic>, gs': seq<Generic>)
    requires LooseFits(c, r, s, gs) && gs <= gs' && r != PRIMARY
    ensures LooseFits(c, r, s, gs')
  {
    hide Entries, BlocksOf, WellFormed, VoteSetsOk;
    var k: nat :| LooseAt(c, r, s, gs, k);
    GrownGood(s, gs, gs', k);
    VotesMore(s, gs, gs', k);
    assert LooseAt(c, r, s, gs', k);
  }

  lemma GrownGood(s: State, gs: seq<Generic>, gs': seq<Generic>, k: nat)
    requires Entries(s, gs, k) && ExecutedBehind(s, gs, k) && BufferGenuine(s, gs) && gs <= gs'
    ensures Entries(s, gs', k) && ExecutedBehind(s, gs', k) && BufferGenuine(s, gs')
  {
    hide Entries;
    EntriesMore(s, gs, gs', k);
    assert BlocksOf(gs')[..Behind(k)] == BlocksOf(gs)[..Behind(k)];
    DigestAtPrefix(BlocksOf(gs), BlocksOf(gs'), Behind(k));
    forall d | d in s.reordering ensures Genuine(s.reordering[d], gs') {
      assert Genuine(s.reordering[d], gs);
    }
  }

  /** The primary proposes. */
  lemma ProposeLoose(c: Config, u: Setup, u': Setup)
    requires LooseInv(c, u) && WellFormed(u.replicas[PRIMARY])
    requires BlockHeight(u.replicas[PRIMARY].generics, u.replicas[PRIMARY].digestCertified)
             >= u.replicas[PRIMARY].proposeHeight
    requires u'.replicas == u.replicas[PRIMARY := Propose(u.replicas[PRIMARY])] && WellFormed(u'.replicas[PRIMARY])
    ensures LooseInv(c, u')
  {
    hide Good, BufferGenuine, ProposalsOk, WellFormed, Propose;
    var s, gs, gs' := u.replicas[PRIMARY], Proposals(u), Proposals(u');
    var k := LooseReplica(c, u, PRIMARY);
    ProposedLoose(c, s, k);
    forall r | r in u'.replicas ensures LooseFits(c, r, u'.replicas[r], gs') {
      assert LooseFits(c, r, u.replicas[r], gs);
      if r != PRIMARY {
        LooseMore(c, r, u.replicas[r], gs, gs');
      }
    }
  }

  lemma ProposedLoose(c: Config, s: State, k: nat)
    requires LooseAt(c, PRIMARY, s, s.sentGenerics, k) && ProposalsOk(c, s.sentGenerics) && c.n > c.f
    requires WellFormed(s) && BlockHeight(s.generics, s.digestCertified) >= s.proposeHeight && WellFormed(Propose(s))
    ensures s.sentGenerics <= Propose(s).sentGenerics
    ensures ProposalsOk(c, Propose(s).sentGenerics) && LooseFits(c, PRIMARY, Propose(s), Propose(s).sentGenerics)
  {
    hide WellFormed, Entries, PrimaryFits, ProposalsOk, VoteSetsOk, BlocksOf;
    var gs, s' := s.sentGenerics, Propose(s);
    var g := ProposeExtends(c, s, gs, k);
    var gs' := gs + [g];
    GrownGood(s, gs, gs', k);
    EntriesSame(s, s', gs', k);
    VotesMore(s, gs, gs', k);
    SameVotes(s, s', gs', k);
    SameBuffer(s, s', gs');
    ProposeVotes(s);
    assert LooseAt(c, PRIMARY, s', gs', k);
  }

  lemma ProposeVotes(s: State)
    requires VoteSetsOk(s)
    ensures Untouched(s, Propose(s)) ==> VoteSetsOk(Propose(s))
  {
    if Untouched(s, Propose(s)) {
      VoteSetsSame(s, Propose(s));
    }
  }

  lemma LooseOne(c: Config, u: Setup, u': Setup, r: ReplicaIndex)
    requires LooseInv(c, u) && r in u.replicas && r in u'.replicas && u'.replicas == u.replicas[r := u'.replicas[r]]
    requires PRIMARY in u'.replicas && Proposals(u') == Proposals(u)
    requires LooseFits(c, r, u'.replicas[r], Proposals(u))
    ensures LooseInv(c, u')
  {
    hide LooseFits, ProposalsOk;
  }

  /** A step: after each insertion it leads to the replica is three behind if and only if each passes the guard,
      and then the invariant is kept. */
  lemma MoveIff(c: Config, u: Setup, u': Setup, m: Move)
    requires LooseInv(c, u) && ActionBy(c, u, u', m.0, m.1)
    ensures AllMay(InsertsOf(u, m)) <==> AllBehindhand(InsertsOf(u, m), Proposals(u))
    ensures AllMay(InsertsOf(u, m)) ==> LooseInv(c, u')
  {
    hide LooseAt, LooseFits, ProposalsOk, WellFormed, AllMay, AllBehindhand, Inserts, Reorder, HandleVote;
    hide HandleRequest, HandleLoopback, OnPace, QueuedBy;
    var (r, a) := m;
    var s, gs := u.replicas[r], Proposals(u);
    var k := LooseReplica(c, u, r);
    var s' := u'.replicas[r];
    assert OneChain(gs) && (forall g :: g in gs ==> g.replica == PRIMARY) by { ChainIsPrimarys(c, gs); }
    assert AllMay([]) && AllBehindhand([], gs) by { NoneMay(gs); }
    match a
    case TakeRequest(request) =>
      RequestLoose(c, r, s, gs, k, request);
      LooseOne(c, u, u', r);
    case TakeVote(v) =>
      VoteLoose(c, r, s, gs, k, v);
      LooseOne(c, u, u', r);
    case TakeProposal(j) =>
      ReorderLoose(c, r, s, gs, k, gs[j]);
      if AllMay(InsertsOf(u, m)) {
        LooseOne(c, u, u', r);
      }
    case TakeOther(g) =>
      ReorderLoose(c, r, s, gs, k, g);
      if AllMay(InsertsOf(u, m)) {
        LooseOne(c, u, u', r);
      }
    case TakeOwn(j) =>
      assert CanInsert(Insertion(s, gs[j])) by { OwnIsInsertable(s, gs[j]); }
      OwnLoose(c, s, gs, k, gs[j]);
      if AllMay(InsertsOf(u, m)) {
        LooseOne(c, u, u', r);
      }
    case Tick => TickLoose(c, u, u', r, k);
  }

  lemma ChainIsPrimarys(c: Config, gs: seq<Generic>)
    requires ProposalsOk(c, gs)
    ensures OneChain(gs) && forall g :: g in gs ==> g.replica == PRIMARY
  {
    forall g | g in gs ensures g.replica == PRIMARY {
      var i :| 0 <= i < |gs| && gs[i] == g;
      assert ShapeAt(gs, i);
    }
  }

  lemma TickLoose(c: Config, u: Setup, u': Setup, r: ReplicaIndex, k: nat)
    requires LooseInv(c, u) && r in u.replicas && LooseAt(c, r, u.replicas[r], Proposals(u), k)
    requires WellFormed(u.replicas[r]) && u'.replicas == u.replicas[r := OnPace(u.replicas[r])]
    ensures LooseInv(c, u')
  {
    hide Good, BufferGenuine, LooseFits, ProposalsOk, WellFormed, Propose;
    var s := u.replicas[r];
    OnPaceWellFormed(s);
    if OnPace(s) == s {
      assert u'.replicas == u.replicas;
    } else {
      ProposeLoose(c, u, u');
    }
  }

  lemma StartLoose(c: Config)
    requires ValidConfig(c) && PRIMARY in Correct(c)
    ensures LooseInv(c, Start(c))
  {
    hide Holds, WellFormed, VoteSetsOk;
    var u := Start(c);
    StartInv(c);
    forall r | r in u.replicas ensures LooseFits(c, r, u.replicas[r], []) {
      StartFits(c, r);
      StartReplica(c, r);
    }
  }

  lemma StartReplica(c: Config, r: ReplicaIndex)
    requires ValidConfig(c)
    ensures LooseFits(c, r, Init(c.n, c.f, r), [])
  {
    var s := Init(c.n, c.f, r);
    assert BlocksOf([]) == [] && EntryAt(s, [], 0) && IsNumber([], GENESIS_DIGEST, 0);
    assert VoteSetOk(s, GENESIS_DIGEST);
    assert PrimaryAt(s, [], 0);
    assert LooseAt(c, r, s, [], 0);
  }

  // ---------- the exact condition ----------

  /** One chain of certified proposals, and every correct replica is three behind on it. */
  ghost predicate ChainBehindhand(c: Config, u: Setup) {
    && u.replicas.Keys == Correct(c) && PRIMARY in u.replicas
    && ProposalsOk(c, Proposals(u)) && CertificatesGenuine(c, u)
    && forall r :: r in u.replicas ==> Behindhand(u.replicas[r], Proposals(u))
  }

  ghost predicate InsertsMayAt(history: seq<Setup>, moves: seq<Move>, i: nat)
    requires |history| == |moves| + 1 && i < |moves|
  {
    AllMay(InsertsOf(history[i], moves[i]))
  }

  ghost predicate InsertsBehindhandAt(history: seq<Setup>, moves: seq<Move>, i: nat)
    requires |history| == |moves| + 1 && i < |moves|
  {
    PRIMARY in history[i].replicas && AllBehindhand(InsertsOf(history[i], moves[i]), Proposals(history[i]))
  }

  /** Every insertion of the run passes the guard. */
  ghost predicate InsertionsGuarded(history: seq<Setup>, moves: seq<Move>)
    requires |history| == |moves| + 1
  {
    forall i: nat :: i < |moves| ==> InsertsMayAt(history, moves, i)
  }

  /** The chain is kept in every state of the run and after every insertion of every step. */
  ghost predicate BehindhandThroughout(c: Config, history: seq<Setup>, moves: seq<Move>)
    requires |history| == |moves| + 1
  {
    && (forall i {:trigger history[i]} :: 0 <= i < |history| ==> ChainBehindhand(c, history[i]))
    && (forall i: nat :: i < |moves| ==> InsertsBehindhandAt(history, moves, i))
  }

  lemma MoveIffAt(c: Config, history: seq<Setup>, moves: seq<Move>, i: nat)
    requires IsHistory(c, history, moves) && i < |moves| && LooseInv(c, history[i])
    ensures InsertsMayAt(history, moves, i) <==> InsertsBehindhandAt(history, moves, i)
    ensures InsertsMayAt(history, moves, i) ==> LooseInv(c, history[i + 1])
  {
    hide ActionBy, AllMay, AllBehindhand, InsertsOf;
    assert MoveAt(c, history, moves, i);
    MoveIff(c, history[i], history[i + 1], moves[i]);
  }

  lemma {:induction false} HistoryLoose(c: Config, history: seq<Setup>, moves: seq<Move>, i: nat)
    requires ValidConfig(c) && PRIMARY in Correct(c) && IsHistory(c, history, moves) && i <= |moves|
    requires
      || (forall j: nat :: j < i ==> InsertsMayAt(history, moves, j))
      || (forall j: nat :: j < i ==> InsertsBehindhandAt(history, moves, j))
    ensures LooseInv(c, history[i])
    decreases i
  {
    hide InsertsMayAt, InsertsBehindhandAt, LooseInv;
    if i == 0 {
      StartLoose(c);
    } else {
      HistoryLoose(c, history, moves, i - 1);
      MoveIffAt(c, history, moves, i - 1);
    }
  }

  lemma LooseIsBehindhand(c: Config, u: Setup)
    requires LooseInv(c, u) && VotesInv(c, u)
    ensures ChainBehindhand(c, u)
  {
    hide ProposalsOk, CertificatesGenuine, StoredGenuine, WellFormed, Entries;
    forall r | r in u.replicas ensures Behindhand(u.replicas[r], Proposals(u)) {
      var k := LooseReplica(c, u, r);
      BehindhandFrom(u.replicas[r], Proposals(u), k);
    }
  }

  /** With a correct primary, whatever faulty replicas send and however often anything comes: one chain of certified
      proposals is kept three behind by every correct replica, in every state and after every insertion, if and only
      if every insertion passes the guard. Nothing is asked of what is only buffered. */
  lemma InsertionsIff(c: Config, history: seq<Setup>, moves: seq<Move>)
    requires ValidConfig(c) && PRIMARY in Correct(c) && IsHistory(c, history, moves)
    ensures BehindhandThroughout(c, history, moves) <==> InsertionsGuarded(history, moves)
  {
    hide InsertsMayAt, InsertsBehindhandAt, ChainBehindhand, LooseInv, MoveAt, VotesInv;
    if InsertionsGuarded(history, moves) {
      forall i | 0 <= i < |history| ensures ChainBehindhand(c, history[i]) {
        HistoryLoose(c, history, moves, i);
        ShorterHistory(c, history, moves, i);
        HistoryVotes(c, history[..i + 1], moves[..i]);
        LooseIsBehindhand(c, history[i]);
      }
      forall i: nat | i < |moves| ensures InsertsBehindhandAt(history, moves, i) {
        HistoryLoose(c, history, moves, i);
        MoveIffAt(c, history, moves, i);
      }
    }
    if BehindhandThroughout(c, history, moves) {
      forall i: nat | i < |moves| ensures InsertsMayAt(history, moves, i) {
        HistoryLoose(c, history, moves, i);
        MoveIffAt(c, history, moves, i);
      }
    }
  }
}
