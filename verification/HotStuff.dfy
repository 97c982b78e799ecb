/** The HotStuff replica: voting, locking, the three-chain commit rule and the proposal reorder buffer.

    `State` is the replica as a value, with one function per handler; the class in module
    HotStuffReplica has the same fields and its methods are proved to compute these functions. */
module HotStuff {
  import opened Blocks
  import opened Chains

  datatype Vote = Vote(digest: Digest, replica: ReplicaIndex)

  /** The certificate is the set of votes it carries: their order has no meaning. */
  datatype Generic = Generic(block: Block, certified: Digest, certificate: set<Vote>, replica: ReplicaIndex)

  datatype Reply = Reply(requestNum: nat, result: Result, replica: ReplicaIndex)

  type Generics = map<Digest, Generic>

  /** The assertions and lookups that can stop a replica. */
  datatype Panic = UnknownVotedBlock | MissingCertificate | NotExecutable | ConflictingCommit | PendingExecute

  datatype Status = Running | Panicked(why: Panic)

  /** The first four fields after `index` are the source's; `executed` and the `sent` fields record,
      in order, the blocks whose requests were run and the messages handed to the network. */
  datatype State = State(
    n: nat,
    f: nat,
    index: ReplicaIndex,
    viewHeight: nat,
    proposeHeight: nat,
    digestCertified: Digest,
    digestLock: Digest,
    requests: seq<Request>,
    replies: map<ClientIndex, (nat, Option<Reply>)>,
    generics: Generics,
    votes: map<Digest, map<ReplicaIndex, Vote>>,
    reordering: map<Digest, seq<Generic>>,
    chain: ChainState,
    app: App,
    status: Status,
    executed: seq<Block>,
    sentVotes: seq<Vote>,
    sentGenerics: seq<Generic>,
    sentReplies: seq<(ClientIndex, Reply)>)

  /** The entry every replica starts with: the genesis block, made its own parent. */
  const GENESIS_GENERIC: Generic := Generic(Block([], GENESIS_DIGEST, 0), GENESIS_DIGEST, {}, 255)

  // ---------- what every replica keeps ----------

  /** The entry under `d` is a proposal of the block with that digest, and the blocks it builds on
      are known too. */
  ghost predicate EntryOk(generics: Generics, d: Digest)
    requires d in generics
  {
    && (d == GENESIS_DIGEST ==> generics[d] == GENESIS_GENERIC)
    && (d != GENESIS_DIGEST ==> d.Sha256? && generics[d].block == d.block)
    && generics[d].block.parent in generics
    && generics[d].certified in generics
  }

  ghost predicate GenericsOk(generics: Generics) {
    && GENESIS_DIGEST in generics
    && forall d {:trigger EntryOk(generics, d)} :: d in generics ==> EntryOk(generics, d)
  }

  ghost predicate WellFormed(s: State) {
    && GenericsOk(s.generics)
    && s.digestCertified in s.generics
    && s.digestLock in s.generics
    && (s.status.Running? ==> s.chain.pending == map[])
    && (forall g :: g in s.sentGenerics ==> g.block.parent in s.generics && g.certified in s.generics)
  }

  function Init(n: nat, f: nat, index: ReplicaIndex): (s: State)
    ensures WellFormed(s)
  {
    assert EntryOk(map[GENESIS_DIGEST := GENESIS_GENERIC], GENESIS_DIGEST);
    State(n, f, index, 0, 0, GENESIS_DIGEST, GENESIS_DIGEST, [], map[],
          map[GENESIS_DIGEST := GENESIS_GENERIC], map[GENESIS_DIGEST := map[]], map[],
          NEW_CHAIN, [], Running, [], [], [], [])
  }

  // ---------- lookups ----------

  function BlockHeight(generics: Generics, d: Digest): nat
    requires d in generics
  {
    generics[d].block.height
  }

  /** Whether `base` is a proper ancestor of `block`. Every lookup on the way hits. */
  function Extend(generics: Generics, block: Block, base: Digest): (r: bool)
    requires GenericsOk(generics) && block.parent in generics && base in generics
    ensures r <==> Reaches(block.parent, base)
    decreases block
  {
    assert EntryOk(generics, base) && EntryOk(generics, block.parent);
    if block.parent == base then true
    else if block.parent == GENESIS_DIGEST then false
    else Extend(generics, generics[block.parent].block, base)
  }

  // ---------- updates ----------

  function UpdateCertified(s: State, d: Digest): State
    requires d in s.generics && s.digestCertified in s.generics
  {
    if BlockHeight(s.generics, d) > BlockHeight(s.generics, s.digestCertified) then s.(digestCertified := d) else s
  }

  /** Runs the requests of a committed block and replies to their clients. */
  function RunRequests(s: State, requests: seq<Request>): (r: State)
    ensures r == s.(app := r.app, replies := r.replies, sentReplies := r.sentReplies)
    decreases |requests|
  {
    if requests == [] then s
    else
      var request := requests[0];
      var (app, result) := Execute(s.app, request.op);
      var reply := Reply(request.num, result, s.index);
      RunRequests(
        s.(app := app,
           replies := s.replies[request.client := (request.num, Some(reply))],
           sentReplies := s.sentReplies + [(request.client, reply)]),
        requests[1..])
  }

  function CommitBlock(s: State, block: Block): (r: State)
    ensures r == s.(chain := r.chain, status := r.status, executed := r.executed,
                    app := r.app, replies := r.replies, sentReplies := r.sentReplies)
    ensures r.status.Running? ==> r.chain.pending == s.chain.pending
    ensures r.chain.height == s.chain.height && r.chain.digestParent == s.chain.digestParent
  {
    var (chain, outcome) := CommitTo(s.chain, block);
    match outcome
    case Conflict => s.(chain := chain, status := Panicked(ConflictingCommit))
    case Deferred => s.(chain := chain, status := Panicked(NotExecutable))
    case Executable =>
      var ran := RunRequests(s.(chain := chain, executed := s.executed + [block]), block.requests);
      var (rest, next) := NextOf(chain);
      ran.(chain := rest, status := if next.None? then s.status else Panicked(PendingExecute))
  }

  function LockOn(s: State, d: Digest): State
    requires d in s.generics && s.digestLock in s.generics
  {
    if BlockHeight(s.generics, d) > BlockHeight(s.generics, s.digestLock) then s.(digestLock := d) else s
  }

  /** The block at the far end of the certified digests from `digest3`, if parent links agree with
      the last two of them and it is not the genesis block. */
  function CommitTarget(generics: Generics, digest3: Digest): (target: Option<Digest>)
    requires GenericsOk(generics) && digest3 in generics
    ensures target.Some? ==> target.value in generics
  {
    assert EntryOk(generics, digest3);
    var digest2 := generics[digest3].certified;
    assert EntryOk(generics, digest2);
    var digest1 := generics[digest2].certified;
    assert EntryOk(generics, digest1);
    var digest0 := generics[digest1].certified;
    if && generics[digest2].block.parent == digest1
       && generics[digest1].block.parent == digest0
       && digest0 != GENESIS_DIGEST
    then Some(digest0) else None
  }

  function CertifyAndLock(s: State, digest3: Digest): (r: State)
    requires WellFormed(s) && digest3 in s.generics
    ensures WellFormed(r) && r == s.(digestCertified := r.digestCertified, digestLock := r.digestLock)
  {
    assert EntryOk(s.generics, digest3);
    var digest2 := s.generics[digest3].certified;
    assert EntryOk(s.generics, digest2);
    LockOn(UpdateCertified(s, digest2), s.generics[digest2].certified)
  }

  /** Certifies, locks and commits along the certified digests starting at a block just inserted. */
  function Update(s: State, digest3: Digest): (r: State)
    requires WellFormed(s) && digest3 in s.generics
    ensures WellFormed(r)
    ensures r == CertifyAndLock(s, digest3).(
                    chain := r.chain, status := r.status, executed := r.executed,
                    app := r.app, replies := r.replies, sentReplies := r.sentReplies)
    ensures r.chain.height == s.chain.height && r.chain.digestParent == s.chain.digestParent
  {
    var s1 := CertifyAndLock(s, digest3);
    match CommitTarget(s.generics, digest3)
    case Some(digest0) => CommitBlock(s1, s.generics[digest0].block)
    case None => s1
  }

  function VoteFor(s: State, g: Generic): (r: State)
    requires GenericsOk(s.generics) && s.digestLock in s.generics
    requires g.block.parent in s.generics && g.certified in s.generics
    ensures r == s.(viewHeight := r.viewHeight, sentVotes := r.sentVotes)
  {
    if && g.block.height > s.viewHeight
       && (|| Extend(s.generics, g.block, s.digestLock)
           || BlockHeight(s.generics, g.certified) > BlockHeight(s.generics, s.digestLock))
    then s.(viewHeight := g.block.height, sentVotes := s.sentVotes + [Vote(Sha256(g.block), s.index)])
    else s
  }

  function InsertGeneric(s: State, g: Generic): (r: State)
    requires WellFormed(s) && g.block.parent in s.generics && g.certified in s.generics
    ensures WellFormed(r)
    ensures r == s.(generics := s.generics[Sha256(g.block) := g], viewHeight := r.viewHeight,
                    sentVotes := r.sentVotes, digestCertified := r.digestCertified, digestLock := r.digestLock,
                    chain := r.chain, status := r.status, executed := r.executed,
                    app := r.app, replies := r.replies, sentReplies := r.sentReplies)
    ensures r.chain.height == s.chain.height && r.chain.digestParent == s.chain.digestParent
  {
    InsertedOk(s, g);
    Update(VoteFor(s.(generics := s.generics[Sha256(g.block) := g]), g), Sha256(g.block))
  }

  lemma InsertedOk(s: State, g: Generic)
    requires WellFormed(s) && g.block.parent in s.generics && g.certified in s.generics
    ensures Sha256(g.block) != GENESIS_DIGEST
    ensures WellFormed(s.(generics := s.generics[Sha256(g.block) := g]))
  {
    assert EntryOk(s.generics, g.block.parent);
    var generics := s.generics[Sha256(g.block) := g];
    forall d | d in generics ensures EntryOk(generics, d) {
      if d in s.generics {
        assert EntryOk(s.generics, d);
      }
    }
  }

  lemma InsertCertifies(s: State, g: Generic)
    requires WellFormed(s) && g.block.parent in s.generics && g.certified in s.generics
    ensures
      var r := InsertGeneric(s, g);
      && g.certified in r.generics && s.digestCertified in r.generics
      && r.digestCertified == (if BlockHeight(r.generics, g.certified) > BlockHeight(r.generics, s.digestCertified)
                               then g.certified else s.digestCertified)
  {
    InsertedOk(s, g);
    var s2 := VoteFor(s.(generics := s.generics[Sha256(g.block) := g]), g);
    assert InsertGeneric(s, g).digestCertified == CertifyAndLock(s2, Sha256(g.block)).digestCertified;
  }

  // ---------- the reorder buffer ----------

  /** How many proposals are buffered. */
  ghost function Buffered(reordering: map<Digest, seq<Generic>>): nat
    decreases |reordering|
  {
    if reordering == map[] then 0
    else
      var d :| d in reordering;
      |reordering[d]| + Buffered(reordering - {d})
  }

  lemma {:induction false} BufferedWithout(reordering: map<Digest, seq<Generic>>, d: Digest)
    requires d in reordering
    ensures Buffered(reordering) == |reordering[d]| + Buffered(reordering - {d})
    decreases |reordering|
  {
    var e :| e in reordering && Buffered(reordering) == |reordering[e]| + Buffered(reordering - {e});
    if e != d {
      BufferedWithout(reordering - {e}, d);
      BufferedWithout(reordering - {d}, e);
      assert reordering - {e} - {d} == reordering - {d} - {e};
    }
  }

  function Buffer(reordering: map<Digest, seq<Generic>>, d: Digest, g: Generic): map<Digest, seq<Generic>> {
    reordering[d := (if d in reordering then reordering[d] else []) + [g]]
  }

  lemma BufferedOneMore(reordering: map<Digest, seq<Generic>>, d: Digest, g: Generic)
    ensures Buffered(Buffer(reordering, d, g)) == Buffered(reordering) + 1
  {
    var more := Buffer(reordering, d, g);
    BufferedWithout(more, d);
    if d in reordering {
      BufferedWithout(reordering, d);
    }
    assert more - {d} == reordering - {d};
    assert d !in reordering ==> reordering - {d} == reordering;
  }

  /** Handling proposals touches neither votes received nor what was proposed. */
  ghost predicate ProposesAlike(s: State, r: State) {
    && r.index == s.index && r.n == s.n && r.f == s.f
    && r.votes == s.votes && r.sentGenerics == s.sentGenerics
  }

  function Released(s: State, d: Digest): (r: State)
    ensures WellFormed(s) ==> WellFormed(r)
  {
    s.(reordering := s.reordering - {d})
  }

  /** Inserts a proposal when what it builds on is known, then everything that waited for it. */
  function Reorder(s: State, g: Generic): (r: State)
    requires WellFormed(s)
    ensures WellFormed(r) && Buffered(r.reordering) <= Buffered(s.reordering) + 1
    ensures ProposesAlike(s, r)
    decreases Buffered(s.reordering) + 1, 0, 0
  {
    if s.status.Panicked? then s
    else if g.block.parent !in s.generics then
      BufferedOneMore(s.reordering, g.block.parent, g);
      s.(reordering := Buffer(s.reordering, g.block.parent, g))
    else if g.certified !in s.generics then
      BufferedOneMore(s.reordering, g.certified, g);
      s.(reordering := Buffer(s.reordering, g.certified, g))
    else
      var inserted := InsertGeneric(s, g);
      if inserted.status.Running? && Sha256(g.block) in inserted.reordering then
        BufferedWithout(s.reordering, Sha256(g.block));
        ReorderAll(Released(inserted, Sha256(g.block)), inserted.reordering[Sha256(g.block)])
      else inserted
  }

  function ReorderAll(s: State, generics: seq<Generic>): (r: State)
    requires WellFormed(s)
    ensures WellFormed(r) && Buffered(r.reordering) <= Buffered(s.reordering) + |generics|
    ensures ProposesAlike(s, r)
    decreases Buffered(s.reordering) + |generics|, 1, |generics|
  {
    if generics == [] then s else ReorderAll(Reorder(s, generics[0]), generics[1..])
  }

  lemma ReorderInserts(s: State, g: Generic)
    requires WellFormed(s) && s.status.Running? && g.block.parent in s.generics && g.certified in s.generics
    requires InsertGeneric(s, g).status.Running?
    ensures
      var inserted := InsertGeneric(s, g);
      var d := Sha256(g.block);
      && (d !in s.reordering ==> Reorder(s, g) == inserted)
      && (d in s.reordering && |s.reordering[d]| == 1 ==>
            Reorder(s, g) == Reorder(Released(inserted, d), s.reordering[d][0]))
  {
    var inserted := InsertGeneric(s, g);
    var d := Sha256(g.block);
    if d in s.reordering && |s.reordering[d]| == 1 {
      BufferedWithout(s.reordering, d);
      assert Reorder(s, g) == ReorderAll(Released(inserted, d), inserted.reordering[d]);
      assert inserted.reordering[d][1..] == [];
    }
  }

  // ---------- handlers ----------

  function HandleRequest(s: State, request: Request): State {
    if s.status.Panicked? then s
    else if request.client in s.replies && s.replies[request.client].0 > request.num then s
    else if request.client in s.replies && s.replies[request.client].0 == request.num then
      match s.replies[request.client].1
      case Some(reply) => s.(sentReplies := s.sentReplies + [(request.client, reply)])
      case None => s
    else
      s.(replies := s.replies[request.client := (request.num, None)],
         requests := if s.index == PRIMARY then s.requests + [request] else s.requests)
  }

  function HandleVote(s: State, v: Vote): State
    requires WellFormed(s)
  {
    if s.status.Panicked? then s
    else if v.digest !in s.generics then s.(status := Panicked(UnknownVotedBlock))
    else
      var votes := if v.digest in s.votes then s.votes[v.digest] else map[];
      if |votes| == s.n - s.f then s
      else
        var more := votes[v.replica := v];
        var s1 := s.(votes := s.votes[v.digest := more]);
        if |more| == s.n - s.f then UpdateCertified(s1, v.digest) else s1
  }

  function Propose(s: State): State {
    var c := s.chain.(digestParent := s.digestCertified);
    var batch := s.requests[..BatchSize(s.requests)];
    var (chain, block) := ProposeBatch(c, batch);
    var s1 := s.(chain := chain, requests := s.requests[BatchSize(s.requests)..]);
    if s.digestCertified !in s.votes then s1.(status := Panicked(MissingCertificate))
    else
      var g := Generic(block, s.digestCertified, s.votes[s.digestCertified].Values, s.index);
      s1.(proposeHeight := block.height, sentGenerics := s.sentGenerics + [g])
  }

  function OnPace(s: State): State
    requires WellFormed(s)
  {
    if && s.status.Running?
       && s.index == PRIMARY
       && (exists c | c in s.replies :: s.replies[c].1.None?)
       && BlockHeight(s.generics, s.digestCertified) >= s.proposeHeight
    then Propose(s) else s
  }

  /** A replica's own proposal coming back skips the reorder buffer. */
  function HandleLoopback(s: State, g: Generic): (r: State)
    requires WellFormed(s) && g in s.sentGenerics
    ensures WellFormed(r)
  {
    if s.status.Panicked? then s else InsertGeneric(s, g)
  }

  lemma OnPaceWellFormed(s: State)
    requires WellFormed(s)
    ensures WellFormed(OnPace(s))
  {
  }
}
