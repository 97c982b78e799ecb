/** The PBFT replica in its one view: certificates, and execution in the order of parent links.

    `State` is the replica as a value, with one function per handler; the class in module
    PbftReplica has the same fields and its methods are proved to compute these functions. */
module Pbft {
  import opened Blocks
  import opened Chains

  datatype PrePrepare = PrePrepare(viewNum: nat, block: Block)

  datatype Prepare = Prepare(viewNum: nat, digest: Digest, replica: ReplicaIndex)

  datatype Commit = Commit(viewNum: nat, digest: Digest, replica: ReplicaIndex)

  datatype Reply = Reply(requestNum: nat, result: Result, digest: Digest, replica: ReplicaIndex)

  /** The assertions and lookups that can stop a replica. */
  datatype Panic = PrimaryPrepares | TooManyPrepares | TooManyCommits | MissingPrePrepare | ConflictingCommit

  datatype Status = Running | Panicked(why: Panic)

  /** `accepted`, `executed` and the `sent` fields record, in order, the requests queued, the blocks
      executed and the messages handed to the network. */
  datatype State = State(
    n: nat,
    f: nat,
    index: ReplicaIndex,
    viewNum: nat,
    requests: seq<Request>,
    prePrepares: map<Digest, PrePrepare>,
    prepareCertificates: map<Digest, map<ReplicaIndex, Prepare>>,
    commitCertificates: map<Digest, map<ReplicaIndex, Commit>>,
    chain: ChainState,
    app: App,
    status: Status,
    accepted: seq<Request>,
    executed: seq<Block>,
    sentPrePrepares: seq<PrePrepare>,
    sentPrepares: seq<Prepare>,
    sentCommits: seq<Commit>,
    sentReplies: seq<(ClientIndex, Reply)>)

  function Init(n: nat, f: nat, index: ReplicaIndex): State {
    State(n, f, index, 0, [], map[], map[], map[], NEW_CHAIN, [], Running, [], [], [], [], [], [])
  }

  function PrimaryIndex(s: State): ReplicaIndex
    requires s.n > 0
  {
    s.viewNum % s.n
  }

  // ---------- what every replica keeps ----------

  /** Pre-prepares are kept under the digest of their block, and blocks waiting for execution are
      among them, so every lookup while executing hits. */
  ghost predicate WellFormed(s: State) {
    && s.n > s.f
    && (forall d :: d in s.prePrepares ==> d == Sha256(s.prePrepares[d].block))
    && (forall d :: d in s.chain.pending ==> s.chain.pending[d] in s.prePrepares)
  }

  // ---------- execution ----------

  /** Runs the requests of a block. Replies carry `digest`, the block whose commit started the
      execution, also for blocks that had been waiting for it. */
  function RunRequests(s: State, requests: seq<Request>, digest: Digest): (r: State)
    ensures r == s.(app := r.app, sentReplies := r.sentReplies)
    decreases |requests|
  {
    if requests == [] then s
    else
      var request := requests[0];
      var (app, result) := Execute(s.app, request.op);
      var reply := (request.client, Reply(request.num, result, digest, s.index));
      RunRequests(s.(app := app, sentReplies := s.sentReplies + [reply]), requests[1..], digest)
  }

  function RunBlock(s: State, block: Block, digest: Digest): (r: State)
    ensures r == s.(app := r.app, sentReplies := r.sentReplies, executed := s.executed + [block])
  {
    RunRequests(s.(executed := s.executed + [block]), block.requests, digest)
  }

  /** Executes `block` and then every block that was waiting right behind it. */
  function ExecuteFrom(s: State, block: Block, digest: Digest): (r: State)
    requires WellFormed(s)
    ensures WellFormed(r)
    ensures r == s.(app := r.app, sentReplies := r.sentReplies, executed := r.executed, chain := r.chain)
    ensures r.chain == s.chain.(digestExecute := r.chain.digestExecute, pending := r.chain.pending)
    ensures s.executed <= r.executed
    decreases |s.chain.pending|
  {
    var s1 := RunBlock(s, block, digest);
    var (chain, next) := NextOf(s.chain);
    match next
    case Some(nextDigest) =>
      SmallerPending(s.chain);
      ExecuteFrom(s1.(chain := chain), s.prePrepares[nextDigest].block, digest)
    case None => s1.(chain := chain)
  }

  /** One turn of the loop that executes waiting blocks. */
  lemma ExecuteFromStep(s: State, block: Block, digest: Digest)
    requires WellFormed(s)
    ensures
      var (chain, next) := NextOf(s.chain);
      var s1 := RunBlock(s, block, digest).(chain := chain);
      && WellFormed(s1)
      && (next.Some? ==>
            && next.value in s.prePrepares && |chain.pending| < |s.chain.pending|
            && ExecuteFrom(s, block, digest) == ExecuteFrom(s1, s.prePrepares[next.value].block, digest))
      && (next.None? ==> ExecuteFrom(s, block, digest) == s1)
  {
    hide RunBlock;
    if NextOf(s.chain).1.Some? {
      SmallerPending(s.chain);
    }
  }

  function DoExecute(s: State, digest: Digest): (r: State)
    requires WellFormed(s)
    ensures WellFormed(r)
    ensures r == s.(app := r.app, sentReplies := r.sentReplies, executed := r.executed, chain := r.chain,
                    status := r.status)
    ensures r.chain == s.chain.(digestExecute := r.chain.digestExecute, pending := r.chain.pending)
    ensures s.executed <= r.executed
  {
    if digest !in s.prePrepares then s.(status := Panicked(MissingPrePrepare))
    else
      var block := s.prePrepares[digest].block;
      var (chain, outcome) := CommitTo(s.chain, block);
      var s1 := s.(chain := chain);
      match outcome
      case Conflict => s1.(status := Panicked(ConflictingCommit))
      case Deferred => s1
      case Executable => ExecuteFrom(s1, block, digest)
  }

  // ---------- certificates ----------

  function CertificateOf<M>(certificates: map<Digest, map<ReplicaIndex, M>>, d: Digest): map<ReplicaIndex, M> {
    if d in certificates then certificates[d] else map[]
  }

  function InsertPrepare(s: State, prepare: Prepare): (r: State)
    requires WellFormed(s)
    ensures WellFormed(r)
    ensures r == s.(prepareCertificates := r.prepareCertificates, sentCommits := r.sentCommits, status := r.status)
    ensures s.sentCommits <= r.sentCommits
  {
    var d := prepare.digest;
    var certificate := CertificateOf(s.prepareCertificates, d);
    if |certificate| + 1 > s.n - s.f then s.(status := Panicked(TooManyPrepares))
    else
      var full := |certificate| + 1 == s.n - s.f;
      var certificate' := if full then certificate else certificate[prepare.replica := prepare];
      var s1 := s.(prepareCertificates := s.prepareCertificates[d := certificate']);
      if full && prepare.replica != s.index then s1
      else if d in s.prePrepares && |certificate'| + 1 == s.n - s.f then
        s1.(sentCommits := s.sentCommits + [Commit(s.viewNum, d, s.index)])
      else s1
  }

  function InsertCommit(s: State, commit: Commit): (r: State)
    requires WellFormed(s)
    ensures WellFormed(r)
    ensures r == s.(app := r.app, sentReplies := r.sentReplies, executed := r.executed, chain := r.chain,
                    status := r.status, commitCertificates := r.commitCertificates)
    ensures r.chain == s.chain.(digestExecute := r.chain.digestExecute, pending := r.chain.pending)
    ensures s.executed <= r.executed
  {
    var d := commit.digest;
    var certificate := CertificateOf(s.commitCertificates, d);
    if |certificate| > s.n - s.f then s.(status := Panicked(TooManyCommits))
    else if |certificate| == s.n - s.f then s.(commitCertificates := s.commitCertificates[d := certificate])
    else
      var certificate' := certificate[commit.replica := commit];
      var s1 := s.(commitCertificates := s.commitCertificates[d := certificate']);
      if |certificate'| >= s.n - s.f then DoExecute(s1, d) else s1
  }

  // ---------- handlers ----------

  function HandleRequest(s: State, request: Request): (r: State)
    requires WellFormed(s)
    ensures WellFormed(r)
  {
    if s.status.Panicked? || s.index != PrimaryIndex(s) then s
    else s.(requests := s.requests + [request], accepted := s.accepted + [request])
  }

  function KeepPrePrepare(s: State, message: PrePrepare): (r: State)
    requires WellFormed(s)
    ensures WellFormed(r)
  {
    s.(prePrepares := s.prePrepares[Sha256(message.block) := message])
  }

  function HandlePrePrepare(s: State, message: PrePrepare): (r: State)
    requires WellFormed(s)
    ensures WellFormed(r)
  {
    if s.status.Panicked? || message.viewNum != s.viewNum then s
    else
      var s1 := KeepPrePrepare(s, message);
      if s.index == PrimaryIndex(s) then s1.(status := Panicked(PrimaryPrepares))
      else s1.(sentPrepares := s.sentPrepares + [Prepare(s.viewNum, Sha256(message.block), s.index)])
  }

  function HandlePrepare(s: State, prepare: Prepare): (r: State)
    requires WellFormed(s)
    ensures WellFormed(r)
  {
    if s.status.Panicked? || prepare.viewNum != s.viewNum then s else InsertPrepare(s, prepare)
  }

  function HandleCommit(s: State, commit: Commit): (r: State)
    requires WellFormed(s)
    ensures WellFormed(r)
  {
    if s.status.Panicked? || commit.viewNum != s.viewNum then s else InsertCommit(s, commit)
  }

  function LoopbackPrePrepare(s: State, message: PrePrepare): (r: State)
    requires WellFormed(s)
    ensures WellFormed(r)
  {
    if s.status.Panicked? then s else KeepPrePrepare(s, message)
  }

  function LoopbackPrepare(s: State, prepare: Prepare): (r: State)
    requires WellFormed(s)
    ensures WellFormed(r)
  {
    if s.status.Panicked? then s else InsertPrepare(s, prepare)
  }

  function LoopbackCommit(s: State, commit: Commit): (r: State)
    requires WellFormed(s)
    ensures WellFormed(r)
  {
    if s.status.Panicked? then s else InsertCommit(s, commit)
  }

  function OnPace(s: State): (r: State)
    requires WellFormed(s)
    ensures WellFormed(r)
  {
    if s.status.Running? && s.index == PrimaryIndex(s) && s.requests != [] then DoPropose(s) else s
  }

  function DoPropose(s: State): (r: State)
    requires WellFormed(s) && s.requests != []
    ensures WellFormed(r)
  {
    var size := BatchSize(s.requests);
    var (chain, block) := ProposeBatch(s.chain, s.requests[..size]);
    s.(chain := chain, requests := s.requests[size..],
       sentPrePrepares := s.sentPrePrepares + [PrePrepare(s.viewNum, block)])
  }
}
