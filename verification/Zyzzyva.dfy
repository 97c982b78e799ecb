/** The Zyzzyva replica in its one view: speculative execution in the order of parent links.

    `State` is the replica as a value, with one function per handler; the class in module
    ZyzzyvaReplica has the same fields and its methods are proved to compute these functions. */
module Zyzzyva {
  import opened Blocks
  import opened Chains

  datatype OrderRequest = OrderRequest(viewNum: nat, block: Block)

  datatype SpecResponse = SpecResponse(block: Block, results: seq<Result>, replica: ReplicaIndex)

  datatype Commit = Commit(client: ClientIndex, digest: Digest, responses: set<SpecResponse>)

  datatype LocalCommit = LocalCommit(digest: Digest, replica: ReplicaIndex)

  /** The assertion that can stop a replica. */
  datatype Status = Running | ConflictingCommit

  /** `accepted`, `executed` and the `sent` fields record, in order, the requests queued, the blocks
      executed and the messages handed to the network. */
  datatype State = State(
    n: nat,
    index: ReplicaIndex,
    viewNum: nat,
    requests: seq<Request>,
    orderRequests: map<Digest, OrderRequest>,
    commits: map<Digest, Commit>,
    chain: ChainState,
    app: App,
    status: Status,
    accepted: seq<Request>,
    executed: seq<Block>,
    sentOrderRequests: seq<OrderRequest>,
    sentResponses: seq<(seq<ClientIndex>, SpecResponse)>,
    sentLocalCommits: seq<(nat, LocalCommit)>)

  function Init(n: nat, index: ReplicaIndex): State {
    State(n, index, 0, [], map[], map[], NEW_CHAIN, [], Running, [], [], [], [], [])
  }

  function PrimaryIndex(s: State): ReplicaIndex
    requires s.n > 0
  {
    s.viewNum % s.n
  }

  /** Order requests are kept under the digest of their block, and blocks waiting for execution are
      among them, so every lookup while executing hits. */
  ghost predicate WellFormed(s: State) {
    && s.n > 0
    && (forall d :: d in s.orderRequests ==> d == Sha256(s.orderRequests[d].block))
    && (forall d :: d in s.chain.pending ==> s.chain.pending[d] in s.orderRequests)
  }

  // ---------- execution ----------

  /** Runs requests in order, collecting their results. */
  function RunRequests(app: App, requests: seq<Request>): (r: (App, seq<Result>))
    ensures |r.1| == |requests|
  {
    if requests == [] then (app, [])
    else
      var (app1, results) := RunRequests(app, requests[..|requests| - 1]);
      var (app2, result) := Execute(app1, requests[|requests| - 1].op);
      (app2, results + [result])
  }

  function ClientsOf(requests: seq<Request>): (clients: seq<ClientIndex>)
    ensures |clients| == |requests|
    ensures forall i :: 0 <= i < |clients| ==> clients[i] == requests[i].client
  {
    if requests == [] then [] else ClientsOf(requests[..|requests| - 1]) + [requests[|requests| - 1].client]
  }

  function RunBlock(s: State, block: Block): (r: State)
    ensures r == s.(app := r.app, sentResponses := r.sentResponses, executed := s.executed + [block])
  {
    var (app, results) := RunRequests(s.app, block.requests);
    var response := (ClientsOf(block.requests), SpecResponse(block, results, s.index));
    s.(app := app, sentResponses := s.sentResponses + [response], executed := s.executed + [block])
  }

  /** Executes `block` and then every block that was waiting right behind it. */
  function ExecuteFrom(s: State, block: Block): (r: State)
    requires WellFormed(s)
    ensures WellFormed(r)
    ensures r == s.(app := r.app, sentResponses := r.sentResponses, executed := r.executed, chain := r.chain)
    ensures r.chain == s.chain.(digestExecute := r.chain.digestExecute, pending := r.chain.pending)
    ensures s.executed <= r.executed
    decreases |s.chain.pending|
  {
    var s1 := RunBlock(s, block);
    var (chain, next) := NextOf(s.chain);
    match next
    case Some(nextDigest) =>
      SmallerPending(s.chain);
      ExecuteFrom(s1.(chain := chain), s.orderRequests[nextDigest].block)
    case None => s1.(chain := chain)
  }

  /** One turn of the loop that executes waiting blocks. */
  lemma ExecuteFromStep(s: State, block: Block)
    requires WellFormed(s)
    ensures
      var (chain, next) := NextOf(s.chain);
      var s1 := RunBlock(s, block).(chain := chain);
      && WellFormed(s1)
      && (next.Some? ==>
            && next.value in s.orderRequests && |chain.pending| < |s.chain.pending|
            && ExecuteFrom(s, block) == ExecuteFrom(s1, s.orderRequests[next.value].block))
      && (next.None? ==> ExecuteFrom(s, block) == s1)
  {
    hide RunBlock;
    if NextOf(s.chain).1.Some? {
      SmallerPending(s.chain);
    }
  }

  /** The caller has just stored the order request under `digest`. */
  function DoExecute(s: State, digest: Digest): (r: State)
    requires WellFormed(s) && digest in s.orderRequests
    ensures WellFormed(r)
    ensures r == s.(app := r.app, sentResponses := r.sentResponses, executed := r.executed, chain := r.chain,
                    status := r.status)
    ensures r.chain == s.chain.(digestExecute := r.chain.digestExecute, pending := r.chain.pending)
    ensures s.executed <= r.executed
  {
    var block := s.orderRequests[digest].block;
    var (chain, outcome) := CommitTo(s.chain, block);
    var s1 := s.(chain := chain);
    match outcome
    case Conflict => s1.(status := ConflictingCommit)
    case Deferred => s1
    case Executable => ExecuteFrom(s1, block)
  }

  // ---------- handlers ----------

  function HandleRequest(s: State, request: Request): (r: State)
    requires WellFormed(s)
    ensures WellFormed(r)
  {
    if s.status != Running || s.index != PrimaryIndex(s) then s
    else s.(requests := s.requests + [request], accepted := s.accepted + [request])
  }

  /** Also handles the primary's own order request coming back. */
  function HandleOrderRequest(s: State, message: OrderRequest): (r: State)
    requires WellFormed(s)
    ensures WellFormed(r)
    ensures r == s.(app := r.app, sentResponses := r.sentResponses, executed := r.executed, chain := r.chain,
                    status := r.status, orderRequests := r.orderRequests)
    ensures r.chain == s.chain.(digestExecute := r.chain.digestExecute, pending := r.chain.pending)
    ensures s.executed <= r.executed
  {
    if s.status != Running || message.viewNum != s.viewNum then s
    else
      var d := Sha256(message.block);
      DoExecute(s.(orderRequests := s.orderRequests[d := message]), d)
  }

  /** Acknowledges a commit to the sender `remote`, unless the block is unknown. */
  function HandleCommit(s: State, remote: nat, commit: Commit): (r: State)
    requires WellFormed(s)
    ensures WellFormed(r)
  {
    if s.status != Running || (commit.digest !in s.commits && commit.digest !in s.orderRequests) then s
    else
      s.(commits := if commit.digest in s.commits then s.commits else s.commits[commit.digest := commit],
         sentLocalCommits := s.sentLocalCommits + [(remote, LocalCommit(commit.digest, s.index))])
  }

  function OnPace(s: State): (r: State)
    requires WellFormed(s)
    ensures WellFormed(r)
  {
    if s.status == Running && s.index == PrimaryIndex(s) && s.requests != [] then DoPropose(s) else s
  }

  function DoPropose(s: State): (r: State)
    requires WellFormed(s) && s.requests != []
    ensures WellFormed(r)
  {
    var size := BatchSize(s.requests);
    var (chain, block) := ProposeBatch(s.chain, s.requests[..size]);
    s.(chain := chain, requests := s.requests[size..],
       sentOrderRequests := s.sentOrderRequests + [OrderRequest(s.viewNum, block)])
  }
}
