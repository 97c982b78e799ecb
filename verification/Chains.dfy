/** The block chain every block-based replica owns. */
module Chains {
  // It proposes blocks with a parent link and puts blocks that commit out of order back into the order of
  // their parent links.

  import opened Blocks

  const MAX_BATCH_SIZE: nat := 100

  /** What `Chain::commit` reports; `Conflict` is its failing assertion. */
  datatype CommitOutcome = Executable | Deferred | Conflict

  datatype ChainState = ChainState(
    digestParent: Digest,
    digestExecute: Digest,
    height: nat,
    pending: map<Digest, Digest>)

  const NEW_CHAIN: ChainState := ChainState(GENESIS_DIGEST, GENESIS_DIGEST, 0, map[])

  function BatchSize(requests: seq<Request>): nat {
    if |requests| < MAX_BATCH_SIZE then |requests| else MAX_BATCH_SIZE
  }

  /** Appends a block holding `batch` to what this chain proposes. */
  function ProposeBatch(c: ChainState, batch: seq<Request>): (ChainState, Block) {
    var block := Block(batch, c.digestParent, c.height + 1);
    (c.(height := c.height + 1, digestParent := Sha256(block)), block)
  }

  function CommitTo(c: ChainState, block: Block): (ChainState, CommitOutcome) {
    if block.parent == c.digestExecute then
      (c.(digestExecute := Sha256(block)), Executable)
    else
      (c.(pending := c.pending[block.parent := Sha256(block)]),
       if block.parent in c.pending then Conflict else Deferred)
  }

  /** The block is not the next one, and another one waits for its parent too. */
  ghost predicate HasRival(c: ChainState, block: Block) {
    block.parent != c.digestExecute && block.parent in c.pending
  }

  function NextOf(c: ChainState): (ChainState, Option<Digest>) {
    if c.digestExecute in c.pending then
      (c.(digestExecute := c.pending[c.digestExecute], pending := c.pending - {c.digestExecute}),
       Some(c.pending[c.digestExecute]))
    else
      (c, None)
  }

  class Chain {
    var digestParent: Digest
    var digestExecute: Digest
    var height: nat
    var pendingExecute: map<Digest, Digest>

    ghost function State(): ChainState
      reads this
    {
      ChainState(digestParent, digestExecute, height, pendingExecute)
    }

    constructor ()
      ensures State() == NEW_CHAIN
    {
      digestParent := GENESIS_DIGEST;
      digestExecute := GENESIS_DIGEST;
      height := 0;
      pendingExecute := map[];
    }

    /** Takes a batch off the front of `requests`; `rest` is what stays queued. */
    method Propose(requests: seq<Request>) returns (block: Block, rest: seq<Request>)
      requires requests != []
      modifies this
      ensures 0 < |block.requests| <= MAX_BATCH_SIZE && block.requests + rest == requests
      ensures rest == [] || |block.requests| == MAX_BATCH_SIZE
      ensures (State(), block) == ProposeBatch(old(State()), requests[..BatchSize(requests)])
      ensures rest == requests[BatchSize(requests)..]
    {
      height := height + 1;
      var size := if |requests| < MAX_BATCH_SIZE then |requests| else MAX_BATCH_SIZE;
      block := Block(requests[..size], digestParent, height);
      rest := requests[size..];
      digestParent := Sha256(block);
    }

    method ProposeEmpty() returns (block: Block)
      modifies this
      ensures (State(), block) == ProposeBatch(old(State()), [])
    {
      height := height + 1;
      block := Block([], digestParent, height);
      digestParent := Sha256(block);
    }

    method Commit(block: Block) returns (outcome: CommitOutcome)
      modifies this
      ensures (State(), outcome) == CommitTo(old(State()), block)
    {
      if block.parent == digestExecute {
        digestExecute := Sha256(block);
        outcome := Executable;
      } else {
        var evicted := block.parent in pendingExecute;
        pendingExecute := pendingExecute[block.parent := Sha256(block)];
        outcome := if evicted then Conflict else Deferred;
      }
    }

    method NextExecute() returns (next: Option<Digest>)
      modifies this
      ensures (State(), next) == NextOf(old(State()))
    {
      if digestExecute in pendingExecute {
        var blockDigest := pendingExecute[digestExecute];
        pendingExecute := pendingExecute - {digestExecute};
        digestExecute := blockDigest;
        next := Some(blockDigest);
      } else {
        next := None;
      }
    }
  }

  // ---------- reassembly of one parent-linked chain ----------

  /** Block number j + 1 waits under the digest of its parent. */
  ghost predicate PendsAt(c: ChainState, blocks: seq<Block>, j: nat)
    requires j < |blocks|
  {
    DigestAt(blocks, j) in c.pending && c.pending[DigestAt(blocks, j)] == DigestAt(blocks, j + 1)
  }

  ghost predicate IsPosition(blocks: seq<Block>, d: Digest, j: nat) {
    j < |blocks| && d == DigestAt(blocks, j)
  }

  /** `d` is the parent of a committed block that is not among the first k. */
  ghost predicate Awaited(blocks: seq<Block>, committed: set<nat>, k: nat, d: Digest) {
    exists j: nat :: IsPosition(blocks, d, j) && j in committed && k <= j
  }

  /** The first k blocks have been handed out for execution and `pending` holds exactly the other
      blocks of `blocks` whose (zero-based) positions were committed. */
  ghost predicate Reassembles(c: ChainState, blocks: seq<Block>, committed: set<nat>, k: nat) {
    && k <= |blocks|
    && (forall j: nat :: j in committed ==> j < |blocks|)
    && (forall j: nat :: j < k ==> j in committed)
    && c.digestExecute == DigestAt(blocks, k)
    && (forall j: nat {:trigger PendsAt(c, blocks, j)} :: j in committed && k <= j ==> PendsAt(c, blocks, j))
    && (forall d :: d in c.pending ==> Awaited(blocks, committed, k, d))
  }

  lemma PositionsDiffer(blocks: seq<Block>, i: nat, j: nat)
    requires Linked(blocks) && i <= |blocks| && j <= |blocks| && i != j
    ensures DigestAt(blocks, i) != DigestAt(blocks, j)
  {
    DepthOnChain(blocks, i);
    DepthOnChain(blocks, j);
  }

  /** Committing a block of the chain for the first time never conflicts, and it is executable at
      once exactly when it is the next one. */
  lemma CommitReassembles(c: ChainState, blocks: seq<Block>, committed: set<nat>, k: nat, j: nat)
    requires Linked(blocks) && Reassembles(c, blocks, committed, k) && k !in committed
    requires j < |blocks| && j !in committed
    ensures CommitTo(c, blocks[j]).1 == if j == k then Executable else Deferred
    ensures Reassembles(CommitTo(c, blocks[j]).0, blocks, committed + {j}, if j == k then k + 1 else k)
  {
    assert LinkAt(blocks, j);
    if j != k {
      PositionsDiffer(blocks, j, k);
    }
    if DigestAt(blocks, j) in c.pending {
      var i: nat :| IsPosition(blocks, DigestAt(blocks, j), i) && i in committed && k <= i;
      PositionsDiffer(blocks, i, j);
      assert false;
    }
    var c' := CommitTo(c, blocks[j]).0;
    var k' := if j == k then k + 1 else k;
    forall i: nat | i in committed + {j} && k' <= i ensures PendsAt(c', blocks, i) {
      if i != j {
        assert PendsAt(c, blocks, i);
      }
    }
    forall d | d in c'.pending
      ensures Awaited(blocks, committed + {j}, k', d)
    {
      if d in c.pending {
        var i: nat :| IsPosition(blocks, d, i) && i in committed && k <= i;
        assert i != k;
      } else {
        assert IsPosition(blocks, d, j);
      }
    }
  }

  /** `next_execute` hands out the next block exactly when that block has been committed. */
  lemma NextReassembles(c: ChainState, blocks: seq<Block>, committed: set<nat>, k: nat)
    requires Linked(blocks) && Reassembles(c, blocks, committed, k)
    ensures k in committed ==>
              && k < |blocks| && NextOf(c).1 == Some(DigestAt(blocks, k + 1))
              && Reassembles(NextOf(c).0, blocks, committed, k + 1)
    ensures k !in committed ==> NextOf(c) == (c, None)
  {
    if k in committed {
      assert PendsAt(c, blocks, k);
      var c' := NextOf(c).0;
      forall j: nat | j in committed && k + 1 <= j ensures PendsAt(c', blocks, j) {
        assert PendsAt(c, blocks, j);
        PositionsDiffer(blocks, j, k);
      }
      forall d | d in c'.pending
        ensures Awaited(blocks, committed, k + 1, d)
      {
        var j: nat :| IsPosition(blocks, d, j) && j in committed && k <= j;
        assert j != k;
      }
    } else if c.digestExecute in c.pending {
      var i: nat :| IsPosition(blocks, c.digestExecute, i) && i in committed && k <= i;
      PositionsDiffer(blocks, i, k);
      assert false;
    }
  }

  lemma DigestAtPrefix(blocks: seq<Block>, more: seq<Block>, k: nat)
    requires k <= |blocks| && blocks <= more
    ensures DigestAt(more, k) == DigestAt(blocks, k)
  {
    assert k > 0 ==> more[k - 1] == blocks[k - 1];
  }

  /** The relation does not depend on blocks proposed later. */
  lemma ReassemblesMore(c: ChainState, blocks: seq<Block>, more: seq<Block>, committed: set<nat>, k: nat)
    requires Reassembles(c, blocks, committed, k) && blocks <= more
    ensures Reassembles(c, more, committed, k)
  {
    DigestAtPrefix(blocks, more, k);
    forall j: nat | j in committed && k <= j ensures PendsAt(c, more, j) {
      assert PendsAt(c, blocks, j);
      DigestAtPrefix(blocks, more, j);
      DigestAtPrefix(blocks, more, j + 1);
    }
    forall d | d in c.pending
      ensures Awaited(more, committed, k, d)
    {
      var j: nat :| IsPosition(blocks, d, j) && j in committed && k <= j;
      DigestAtPrefix(blocks, more, j);
      assert IsPosition(more, d, j);
    }
  }

  lemma NoRepeats(blocks: seq<Block>, executed: seq<Block>, i: nat, j: nat)
    requires Linked(blocks) && executed <= blocks && i < j < |executed|
    ensures executed[i] != executed[j]
  {
    PositionsDiffer(blocks, i + 1, j + 1);
  }

  /** Proposing does not touch the part of a chain that orders execution. */
  lemma SameReassembles(c: ChainState, c': ChainState, blocks: seq<Block>, committed: set<nat>, k: nat)
    requires Reassembles(c, blocks, committed, k)
    requires c'.digestExecute == c.digestExecute && c'.pending == c.pending
    ensures Reassembles(c', blocks, committed, k)
  {
    forall j: nat | j in committed && k <= j ensures PendsAt(c', blocks, j) {
      assert PendsAt(c, blocks, j);
    }
  }

  /** `d` is the digest of one of the blocks. */
  ghost predicate FromChain(blocks: seq<Block>, d: Digest) {
    d.Sha256? && d.block in blocks
  }

  /** `d` is the digest of a block at one of these positions. */
  ghost predicate AtOneOf(blocks: seq<Block>, committed: set<nat>, d: Digest) {
    exists j: nat :: j in committed && j < |blocks| && d == Sha256(blocks[j])
  }

  // ---------- blocks committed any number of times ----------

  ghost predicate PendsSomewhere(c: ChainState, blocks: seq<Block>, d: Digest)
    requires d in c.pending
  {
    exists j: nat :: IsPosition(blocks, d, j) && c.pending[d] == DigestAt(blocks, j + 1)
  }

  /** The first k blocks have been handed out and only blocks of the chain are pending. */
  ghost predicate WithinChain(c: ChainState, blocks: seq<Block>, k: nat) {
    && k <= |blocks|
    && c.digestExecute == DigestAt(blocks, k)
    && forall d :: d in c.pending ==> PendsSomewhere(c, blocks, d)
  }

  /** However often blocks are committed, only the next one is ever executable. */
  lemma CommitWithin(c: ChainState, blocks: seq<Block>, k: nat, j: nat)
    requires Linked(blocks) && WithinChain(c, blocks, k) && j < |blocks|
    ensures CommitTo(c, blocks[j]).1 == Executable <==> j == k
    ensures WithinChain(CommitTo(c, blocks[j]).0, blocks, if j == k then k + 1 else k)
  {
    assert LinkAt(blocks, j);
    if j != k {
      PositionsDiffer(blocks, j, k);
    }
    var c' := CommitTo(c, blocks[j]).0;
    forall d | d in c'.pending ensures PendsSomewhere(c', blocks, d) {
      if d == DigestAt(blocks, j) && j != k {
        assert IsPosition(blocks, d, j);
      } else {
        assert PendsSomewhere(c, blocks, d);
      }
    }
  }

  lemma NextWithin(c: ChainState, blocks: seq<Block>, k: nat)
    requires Linked(blocks) && WithinChain(c, blocks, k)
    ensures NextOf(c).1.Some? ==>
              && k < |blocks| && NextOf(c).1 == Some(DigestAt(blocks, k + 1))
              && WithinChain(NextOf(c).0, blocks, k + 1)
  {
    if NextOf(c).1.Some? {
      assert PendsSomewhere(c, blocks, c.digestExecute);
      var j: nat :| IsPosition(blocks, c.digestExecute, j) && c.pending[c.digestExecute] == DigestAt(blocks, j + 1);
      if j != k {
        PositionsDiffer(blocks, j, k);
        assert false;
      }
      var c' := NextOf(c).0;
      forall d | d in c'.pending ensures PendsSomewhere(c', blocks, d) {
        assert PendsSomewhere(c, blocks, d);
      }
    }
  }

  lemma WithinMore(c: ChainState, blocks: seq<Block>, more: seq<Block>, k: nat)
    requires WithinChain(c, blocks, k) && blocks <= more
    ensures WithinChain(c, more, k)
  {
    DigestAtPrefix(blocks, more, k);
    forall d | d in c.pending ensures PendsSomewhere(c, more, d) {
      assert PendsSomewhere(c, blocks, d);
      var j: nat :| IsPosition(blocks, d, j) && c.pending[d] == DigestAt(blocks, j + 1);
      DigestAtPrefix(blocks, more, j);
      DigestAtPrefix(blocks, more, j + 1);
      assert IsPosition(more, d, j);
    }
  }

  lemma SameWithin(c: ChainState, c': ChainState, blocks: seq<Block>, k: nat)
    requires WithinChain(c, blocks, k)
    requires c'.digestExecute == c.digestExecute && c'.pending == c.pending
    ensures WithinChain(c', blocks, k)
  {
    forall d | d in c'.pending ensures PendsSomewhere(c', blocks, d) {
      assert PendsSomewhere(c, blocks, d);
    }
  }

  // ---------- commit-and-drain as one step ----------

  /** Calls `next_execute` until it has nothing more, returning the digests handed out. */
  function Drain(c: ChainState): (ChainState, seq<Digest>)
    decreases |c.pending|
  {
    if c.digestExecute in c.pending then
      var (c1, next) := NextOf(c);
      SmallerPending(c);
      var (c2, digests) := Drain(c1);
      (c2, [next.value] + digests)
    else
      (c, [])
  }

  lemma SmallerPending(c: ChainState)
    requires c.digestExecute in c.pending
    ensures |NextOf(c).0.pending| < |c.pending|
  {
    assert c.pending.Keys == NextOf(c).0.pending.Keys + {c.digestExecute};
  }

  /** The digests of blocks number lo + 1 to `hi`. */
  function Digests(blocks: seq<Block>, lo: nat, hi: nat): seq<Digest>
    requires lo <= hi <= |blocks|
    decreases hi
  {
    if lo == hi then [] else Digests(blocks, lo, hi - 1) + [DigestAt(blocks, hi)]
  }

  lemma {:induction false} DigestsSplit(blocks: seq<Block>, lo: nat, mid: nat, hi: nat)
    requires lo <= mid <= hi <= |blocks|
    ensures Digests(blocks, lo, hi) == Digests(blocks, lo, mid) + Digests(blocks, mid, hi)
    decreases hi
  {
    if mid != hi {
      DigestsSplit(blocks, lo, mid, hi - 1);
    }
  }

  /** Draining continues up to the first block that is still missing. */
  lemma {:induction false} DrainReassembles(c: ChainState, blocks: seq<Block>, committed: set<nat>, k: nat)
    returns (k': nat)
    requires Linked(blocks) && Reassembles(c, blocks, committed, k)
    ensures k <= k' && k' !in committed && Reassembles(Drain(c).0, blocks, committed, k')
    ensures Drain(c).1 == Digests(blocks, k, k')
    decreases |blocks| - k
  {
    NextReassembles(c, blocks, committed, k);
    if k in committed {
      k' := DrainReassembles(NextOf(c).0, blocks, committed, k + 1);
      DigestsSplit(blocks, k, k + 1, k');
      assert Digests(blocks, k, k + 1) == Digests(blocks, k, k) + [DigestAt(blocks, k + 1)];
    } else {
      k' := k;
    }
  }

  /** Commits the blocks of `order` one by one, draining after each one that was executable:
      the final chain, the digests in the order of execution, and whether no commit conflicted. */
  function CommitAll(order: seq<Block>): (ChainState, seq<Digest>, bool) {
    if order == [] then (NEW_CHAIN, [], true)
    else
      var (c, digests, ok) := CommitAll(order[..|order| - 1]);
      var block := order[|order| - 1];
      var (c1, outcome) := CommitTo(c, block);
      if outcome == Executable then
        var (c2, more) := Drain(c1);
        (c2, digests + [Sha256(block)] + more, ok)
      else
        (c1, digests, ok && outcome == Deferred)
  }

  function PositionSet(positions: seq<nat>): set<nat> {
    set p | p in positions
  }

  /** `order` lists blocks of the chain, each at most once, in an arbitrary order. */
  ghost predicate ArbitraryOrder(blocks: seq<Block>, positions: seq<nat>, order: seq<Block>) {
    && |order| == |positions|
    && (forall i :: 0 <= i < |positions| ==> positions[i] < |blocks| && order[i] == blocks[positions[i]])
    && (forall i, j :: 0 <= i < j < |positions| ==> positions[i] != positions[j])
  }

  lemma OrderPrefix(blocks: seq<Block>, positions: seq<nat>, order: seq<Block>)
    requires ArbitraryOrder(blocks, positions, order) && positions != []
    ensures
      var last := |positions| - 1;
      && |order| == |positions|
      && ArbitraryOrder(blocks, positions[..last], order[..last])
      && positions[last] < |blocks| && order[last] == blocks[positions[last]]
      && positions[last] !in PositionSet(positions[..last])
      && PositionSet(positions) == PositionSet(positions[..last]) + {positions[last]}
  {
    var last := |positions| - 1;
    assert positions == positions[..last] + [positions[last]];
  }

  /** Whatever the order in which blocks of one chain commit, each once, what has been executed is
      the longest prefix of the chain that has been committed, and the rest is pending. */
  lemma {:induction false} ChainRefinesInOrderExecution(
      blocks: seq<Block>, positions: seq<nat>, order: seq<Block>)
    returns (k: nat)
    requires Linked(blocks) && ArbitraryOrder(blocks, positions, order)
    ensures k !in PositionSet(positions)
    ensures Reassembles(CommitAll(order).0, blocks, PositionSet(positions), k)
    ensures CommitAll(order).1 == Digests(blocks, 0, k) && CommitAll(order).2
    decreases |positions|
  {
    hide Reassembles, Linked, CommitTo, Drain, PositionSet, ArbitraryOrder;
    if positions == [] {
      k := 0;
      NothingCommitted(blocks, positions, order);
      return;
    }
    var last := |positions| - 1;
    var j := positions[last];
    OrderPrefix(blocks, positions, order);
    var k0 := ChainRefinesInOrderExecution(blocks, positions[..last], order[..last]);
    k := CommitOneMore(CommitAll(order[..last]).0, blocks, PositionSet(positions[..last]), k0, j);
    if j == k0 {
      DigestsSplit(blocks, 0, k0 + 1, k);
    }
  }

  lemma NothingCommitted(blocks: seq<Block>, positions: seq<nat>, order: seq<Block>)
    requires ArbitraryOrder(blocks, positions, order) && positions == []
    ensures order == [] && 0 !in PositionSet(positions) && Reassembles(NEW_CHAIN, blocks, PositionSet(positions), 0)
  {
  }

  /** One commit followed by draining when it was executable. */
  lemma CommitOneMore(c: ChainState, blocks: seq<Block>, committed: set<nat>, k: nat, j: nat)
    returns (k': nat)
    requires Linked(blocks) && Reassembles(c, blocks, committed, k) && k !in committed
    requires j < |blocks| && j !in committed
    ensures k' !in committed + {j}
    ensures j != k ==>
              && k' == k && CommitTo(c, blocks[j]).1 == Deferred
              && Reassembles(CommitTo(c, blocks[j]).0, blocks, committed + {j}, k)
    ensures j == k ==>
              && k + 1 <= k' <= |blocks| && CommitTo(c, blocks[j]).1 == Executable
              && Reassembles(Drain(CommitTo(c, blocks[j]).0).0, blocks, committed + {j}, k')
              && Drain(CommitTo(c, blocks[j]).0).1 == Digests(blocks, k + 1, k')
  {
    CommitReassembles(c, blocks, committed, k, j);
    if j == k {
      k' := DrainReassembles(CommitTo(c, blocks[j]).0, blocks, committed + {j}, k + 1);
    } else {
      k' := k;
    }
  }

  // ---------- proposing: requests leave the queue in order ----------

  ghost predicate BatchOk(blocks: seq<Block>, i: nat)
    requires i < |blocks|
  {
    0 < |blocks[i].requests| <= MAX_BATCH_SIZE && blocks[i].height == i + 1
  }

  /** The blocks proposed so far are one chain; together with what is still queued they hold every
      request accepted, in order, in batches of at most 100. */
  ghost predicate ProposesInOrder(c: ChainState, queued: seq<Request>, accepted: seq<Request>, blocks: seq<Block>) {
    && Linked(blocks)
    && c.digestParent == DigestAt(blocks, |blocks|) && c.height == |blocks|
    && Flatten(blocks) + queued == accepted
    && forall i: nat :: i < |blocks| ==> BatchOk(blocks, i)
  }

  lemma AcceptKeepsOrder(
      c: ChainState, queued: seq<Request>, accepted: seq<Request>, blocks: seq<Block>, request: Request)
    requires ProposesInOrder(c, queued, accepted, blocks)
    ensures ProposesInOrder(c, queued + [request], accepted + [request], blocks)
  {
    assert Flatten(blocks) + (queued + [request]) == Flatten(blocks) + queued + [request];
  }

  lemma ProposeKeepsOrder(c: ChainState, queued: seq<Request>, accepted: seq<Request>, blocks: seq<Block>)
    requires ProposesInOrder(c, queued, accepted, blocks) && queued != []
    ensures
      var (c', block) := ProposeBatch(c, queued[..BatchSize(queued)]);
      ProposesInOrder(c', queued[BatchSize(queued)..], accepted, blocks + [block])
  {
    var (c', block) := ProposeBatch(c, queued[..BatchSize(queued)]);
    var more := blocks + [block];
    LinkedExtend(blocks, block);
    assert more[..|more| - 1] == blocks;
    assert queued == queued[..BatchSize(queued)] + queued[BatchSize(queued)..];
    assert Flatten(more) + queued[BatchSize(queued)..] == Flatten(blocks) + queued;
    forall i: nat | i < |more| ensures BatchOk(more, i) {
      if i < |blocks| {
        assert BatchOk(blocks, i);
      }
    }
  }
}
