/** Requests, blocks, digests and the replicated application, shared by every protocol. */
module Blocks {
  // A digest is modelled by the block it was computed from, so two blocks have the same digest only if they
  // are the same block and no block can contain its own digest.


  type ReplicaIndex = nat
  type ClientIndex = nat

  /** The primary (or leader) of view 0, the only view the protocols here enter. */
  const PRIMARY: ReplicaIndex := 0

  newtype Byte = x: int | 0 <= x < 256

  type Op = seq<Byte>

  datatype Option<+T> = None | Some(value: T)

  datatype Request = Request(client: ClientIndex, num: nat, op: Op)

  datatype Digest = Zero | Sha256(block: Block)

  datatype Block = Block(requests: seq<Request>, parent: Digest, height: nat)

  const GENESIS: Block := Block([], Zero, 0)

  const GENESIS_DIGEST: Digest := Sha256(GENESIS)

  /** The deterministic application, kept free: its state is the history of operations it ran and
      the result of an operation is everything a deterministic function could depend on. */
  type App = seq<Op>

  type Result = seq<Op>

  function Execute(app: App, op: Op): (App, Result) {
    (app + [op], app + [op])
  }

  // ---------- parent-linked chains ----------

  /** The digest of the k-th block of `blocks`, counting the genesis block as number 0. */
  function DigestAt(blocks: seq<Block>, k: nat): Digest
    requires k <= |blocks|
  {
    if k == 0 then GENESIS_DIGEST else Sha256(blocks[k - 1])
  }

  /** Block number k + 1 names block number k as its parent. */
  ghost predicate LinkAt(blocks: seq<Block>, k: nat)
    requires k < |blocks|
  {
    blocks[k].parent == DigestAt(blocks, k)
  }

  ghost predicate Linked(blocks: seq<Block>) {
    forall k: nat :: k < |blocks| ==> LinkAt(blocks, k)
  }

  /** `ancestor` is `d` itself or is met by following parent digests from `d`. */
  ghost predicate Reaches(d: Digest, ancestor: Digest)
    decreases d
  {
    d == ancestor || (d.Sha256? && Reaches(d.block.parent, ancestor))
  }

  lemma {:induction false} ReachesTransitive(a: Digest, b: Digest, c: Digest)
    requires Reaches(a, b) && Reaches(b, c)
    ensures Reaches(a, c)
    decreases a
  {
    if a != b {
      ReachesTransitive(a.block.parent, b, c);
    }
  }

  ghost function Depth(d: Digest): nat
    decreases d
  {
    if d.Zero? then 0 else 1 + Depth(d.block.parent)
  }

  /** Positions on a chain are told apart by their digests. */
  lemma {:induction false} DepthOnChain(blocks: seq<Block>, k: nat)
    requires Linked(blocks) && k <= |blocks|
    ensures Depth(DigestAt(blocks, k)) == k + 1
  {
    if k != 0 {
      assert LinkAt(blocks, k - 1);
      DepthOnChain(blocks, k - 1);
    } else {
      assert Depth(Zero) == 0;
    }
  }

  /** A digest determines the whole chain that leads to it. */
  lemma {:induction false} DigestFixesChain(a: seq<Block>, i: nat, b: seq<Block>, j: nat)
    requires Linked(a) && i <= |a| && Linked(b) && j <= |b|
    requires DigestAt(a, i) == DigestAt(b, j)
    ensures i == j && a[..i] == b[..j]
    decreases i
  {
    DepthOnChain(a, i);
    DepthOnChain(b, j);
    if i != 0 {
      assert LinkAt(a, i - 1) && LinkAt(b, j - 1);
      DigestFixesChain(a, i - 1, b, j - 1);
      assert a[..i] == a[..i - 1] + [a[i - 1]];
      assert b[..j] == b[..j - 1] + [b[j - 1]];
    }
  }

  /** If the tip of one chain is an ancestor of the tip of another, the first is a prefix. */
  lemma {:induction false} AncestorIsPrefix(a: seq<Block>, b: seq<Block>, k: nat)
    requires Linked(a) && Linked(b) && k <= |b|
    requires Reaches(DigestAt(b, k), DigestAt(a, |a|))
    ensures a <= b
    decreases k
  {
    if DigestAt(b, k) == DigestAt(a, |a|) {
      DigestFixesChain(a, |a|, b, k);
    } else if k == 0 {
      assert false;
    } else {
      assert LinkAt(b, k - 1);
      AncestorIsPrefix(a, b, k - 1);
    }
  }

  lemma LinkedExtend(blocks: seq<Block>, b: Block)
    requires Linked(blocks) && b.parent == DigestAt(blocks, |blocks|)
    ensures Linked(blocks + [b])
  {
    var all := blocks + [b];
    forall k: nat | k < |all| ensures LinkAt(all, k) {
      if k < |blocks| {
        assert LinkAt(blocks, k);
        assert DigestAt(all, k) == DigestAt(blocks, k);
      }
    }
  }

  // ---------- requests carried by blocks, and what running them returns ----------

  function Flatten(blocks: seq<Block>): (r: seq<Request>) {
    if blocks == [] then [] else Flatten(blocks[..|blocks| - 1]) + blocks[|blocks| - 1].requests
  }

  lemma {:induction false} FlattenPrefix(a: seq<Block>, b: seq<Block>)
    requires a <= b
    ensures Flatten(a) <= Flatten(b)
    decreases |b|
  {
    if a == b {
      return;
    }
    FlattenPrefix(a, b[..|b| - 1]);
  }

  /** The application after running all the requests in order. */
  function Ran(requests: seq<Request>): (app: App)
    ensures |app| == |requests|
    ensures forall i :: 0 <= i < |app| ==> app[i] == requests[i].op
  {
    if requests == [] then []
    else Ran(requests[..|requests| - 1]) + [requests[|requests| - 1].op]
  }

  /** `result` is what request number k of `log` returns when the log is run in order. */
  ghost predicate ResultAt(log: seq<Request>, client: ClientIndex, num: nat, result: Result, k: nat) {
    k < |log| && log[k].client == client && log[k].num == num && result == Ran(log[..k + 1])
  }

  ghost predicate IsResult(log: seq<Request>, client: ClientIndex, num: nat, result: Result) {
    exists k: nat :: ResultAt(log, client, num, result, k)
  }

  lemma IsResultLater(log: seq<Request>, more: seq<Request>, client: ClientIndex, num: nat, result: Result)
    requires log <= more && IsResult(log, client, num, result)
    ensures IsResult(more, client, num, result)
  {
    var k: nat :| ResultAt(log, client, num, result, k);
    assert more[..k + 1] == log[..k + 1];
    assert ResultAt(more, client, num, result, k);
  }

  /** Running one more request returns its result. */
  lemma RanOneMore(log: seq<Request>, request: Request)
    ensures Ran(log + [request]) == Ran(log) + [request.op]
    ensures IsResult(log + [request], request.client, request.num, Ran(log) + [request.op])
  {
    var more := log + [request];
    assert more[..|log|] == log && more[..|log| + 1] == more;
    assert ResultAt(more, request.client, request.num, Ran(log) + [request.op], |log|);
  }
}
