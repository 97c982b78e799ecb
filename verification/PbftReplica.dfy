/** The PBFT replica in the form of the source: fields that the handlers update in place, proved
    method by method to compute the functions of module Pbft. */
module PbftReplica {
  import opened Blocks
  import opened Chains
  import opened Pbft
  import Spec = Pbft

  class Replica {
    const n: nat
    const f: nat
    const index: ReplicaIndex
    const viewNum: nat
    var requests: seq<Request>
    var prePrepares: map<Digest, PrePrepare>
    var prepareCertificates: map<Digest, map<ReplicaIndex, Prepare>>
    var commitCertificates: map<Digest, map<ReplicaIndex, Commit>>
    const chain: Chain
    var app: App
    var status: Status
    ghost var accepted: seq<Request>
    ghost var executed: seq<Block>
    var sentPrePrepares: seq<PrePrepare>
    var sentPrepares: seq<Prepare>
    var sentCommits: seq<Commit>
    var sentReplies: seq<(ClientIndex, Reply)>

    ghost function Value(): State
      reads this, chain
    {
      State(n, f, index, viewNum, requests, prePrepares, prepareCertificates, commitCertificates, chain.State(), app,
            status, accepted, executed, sentPrePrepares, sentPrepares, sentCommits, sentReplies)
    }

    ghost predicate Valid()
      reads this, chain
    {
      WellFormed(Value())
    }

    constructor (n: nat, f: nat, index: ReplicaIndex)
      requires n > f
      ensures Valid() && fresh(chain) && Value() == Init(n, f, index)
    {
      this.n, this.f, this.index, this.viewNum := n, f, index, 0;
      requests, prePrepares, prepareCertificates, commitCertificates := [], map[], map[], map[];
      var c := new Chain();
      chain := c;
      app, status, accepted, executed := [], Running, [], [];
      sentPrePrepares, sentPrepares, sentCommits, sentReplies := [], [], [], [];
    }

    method HandleRequest(request: Request)
      requires Valid()
      modifies this
      ensures Valid() && Value() == Spec.HandleRequest(old(Value()), request)
    {
      if status.Panicked? || index != viewNum % n {
        return;
      }
      requests := requests + [request];
      accepted := accepted + [request];
    }

    method HandlePrePrepare(message: PrePrepare)
      requires Valid()
      modifies this
      ensures Valid() && Value() == Spec.HandlePrePrepare(old(Value()), message)
    {
      if status.Panicked? || message.viewNum < viewNum || message.viewNum > viewNum {
        return;
      }
      var blockDigest := Sha256(message.block);
      prePrepares := prePrepares[blockDigest := message];
      if index == viewNum % n {
        status := Panicked(PrimaryPrepares);
        return;
      }
      sentPrepares := sentPrepares + [Prepare(viewNum, blockDigest, index)];
    }

    method HandlePrepare(prepare: Prepare)
      requires Valid()
      modifies this
      ensures Valid() && Value() == Spec.HandlePrepare(old(Value()), prepare)
    {
      if status.Running? && prepare.viewNum == viewNum {
        DoInsertPrepare(prepare);
      }
    }

    method HandleCommit(commit: Commit)
      requires Valid()
      modifies this, chain
      ensures Valid() && Value() == Spec.HandleCommit(old(Value()), commit)
    {
      if status.Running? && commit.viewNum == viewNum {
        DoInsertCommit(commit);
      }
    }

    method HandleLoopbackPrePrepare(message: PrePrepare)
      requires Valid()
      modifies this
      ensures Valid() && Value() == LoopbackPrePrepare(old(Value()), message)
    {
      if status.Running? {
        prePrepares := prePrepares[Sha256(message.block) := message];
      }
    }

    method HandleLoopbackPrepare(prepare: Prepare)
      requires Valid()
      modifies this
      ensures Valid() && Value() == LoopbackPrepare(old(Value()), prepare)
    {
      if status.Running? {
        DoInsertPrepare(prepare);
      }
    }

    method HandleLoopbackCommit(commit: Commit)
      requires Valid()
      modifies this, chain
      ensures Valid() && Value() == LoopbackCommit(old(Value()), commit)
    {
      if status.Running? {
        DoInsertCommit(commit);
      }
    }

    method OnPace()
      requires Valid()
      modifies this, chain
      ensures Valid() && Value() == Spec.OnPace(old(Value()))
    {
      if status.Running? && index == viewNum % n && requests != [] {
        var block: Block;
        block, requests := chain.Propose(requests);
        sentPrePrepares := sentPrePrepares + [PrePrepare(viewNum, block)];
      }
    }

    method DoInsertPrepare(prepare: Prepare)
      requires Valid()
      modifies this
      ensures Valid() && Value() == InsertPrepare(old(Value()), prepare)
    {
      var blockDigest := prepare.digest;
      var certificate := CertificateOf(prepareCertificates, blockDigest);
      if |certificate| + 1 > n - f {
        status := Panicked(TooManyPrepares);
        return;
      }
      if |certificate| + 1 == n - f {
        prepareCertificates := prepareCertificates[blockDigest := certificate];
        if prepare.replica != index {
          return;
        }
      } else {
        certificate := certificate[prepare.replica := prepare];
        prepareCertificates := prepareCertificates[blockDigest := certificate];
      }
      if blockDigest in prePrepares && |certificate| + 1 == n - f {
        sentCommits := sentCommits + [Commit(viewNum, blockDigest, index)];
      }
    }

    method DoInsertCommit(commit: Commit)
      requires Valid()
      modifies this, chain
      ensures Valid() && Value() == InsertCommit(old(Value()), commit)
    {
      var blockDigest := commit.digest;
      var certificate := CertificateOf(commitCertificates, blockDigest);
      if |certificate| > n - f {
        status := Panicked(TooManyCommits);
        return;
      }
      if |certificate| == n - f {
        commitCertificates := commitCertificates[blockDigest := certificate];
        return;
      }
      certificate := certificate[commit.replica := commit];
      commitCertificates := commitCertificates[blockDigest := certificate];
      if |certificate| >= n - f {
        DoExecuteBlock(blockDigest);
      }
    }

    method DoExecuteBlock(blockDigest: Digest)
      requires Valid()
      modifies this, chain
      ensures Valid() && Value() == DoExecute(old(Value()), blockDigest)
    {
      if blockDigest !in prePrepares {
        status := Panicked(MissingPrePrepare);
        return;
      }
      var block := prePrepares[blockDigest].block;
      var outcome := chain.Commit(block);
      if outcome == Conflict {
        status := Panicked(ConflictingCommit);
        return;
      }
      if outcome == Deferred {
        return;
      }
      DoExecuteFrom(block, blockDigest);
    }

    /** The loop of `do_execute`. */
    method DoExecuteFrom(first: Block, blockDigest: Digest)
      requires Valid()
      modifies this, chain
      ensures Valid() && Value() == ExecuteFrom(old(Value()), first, blockDigest)
    {
      hide RunBlock, ExecuteFrom, WellFormed;
      var block := first;
      ghost var end := ExecuteFrom(Value(), first, blockDigest);
      var more := true;
      while more
        invariant Valid()
        invariant if more then ExecuteFrom(Value(), block, blockDigest) == end else Value() == end
        decreases more, |chain.pendingExecute|
      {
        ExecuteFromStep(Value(), block, blockDigest);
        DoRunBlock(block, blockDigest);
        var next := chain.NextExecute();
        if next.Some? {
          block := prePrepares[next.value].block;
        } else {
          more := false;
        }
      }
    }

    method DoRunBlock(block: Block, blockDigest: Digest)
      modifies `app, `sentReplies, `executed
      ensures Value() == RunBlock(old(Value()), block, blockDigest)
    {
      executed := executed + [block];
      ghost var end := RunRequests(Value(), block.requests, blockDigest);
      for i := 0 to |block.requests|
        invariant RunRequests(Value(), block.requests[i..], blockDigest) == end
      {
        var request := block.requests[i];
        assert block.requests[i..][0] == request && block.requests[i..][1..] == block.requests[i + 1..];
        var (app', result) := Execute(app, request.op);
        app := app';
        sentReplies := sentReplies + [(request.client, Reply(request.num, result, blockDigest, index))];
      }
    }
  }
}
