/** The Zyzzyva replica in the form of the source: fields that the handlers update in place, proved
    method by method to compute the functions of module Zyzzyva. */
module ZyzzyvaReplica {
  import opened Blocks
  import opened Chains
  import opened Zyzzyva
  import Spec = Zyzzyva

  class Replica {
    const n: nat
    const index: ReplicaIndex
    const viewNum: nat
    var requests: seq<Request>
    var orderRequests: map<Digest, OrderRequest>
    var commits: map<Digest, Commit>
    const chain: Chain
    var app: App
    var status: Status
    ghost var accepted: seq<Request>
    ghost var executed: seq<Block>
    var sentOrderRequests: seq<OrderRequest>
    var sentResponses: seq<(seq<ClientIndex>, SpecResponse)>
    var sentLocalCommits: seq<(nat, LocalCommit)>

    ghost function Value(): State
      reads this, chain
    {
      State(n, index, viewNum, requests, orderRequests, commits, chain.State(), app, status, accepted, executed,
            sentOrderRequests, sentResponses, sentLocalCommits)
    }

    ghost predicate Valid()
      reads this, chain
    {
      WellFormed(Value())
    }

    constructor (n: nat, index: ReplicaIndex)
      requires n > 0
      ensures Valid() && fresh(chain) && Value() == Init(n, index)
    {
      this.n, this.index, this.viewNum := n, index, 0;
      requests, orderRequests, commits := [], map[], map[];
      var c := new Chain();
      chain := c;
      app, status, accepted, executed := [], Running, [], [];
      sentOrderRequests, sentResponses, sentLocalCommits := [], [], [];
    }

    method HandleRequest(request: Request)
      requires Valid()
      modifies this
      ensures Valid() && Value() == Spec.HandleRequest(old(Value()), request)
    {
      if status != Running || index != viewNum % n {
        return;
      }
      requests := requests + [request];
      accepted := accepted + [request];
    }

    method HandleOrderRequest(message: OrderRequest)
      requires Valid()
      modifies this, chain
      ensures Valid() && Value() == Spec.HandleOrderRequest(old(Value()), message)
    {
      if status != Running || message.viewNum < viewNum || message.viewNum > viewNum {
        return;
      }
      var digest := Sha256(message.block);
      orderRequests := orderRequests[digest := message];
      DoExecuteBlock(digest);
    }

    method HandleCommit(remote: nat, commit: Commit)
      requires Valid()
      modifies this
      ensures Valid() && Value() == Spec.HandleCommit(old(Value()), remote, commit)
    {
      if status != Running {
        return;
      }
      var localCommit := LocalCommit(commit.digest, index);
      if commit.digest in commits {
        sentLocalCommits := sentLocalCommits + [(remote, localCommit)];
        return;
      }
      if commit.digest !in orderRequests {
        return;
      }
      commits := commits[commit.digest := commit];
      sentLocalCommits := sentLocalCommits + [(remote, localCommit)];
    }

    method OnPace()
      requires Valid()
      modifies this, chain
      ensures Valid() && Value() == Spec.OnPace(old(Value()))
    {
      if status == Running && index == viewNum % n && requests != [] {
        var block: Block;
        block, requests := chain.Propose(requests);
        sentOrderRequests := sentOrderRequests + [OrderRequest(viewNum, block)];
      }
    }

    method DoExecuteBlock(digest: Digest)
      requires Valid() && digest in orderRequests
      modifies this, chain
      ensures Valid() && Value() == DoExecute(old(Value()), digest)
    {
      var block := orderRequests[digest].block;
      var outcome := chain.Commit(block);
      if outcome == Conflict {
        status := ConflictingCommit;
        return;
      }
      if outcome == Deferred {
        return;
      }
      DoExecuteFrom(block);
    }

    /** The loop of `do_execute`. */
    method DoExecuteFrom(first: Block)
      requires Valid()
      modifies this, chain
      ensures Valid() && Value() == ExecuteFrom(old(Value()), first)
    {
      hide RunBlock, ExecuteFrom, WellFormed;
      var block := first;
      ghost var end := ExecuteFrom(Value(), first);
      var more := true;
      while more
        invariant Valid()
        invariant if more then ExecuteFrom(Value(), block) == end else Value() == end
        decreases more, |chain.pendingExecute|
      {
        ExecuteFromStep(Value(), block);
        DoRunBlock(block);
        var next := chain.NextExecute();
        if next.Some? {
          block := orderRequests[next.value].block;
        } else {
          more := false;
        }
      }
    }

    method DoRunBlock(block: Block)
      modifies `app, `sentResponses, `executed
      ensures Value() == RunBlock(old(Value()), block)
    {
      var results, clients := [], [];
      for i := 0 to |block.requests|
        invariant (app, results) == RunRequests(old(app), block.requests[..i])
        invariant clients == ClientsOf(block.requests[..i])
        invariant sentResponses == old(sentResponses) && executed == old(executed)
      {
        var request := block.requests[i];
        assert block.requests[..i + 1][..i] == block.requests[..i];
        var (app', result) := Execute(app, request.op);
        app := app';
        results := results + [result];
        clients := clients + [request.client];
      }
      assert block.requests[..|block.requests|] == block.requests;
      sentResponses := sentResponses + [(clients, SpecResponse(block, results, index))];
      executed := executed + [block];
    }
  }
}
