/** The HotStuff replica in the form of the source: fields that the handlers update in place, proved
    method by method to compute the functions of module HotStuff. */
module HotStuffReplica {
  import opened Blocks
  import opened Chains
  import opened HotStuff
  import Spec = HotStuff

  class Replica {
    const n: nat
    const f: nat
    const index: ReplicaIndex
    var viewHeight: nat
    var proposeHeight: nat
    var digestCertified: Digest
    var digestLock: Digest
    var requests: seq<Request>
    var replies: map<ClientIndex, (nat, Option<Reply>)>
    var generics: Generics
    var votes: map<Digest, map<ReplicaIndex, Vote>>
    var reorderingGenerics: map<Digest, seq<Generic>>
    const chain: Chain
    var app: App
    var status: Status
    var sentVotes: seq<Vote>
    var sentGenerics: seq<Generic>
    var sentReplies: seq<(ClientIndex, Reply)>
    ghost var executed: seq<Block>

    ghost function Value(): State
      reads this, chain
    {
      Spec.State(n, f, index, viewHeight, proposeHeight, digestCertified, digestLock, requests, replies,
                 generics, votes, reorderingGenerics, chain.State(), app, status, executed,
                 sentVotes, sentGenerics, sentReplies)
    }

    ghost predicate Valid()
      reads this, chain
    {
      WellFormed(Value())
    }

    constructor (n: nat, f: nat, index: ReplicaIndex)
      ensures Valid() && fresh(chain) && Value() == Init(n, f, index)
    {
      this.n := n;
      this.f := f;
      this.index := index;
      viewHeight, proposeHeight := 0, 0;
      digestCertified, digestLock := GENESIS_DIGEST, GENESIS_DIGEST;
      requests, replies := [], map[];
      generics := map[GENESIS_DIGEST := GENESIS_GENERIC];
      votes := map[GENESIS_DIGEST := map[]];
      reorderingGenerics := map[];
      var c := new Chain();
      chain := c;
      app, status, executed := [], Running, [];
      sentVotes, sentGenerics, sentReplies := [], [], [];
    }

    method HandleRequest(request: Request)
      requires Valid()
      modifies this
      ensures Valid() && Value() == Spec.HandleRequest(old(Value()), request)
    {
      if status.Panicked? {
        return;
      }
      if request.client in replies {
        var (requestNum, reply) := replies[request.client];
        if requestNum > request.num {
          return;
        }
        if requestNum == request.num {
          if reply.Some? {
            sentReplies := sentReplies + [(request.client, reply.value)];
          }
          return;
        }
      }
      replies := replies[request.client := (request.num, None)];
      if index != PRIMARY {
        return;
      }
      requests := requests + [request];
    }

    method HandleVote(v: Vote)
      requires Valid()
      modifies this
      ensures Valid() && Value() == Spec.HandleVote(old(Value()), v)
    {
      if status.Panicked? {
        return;
      }
      if v.digest !in generics {
        status := Panicked(UnknownVotedBlock);
        return;
      }
      var blockVotes := if v.digest in votes then votes[v.digest] else map[];
      if |blockVotes| == n - f {
        return;
      }
      blockVotes := blockVotes[v.replica := v];
      votes := votes[v.digest := blockVotes];
      if |blockVotes| == n - f {
        DoUpdateCertified(v.digest);
      }
    }

    method OnPace()
      requires Valid()
      modifies this, chain
      ensures Valid() && Value() == Spec.OnPace(old(Value()))
    {
      if && status.Running?
         && index == PRIMARY
         && (exists c | c in replies :: replies[c].1.None?)
         && BlockHeight(generics, digestCertified) >= proposeHeight
      {
        DoPropose();
      }
    }

    /** The block on top of the certified one, with a batch of the queued requests. */
    method NextBlock() returns (block: Block)
      modifies `requests, chain
      ensures
        var batch := old(requests)[..BatchSize(old(requests))];
        && (chain.State(), block) == ProposeBatch(old(chain.State()).(digestParent := digestCertified), batch)
        && requests == old(requests)[BatchSize(old(requests))..]
    {
      chain.digestParent := digestCertified;
      if requests != [] {
        block, requests := chain.Propose(requests);
      } else {
        block := chain.ProposeEmpty();
      }
    }

    method DoPropose()
      requires Valid()
      modifies this, chain
      ensures Valid() && Value() == Spec.Propose(old(Value()))
    {
      hide GenericsOk;
      var block := NextBlock();
      if digestCertified !in votes {
        status := Panicked(MissingCertificate);
        return;
      }
      var generic := Generic(block, digestCertified, votes[digestCertified].Values, index);
      proposeHeight := generic.block.height;
      sentGenerics := sentGenerics + [generic];
    }

    method HandleGeneric(generic: Generic)
      requires Valid()
      modifies this, chain
      ensures Valid() && Value() == Reorder(old(Value()), generic)
    {
      DoReorderGeneric(generic);
    }

    method HandleLoopback(generic: Generic)
      requires Valid() && generic in sentGenerics
      modifies this, chain
      ensures Valid() && Value() == Spec.HandleLoopback(old(Value()), generic)
    {
      if status.Running? {
        DoInsertGeneric(generic);
      }
    }

    method DoReorderGeneric(generic: Generic)
      requires Valid()
      modifies this, chain
      ensures Valid() && Value() == Reorder(old(Value()), generic)
      decreases Buffered(reorderingGenerics)
    {
      if status.Panicked? {
        return;
      }
      if generic.block.parent !in generics {
        reorderingGenerics := Buffer(reorderingGenerics, generic.block.parent, generic);
        return;
      }
      if generic.certified !in generics {
        reorderingGenerics := Buffer(reorderingGenerics, generic.certified, generic);
        return;
      }
      var blockDigest := Sha256(generic.block);
      DoInsertGeneric(generic);
      if status.Running? && blockDigest in reorderingGenerics {
        var released := reorderingGenerics[blockDigest];
        BufferedWithout(reorderingGenerics, blockDigest);
        reorderingGenerics := reorderingGenerics - {blockDigest};
        ghost var end := ReorderAll(Value(), released);
        for i := 0 to |released|
          invariant Valid() && ReorderAll(Value(), released[i..]) == end
          invariant Buffered(reorderingGenerics) + |released| - i <= old(Buffered(reorderingGenerics))
        {
          assert released[i..][1..] == released[i + 1..];
          DoReorderGeneric(released[i]);
        }
      }
    }

    method DoInsertGeneric(generic: Generic)
      requires Valid() && generic.block.parent in generics && generic.certified in generics
      modifies this, chain
      ensures Valid() && Value() == Spec.InsertGeneric(old(Value()), generic)
    {
      InsertedOk(Value(), generic);
      generics := generics[Sha256(generic.block) := generic];
      if && generic.block.height > viewHeight
         && (|| Extend(generics, generic.block, digestLock)
             || BlockHeight(generics, generic.certified) > BlockHeight(generics, digestLock))
      {
        viewHeight := generic.block.height;
        sentVotes := sentVotes + [Vote(Sha256(generic.block), index)];
      }
      DoUpdate(Sha256(generic.block));
    }

    method DoUpdate(digest3: Digest)
      requires Valid() && digest3 in generics
      modifies this, chain
      ensures Valid() && Value() == Update(old(Value()), digest3)
    {
      assert EntryOk(generics, digest3);
      var digest2 := generics[digest3].certified;
      assert EntryOk(generics, digest2);
      var digest1 := generics[digest2].certified;
      assert EntryOk(generics, digest1);
      var digest0 := generics[digest1].certified;
      DoUpdateCertified(digest2);
      if BlockHeight(generics, digest1) > BlockHeight(generics, digestLock) {
        digestLock := digest1;
      }
      assert Value() == CertifyAndLock(old(Value()), digest3);
      if && generics[digest2].block.parent == digest1
         && generics[digest1].block.parent == digest0
         && digest0 != GENESIS_DIGEST
      {
        DoCommit(generics[digest0].block);
      }
    }

    /** The commit branch of `do_update`. */
    method DoCommit(block: Block)
      modifies this, chain
      ensures Value() == CommitBlock(old(Value()), block)
    {
      var outcome := chain.Commit(block);
      if outcome != Executable {
        status := Panicked(if outcome == Conflict then ConflictingCommit else NotExecutable);
        return;
      }
      executed := executed + [block];
      DoExecute(block.requests);
      var next := chain.NextExecute();
      if next.Some? {
        status := Panicked(PendingExecute);
      }
    }

    method DoExecute(requests: seq<Request>)
      modifies `app, `replies, `sentReplies
      ensures Value() == RunRequests(old(Value()), requests)
    {
      for i := 0 to |requests|
        invariant RunRequests(Value(), requests[i..]) == RunRequests(old(Value()), requests)
      {
        var request := requests[i];
        assert requests[i..][0] == request && requests[i..][1..] == requests[i + 1..];
        var (app', result) := Execute(app, request.op);
        app := app';
        var reply := Reply(request.num, result, index);
        replies := replies[request.client := (request.num, Some(reply))];
        sentReplies := sentReplies + [(request.client, reply)];
      }
    }

    method DoUpdateCertified(d: Digest)
      requires Valid() && d in generics
      modifies this`digestCertified
      ensures Valid() && Value() == UpdateCertified(old(Value()), d)
    {
      if BlockHeight(generics, d) > BlockHeight(generics, digestCertified) {
        digestCertified := d;
      }
    }
  }
}
