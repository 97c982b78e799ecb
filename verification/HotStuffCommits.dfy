/** What an insertion certifies, locks and executes, over any history of one replica and whatever proposals reach it. */
module HotStuffCommits {
  // Nothing is assumed of the proposals: certified digests and parent digests may be any. The links are followed as
  // they are, and where the certified digests are not the parents too, nothing is executed.

  import opened Blocks
  import opened HotStuff
  import opened HotStuffRuns
  import HotStuffPrimarySteps
  import opened HotStuffInsertions
  import opened HotStuffVoting
  import opened HotStuffCounting

  ghost predicate Certifies(generics: Generics, d: Digest, e: Digest) {
    d in generics && generics[d].certified == e
  }

  ghost predicate IsParent(generics: Generics, d: Digest, e: Digest) {
    d in generics && generics[d].block.parent == e
  }

  /** The block of d3 certifies d2, the block of d2 d1 and the block of d1 d0, and the last two links go to parents. */
  ghost predicate ThreeChain(generics: Generics, d3: Digest, d2: Digest, d1: Digest, d0: Digest) {
    && Certifies(generics, d3, d2) && Certifies(generics, d2, d1) && Certifies(generics, d1, d0)
    && IsParent(generics, d2, d1) && IsParent(generics, d1, d0)
    && d0 != GENESIS_DIGEST
  }

  ghost predicate Heads(generics: Generics, d3: Digest, d0: Digest) {
    exists d2, d1 :: ThreeChain(generics, d3, d2, d1, d0)
  }

  lemma TargetIff(generics: Generics, d3: Digest, d0: Digest)
    requires GenericsOk(generics) && d3 in generics
    ensures CommitTarget(generics, d3) == Some(d0) <==> Heads(generics, d3, d0)
  {
    assert EntryOk(generics, d3);
    var d2 := generics[d3].certified;
    assert EntryOk(generics, d2);
    var d1 := generics[d2].certified;
    assert EntryOk(generics, d1);
    if CommitTarget(generics, d3) == Some(d0) {
      assert ThreeChain(generics, d3, d2, d1, d0);
    }
  }

  ghost function LastDigest(log: seq<Block>): Digest {
    if log == [] then GENESIS_DIGEST else Sha256(log[|log| - 1])
  }

  /** Execution stands at the last executed block while the replica runs. */
  ghost predicate AtLast(s: State) {
    s.status.Running? ==> s.chain.digestExecute == LastDigest(s.executed)
  }

  /** What `do_update` does after a block is in: it certifies the block that the new one certifies and locks the one
      that this one certifies, if they are higher, and executes the head of three certified digests if it is next; if it
      is not, the replica stops. */
  ghost predicate UpdatesExactly(s: State, g: Generic, r: State)
    requires WellFormed(s)
  {
    var d3 := Sha256(g.block);
    && r.generics == s.generics[d3 := g]
    && g.certified in r.generics
    && (var d2 := g.certified; var d1 := r.generics[d2].certified;
        && r.digestCertified == (if Height(d2) > Height(s.digestCertified) then d2 else s.digestCertified)
        && r.digestLock == (if Height(d1) > Height(s.digestLock) then d1 else s.digestLock))
    && (forall d0 :: Heads(r.generics, d3, d0) ==>
          && d0 in r.generics
          && var next := r.generics[d0].block.parent == LastDigest(s.executed);
          && r.executed == (if next then s.executed + [r.generics[d0].block] else s.executed)
          && r.status == (if next then Running else Panicked(NotExecutable)))
    && ((forall d0 :: !Heads(r.generics, d3, d0)) ==> r.executed == s.executed && r.status == s.status)
  }

  lemma InsertUpdates(s: State, g: Generic)
    requires WellFormed(s) && s.status.Running? && AtLast(s)
    requires g.block.parent in s.generics && g.certified in s.generics
    ensures UpdatesExactly(s, g, InsertGeneric(s, g)) && AtLast(InsertGeneric(s, g))
  {
    hide WellFormed, InsertGeneric, Update, CommitTarget, Heads, GenericsOk;
    var d3, r := Sha256(g.block), InsertGeneric(s, g);
    var s1 := BeforeUpdate(s, g);
    UpdateLocks(s, s1, g);
    UpdateRuns(s1, d3);
    KnownGenerics(s1);
    forall d0 ensures CommitTarget(s1.generics, d3) == Some(d0) <==> Heads(r.generics, d3, d0) {
      TargetIff(s1.generics, d3, d0);
    }
  }

  lemma BeforeUpdate(s: State, g: Generic) returns (s1: State)
    requires WellFormed(s) && g.block.parent in s.generics && g.certified in s.generics
    ensures s1 == s.(generics := s.generics[Sha256(g.block) := g], viewHeight := s1.viewHeight, sentVotes := s1.sentVotes)
    ensures WellFormed(s1) && InsertGeneric(s, g) == Update(s1, Sha256(g.block))
  {
    hide Update, EntryOk, Extend;
    InsertedOk(s, g);
    s1 := VoteFor(s.(generics := s.generics[Sha256(g.block) := g]), g);
  }

  lemma KnownGenerics(s: State)
    requires WellFormed(s)
    ensures GenericsOk(s.generics)
  {
  }

  lemma UpdateLocks(s: State, s1: State, g: Generic)
    requires WellFormed(s) && WellFormed(s1) && s1.generics == s.generics[Sha256(g.block) := g]
    requires g.block.parent in s.generics && g.certified in s.generics
    requires s1.digestCertified == s.digestCertified && s1.digestLock == s.digestLock
    ensures g.certified in s1.generics
    ensures
      var r, d1 := Update(s1, Sha256(g.block)), s1.generics[g.certified].certified;
      && r.generics == s1.generics
      && r.digestCertified == (if Height(g.certified) > Height(s.digestCertified) then g.certified else s.digestCertified)
      && r.digestLock == (if Height(d1) > Height(s.digestLock) then d1 else s.digestLock)
  {
    hide CommitBlock, CommitTarget;
    assert EntryOk(s1.generics, g.certified);
    HeightOfEntry(s1.generics, g.certified);
    HeightOfEntry(s1.generics, s.digestCertified);
    HeightOfEntry(s1.generics, s1.generics[g.certified].certified);
    HeightOfEntry(s1.generics, s.digestLock);
  }

  lemma UpdateRuns(s: State, d3: Digest)
    requires WellFormed(s) && d3 in s.generics && s.status.Running? && AtLast(s)
    ensures
      var r, target := Update(s, d3), CommitTarget(s.generics, d3);
      && AtLast(r)
      && (target.None? ==> r.executed == s.executed && r.status == s.status)
      && (target.Some? ==>
            && target.value in s.generics
            && var next := s.generics[target.value].block.parent == LastDigest(s.executed);
            && r.executed == (if next then s.executed + [s.generics[target.value].block] else s.executed)
            && r.status == (if next then Running else Panicked(NotExecutable)))
  {
    hide GenericsOk, CommitTarget;
    HotStuffPrimarySteps.UpdateExecutes(s, d3);
    assert WellFormed(s) && CommitTarget(s.generics, d3).Some? ==> CommitTarget(s.generics, d3).value in s.generics;
  }

  // ---------- histories ----------

  ghost predicate CanUpdate(i: Insertion) {
    i.before.status.Running? && AtLast(i.before)
  }

  lemma SameAtLast(s: State, r: State)
    requires AtLast(s) && r.executed == s.executed && r.chain.digestExecute == s.chain.digestExecute
    requires s.status.Panicked? ==> r.status.Panicked?
    ensures AtLast(r)
  {
  }

  lemma {:induction false} ReorderAtLast(s: State, g: Generic)
    requires WellFormed(s) && AtLast(s)
    ensures AtLast(Reorder(s, g)) && forall i :: i in Inserts(s, g) ==> CanUpdate(i)
    decreases Buffered(s.reordering) + 1, 0, 0
  {
    hide WellFormed, InsertGeneric, AtLast, UpdatesExactly;
    if s.status.Panicked? {
    } else if g.block.parent !in s.generics || g.certified !in s.generics {
      SameAtLast(s, Reorder(s, g));
    } else {
      var inserted, d := InsertGeneric(s, g), Sha256(g.block);
      InsertUpdates(s, g);
      if inserted.status.Running? && d in inserted.reordering {
        BufferedWithout(s.reordering, d);
        SameAtLast(inserted, Released(inserted, d));
        ReorderAllAtLast(Released(inserted, d), inserted.reordering[d]);
      }
    }
  }

  lemma {:induction false} ReorderAllAtLast(s: State, gs: seq<Generic>)
    requires WellFormed(s) && AtLast(s)
    ensures AtLast(ReorderAll(s, gs)) && forall i :: i in InsertsAll(s, gs) ==> CanUpdate(i)
    decreases Buffered(s.reordering) + |gs|, 1, |gs|
  {
    hide WellFormed, AtLast;
    if gs != [] {
      ReorderAtLast(s, gs[0]);
      ReorderAllAtLast(Reorder(s, gs[0]), gs[1..]);
    }
  }

  lemma NextAtLast(s: State, e: Event)
    requires WellFormed(s) && AtLast(s)
    ensures AtLast(NextState(s, e))
  {
    hide WellFormed, InsertGeneric, HandleRequest, HandleVote, OnPace, Reorder, AtLast, UpdatesExactly;
    match e
    case RequestArrives(request) => RequestQuiet(s, request);
    case ProposalArrives(g) => ReorderAtLast(s, g);
    case OwnProposalArrives(g) =>
      if g in s.sentGenerics && s.status.Running? {
        OwnKnown(s, g);
        InsertUpdates(s, g);
      }
    case VoteArrives(v) => VoteQuiet(s, v);
    case Pace => PaceQuiet(s);
  }

  lemma RequestQuiet(s: State, request: Request)
    requires AtLast(s)
    ensures AtLast(HandleRequest(s, request))
  {
  }

  lemma VoteQuiet(s: State, v: Vote)
    requires WellFormed(s) && AtLast(s)
    ensures AtLast(HandleVote(s, v))
  {
    hide GenericsOk, AtLast;
    SameAtLast(s, HandleVote(s, v));
  }

  lemma PaceQuiet(s: State)
    requires WellFormed(s) && AtLast(s)
    ensures AtLast(OnPace(s))
  {
    hide GenericsOk, AtLast;
    SameAtLast(s, OnPace(s));
  }

  lemma {:induction false} HistoryAtLast(n: nat, f: nat, index: ReplicaIndex, events: seq<Event>)
    ensures AtLast(After(n, f, index, events))
    decreases |events|
  {
    hide NextState, AtLast;
    if events == [] {
      assert AtLast(Init(n, f, index)) by { StartAtLast(n, f, index); }
    } else {
      HistoryAtLast(n, f, index, events[..|events| - 1]);
      NextAtLast(After(n, f, index, events[..|events| - 1]), events[|events| - 1]);
    }
  }

  lemma StartAtLast(n: nat, f: nat, index: ReplicaIndex)
    ensures AtLast(Init(n, f, index))
  {
  }

  /** Over any history of a replica, whatever proposals reach it: each insertion an event leads to certifies, locks and
      executes exactly what the certified and parent digests from the new block call for. */
  lemma InsertionsUpdateExactly(
      n: nat, f: nat, index: ReplicaIndex, events: seq<Event>, e: Event, i: Insertion)
    requires i in InsertionsBy(After(n, f, index, events), e)
    ensures CanInsert(i) && UpdatesExactly(i.before, i.proposal, InsertGeneric(i.before, i.proposal))
  {
    hide After, WellFormed, AtLast, UpdatesExactly;
    var s := After(n, f, index, events);
    HistoryAtLast(n, f, index, events);
    if e.ProposalArrives? {
      ReorderAtLast(s, e.proposal);
    } else {
      OwnKnown(s, e.own);
    }
    InsertUpdates(i.before, i.proposal);
  }
}
