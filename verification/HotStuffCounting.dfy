/** What a HotStuff replica counts and proposes, over any history of one replica, told from what it received. */
module HotStuffCounting {
  // It certifies a block as soon as n - f replicas' votes for it have arrived, whatever else arrived in between, and
  // at a pace the primary proposes exactly when a client waits and its last proposal is certified.

  import opened Blocks
  import opened Quorums
  import opened Chains
  import opened HotStuff
  import opened HotStuffRuns
  import opened HotStuffReorder
  import opened HotStuffPrimarySteps
  import opened HotStuffVoting

  // ---------- histories of one replica ----------

  /** A replica after some events. A proposal it has not sent does not come back to it. */
  ghost function After(n: nat, f: nat, index: ReplicaIndex, events: seq<Event>): (s: State)
    ensures WellFormed(s)
    decreases |events|
  {
    if events == [] then Init(n, f, index) else NextState(After(n, f, index, events[..|events| - 1]), events[|events| - 1])
  }

  ghost function NextState(s: State, e: Event): (s': State)
    requires WellFormed(s)
    ensures WellFormed(s')
  {
    if e.OwnProposalArrives? then (if e.own in s.sentGenerics then HandleLoopback(s, e.own) else s)
    else QuietFrame(s, e); Handle(s, e)
  }

  /** What a correct replica does in a run is such a history, so what follows holds in runs. */
  lemma {:induction false} RunIsHistory(c: Config, run: seq<System>, r: ReplicaIndex) returns (events: seq<Event>)
    requires ValidConfig(c) && IsRun(c, run) && r in Correct(c)
    ensures r in run[|run| - 1] && run[|run| - 1][r] == After(c.n, c.f, r, events)
    decreases |run|
  {
    hide WellFormed, Handle, Acceptable;
    if |run| == 1 {
      events := [];
    } else {
      RunWithoutLast(c, run);
      var before := RunIsHistory(c, run[..|run| - 1], r);
      var sys, sys' := run[|run| - 2], run[|run| - 1];
      var q, e :| StepBy(c, sys, sys', q, e);
      if q == r {
        events := before + [e];
        assert events[..|before|] == before;
        StepIsNext(c, sys, r, e);
      } else {
        events := before;
      }
    }
  }

  lemma StepIsNext(c: Config, sys: System, r: ReplicaIndex, e: Event)
    requires r in sys && WellFormed(sys[r]) && Enabled(c, sys, r, e)
    ensures e.OwnProposalArrives? ==> e.own in sys[r].sentGenerics
    ensures NextState(sys[r], e) == Handle(sys[r], e)
  {
    hide WellFormed, Acceptable, Reorder, InsertGeneric;
  }

  // ---------- counting votes ----------

  /** The replicas in whose name a vote for `d` has arrived. */
  ghost function VotersIn(events: seq<Event>, d: Digest): set<ReplicaIndex> {
    set e | e in events && e.VoteArrives? && e.vote.digest == d :: e.vote.replica
  }

  ghost function HeldVotes(s: State, d: Digest): map<ReplicaIndex, Vote> {
    if d in s.votes then s.votes[d] else map[]
  }

  /** The votes held are the first n - f of those that arrived. */
  ghost predicate CountsVotes(s: State, d: Digest, voters: set<ReplicaIndex>) {
    && HeldVotes(s, d).Keys <= voters && |HeldVotes(s, d)| <= s.n - s.f
    && (HeldVotes(s, d).Keys == voters || |HeldVotes(s, d)| == s.n - s.f)
  }

  /** What is kept while the replica runs; `height` counts its proposals. */
  ghost predicate CountsKept(s: State, n: nat, f: nat, index: ReplicaIndex, events: seq<Event>) {
    && s.n == n && s.f == f && s.index == index && Tops(s)
    && (s.status.Running? ==>
          && (forall d :: CountsVotes(s, d, VotersIn(events, d)))
          && s.chain.height == |s.sentGenerics| && s.proposeHeight == |s.sentGenerics|)
  }

  lemma VotersOneMore(events: seq<Event>, e: Event, d: Digest)
    ensures VotersIn(events + [e], d)
              == VotersIn(events, d) + if e.VoteArrives? && e.vote.digest == d then {e.vote.replica} else {}
  {
  }

  lemma VotesAfter(s: State, v: Vote)
    requires WellFormed(s) && HandleVote(s, v).status.Running?
    ensures
      var s', held := HandleVote(s, v), HeldVotes(s, v.digest);
      && s'.n == s.n && s'.f == s.f
      && s'.votes == if |held| == s.n - s.f then s.votes else s.votes[v.digest := held[v.replica := v]]
  {
    hide GenericsOk, BlockHeight;
  }

  lemma VoteEffect(s: State, v: Vote, d: Digest)
    requires WellFormed(s) && |HeldVotes(s, v.digest)| <= s.n - s.f && HandleVote(s, v).status.Running?
    ensures
      var s', held := HandleVote(s, v), HeldVotes(s, d);
      && s'.n == s.n && s'.f == s.f
      && HeldVotes(s', d) == if v.digest == d && |held| < s.n - s.f then held[v.replica := v] else held
  {
    hide WellFormed, HandleVote;
    VotesAfter(s, v);
  }

  lemma VoteCounts(s: State, v: Vote, d: Digest, voters: set<ReplicaIndex>)
    requires WellFormed(s) && |HeldVotes(s, v.digest)| <= s.n - s.f && CountsVotes(s, d, voters)
    requires HandleVote(s, v).status.Running?
    ensures CountsVotes(HandleVote(s, v), d, voters + if v.digest == d then {v.replica} else {})
  {
    hide WellFormed, HeldVotes, HandleVote;
    VoteEffect(s, v, d);
    var held := HeldVotes(s, d);
    assert held[v.replica := v].Keys == held.Keys + {v.replica};
    assert |held[v.replica := v]| == |held[v.replica := v].Keys| && |held| == |held.Keys|;
  }

  /** Only votes touch what is counted, and only paces what is proposed. */
  ghost predicate SameCounts(s: State, s': State) {
    && s'.n == s.n && s'.f == s.f && s'.index == s.index && s'.votes == s.votes
    && s'.sentGenerics == s.sentGenerics && s'.chain.height == s.chain.height && s'.proposeHeight == s.proposeHeight
    && (s.status.Panicked? ==> s'.status.Panicked?)
  }

  lemma InsertSameCounts(s: State, g: Generic)
    requires WellFormed(s) && s.status.Running? && g.block.parent in s.generics && g.certified in s.generics
    ensures SameCounts(s, InsertGeneric(s, g))
  {
    hide WellFormed;
  }

  lemma {:induction false} ReorderSameCounts(s: State, g: Generic)
    requires WellFormed(s)
    ensures SameCounts(s, Reorder(s, g))
    decreases Buffered(s.reordering) + 1, 0, 0
  {
    hide WellFormed, InsertGeneric;
    if s.status.Running? && g.block.parent in s.generics && g.certified in s.generics {
      var inserted, d := InsertGeneric(s, g), Sha256(g.block);
      InsertSameCounts(s, g);
      if inserted.status.Running? && d in inserted.reordering {
        BufferedWithout(s.reordering, d);
        ReorderAllSameCounts(Released(inserted, d), inserted.reordering[d]);
      }
    }
  }

  lemma {:induction false} ReorderAllSameCounts(s: State, gs: seq<Generic>)
    requires WellFormed(s)
    ensures SameCounts(s, ReorderAll(s, gs))
    decreases Buffered(s.reordering) + |gs|, 1, |gs|
  {
    hide WellFormed;
    if gs != [] {
      ReorderSameCounts(s, gs[0]);
      ReorderAllSameCounts(Reorder(s, gs[0]), gs[1..]);
    }
  }

  lemma SameKept(s: State, s': State, n: nat, f: nat, index: ReplicaIndex, events: seq<Event>, e: Event)
    requires CountsKept(s, n, f, index, events) && SameCounts(s, s') && Tops(s') && !e.VoteArrives?
    ensures CountsKept(s', n, f, index, events + [e])
  {
    hide Tops, VotersIn;
    if s'.status.Running? {
      forall d ensures CountsVotes(s', d, VotersIn(events + [e], d)) {
        assert CountsVotes(s, d, VotersIn(events, d));
        VotersOneMore(events, e, d);
        assert VotersIn(events + [e], d) == VotersIn(events, d);
      }
    }
  }

  lemma VoteKept(s: State, n: nat, f: nat, index: ReplicaIndex, events: seq<Event>, v: Vote)
    requires WellFormed(s) && CountsKept(s, n, f, index, events) && n > f
    ensures CountsKept(HandleVote(s, v), n, f, index, events + [VoteArrives(v)])
  {
    hide Tops, VotersIn, CountsVotes, GenericsOk, Height;
    var s' := HandleVote(s, v);
    VoteKeepsTop(s, v);
    if s'.status.Running? {
      assert |HeldVotes(s, v.digest)| <= s.n - s.f by { HeldLimit(s, v.digest, VotersIn(events, v.digest)); }
      forall d ensures CountsVotes(s', d, VotersIn(events + [VoteArrives(v)], d)) {
        VoteCounts(s, v, d, VotersIn(events, d));
        VotersOneMore(events, VoteArrives(v), d);
      }
    }
  }

  lemma HeldLimit(s: State, d: Digest, voters: set<ReplicaIndex>)
    requires CountsVotes(s, d, voters)
    ensures |HeldVotes(s, d)| <= s.n - s.f
  {
  }

  /** What a pace does when it does something. */
  ghost predicate Proposes(s: State, s': State, g: Generic) {
    && g == Generic(g.block, s.digestCertified, HeldVotes(s, s.digestCertified).Values, s.index)
    && g.block.parent == s.digestCertified && g.block.height == s.chain.height + 1
    && g.block.requests + s'.requests == s.requests && |g.block.requests| <= MAX_BATCH_SIZE
    && (s'.requests == [] || |g.block.requests| == MAX_BATCH_SIZE)
    && s' == s.(chain := s'.chain, requests := s'.requests, proposeHeight := g.block.height,
                sentGenerics := s.sentGenerics + [g])
    && s'.chain.height == g.block.height
  }

  lemma ProposeEffect(s: State)
    ensures s.digestCertified !in s.votes ==> Propose(s).status == Panicked(MissingCertificate)
    ensures s.digestCertified in s.votes ==> exists g :: Proposes(s, Propose(s), g)
  {
    if s.digestCertified in s.votes {
      assert Proposes(s, Propose(s), Propose(s).sentGenerics[|s.sentGenerics|]);
    }
  }

  lemma PaceFields(s: State)
    requires WellFormed(s)
    ensures
      var s' := OnPace(s);
      && s'.n == s.n && s'.f == s.f && s'.index == s.index && s'.votes == s.votes && s'.sentVotes == s.sentVotes
      && s'.viewHeight == s.viewHeight && s'.generics == s.generics && s'.digestCertified == s.digestCertified
      && (s.status.Panicked? ==> s'.status.Panicked?)
  {
    hide GenericsOk;
  }

  lemma PaceKept(s: State, n: nat, f: nat, index: ReplicaIndex, events: seq<Event>)
    requires WellFormed(s) && CountsKept(s, n, f, index, events)
    ensures CountsKept(OnPace(s), n, f, index, events + [Pace])
  {
    hide Tops, VotersIn, WellFormed, Propose;
    var s' := OnPace(s);
    PaceFields(s);
    SameTops(s, s');
    ProposeEffect(s);
    if s'.status.Running? {
      forall d ensures CountsVotes(s', d, VotersIn(events + [Pace], d)) {
        assert CountsVotes(s, d, VotersIn(events, d));
        VotersOneMore(events, Pace, d);
        assert VotersIn(events + [Pace], d) == VotersIn(events, d);
      }
    }
  }

  lemma RequestSameCounts(s: State, request: Request)
    ensures SameCounts(s, HandleRequest(s, request))
    ensures Tops(s) ==> Tops(HandleRequest(s, request))
  {
    if Tops(s) {
      SameTops(s, HandleRequest(s, request));
    }
  }

  lemma NextKept(s: State, n: nat, f: nat, index: ReplicaIndex, events: seq<Event>, e: Event)
    requires WellFormed(s) && CountsKept(s, n, f, index, events) && n > f
    ensures CountsKept(NextState(s, e), n, f, index, events + [e])
  {
    hide CountsKept, WellFormed, InsertGeneric, HandleRequest, HandleVote, OnPace, Reorder, Tops;
    assert Tops(s) by { KeptTops(s, n, f, index, events); }
    match e
    case RequestArrives(request) =>
      RequestSameCounts(s, request);
      SameKept(s, HandleRequest(s, request), n, f, index, events, e);
    case ProposalArrives(g) =>
      ReorderSameCounts(s, g);
      ReorderTops(s, g);
      SameKept(s, Reorder(s, g), n, f, index, events, e);
    case OwnProposalArrives(g) =>
      if g in s.sentGenerics && s.status.Running? {
        OwnKnown(s, g);
        InsertSameCounts(s, g);
        InsertKeepsTops(s, g);
      }
      SameKept(s, NextState(s, e), n, f, index, events, e);
    case VoteArrives(v) => VoteKept(s, n, f, index, events, v);
    case Pace => PaceKept(s, n, f, index, events);
  }

  lemma KeptTops(s: State, n: nat, f: nat, index: ReplicaIndex, events: seq<Event>)
    requires CountsKept(s, n, f, index, events)
    ensures Tops(s)
  {
  }

  lemma OwnKnown(s: State, g: Generic)
    requires WellFormed(s) && g in s.sentGenerics
    ensures g.block.parent in s.generics && g.certified in s.generics
  {
  }

  lemma {:induction false} HistoryKept(n: nat, f: nat, index: ReplicaIndex, events: seq<Event>)
    requires n > f
    ensures CountsKept(After(n, f, index, events), n, f, index, events)
    decreases |events|
  {
    hide CountsKept, NextState;
    if events == [] {
      StartKept(n, f, index);
    } else {
      var last := |events| - 1;
      HistoryKept(n, f, index, events[..last]);
      NextKept(After(n, f, index, events[..last]), n, f, index, events[..last], events[last]);
      assert events[..last] + [events[last]] == events;
    }
  }

  lemma StartKept(n: nat, f: nat, index: ReplicaIndex)
    requires n > f
    ensures CountsKept(Init(n, f, index), n, f, index, [])
  {
    var s := Init(n, f, index);
    forall d ensures CountsVotes(s, d, VotersIn([], d)) {
    }
  }

  // ---------- main theorems ----------

  /** While a replica runs: it holds n - f votes for a block exactly when votes of n - f replicas or more have arrived,
      all of replicas whose votes arrived, and such a block is certified, if not a higher one. */
  lemma VotesAreCounted(n: nat, f: nat, index: ReplicaIndex, events: seq<Event>, d: Digest)
    requires n > f && After(n, f, index, events).status.Running?
    ensures
      var s := After(n, f, index, events);
      && HeldVotes(s, d).Keys <= VotersIn(events, d)
      && |HeldVotes(s, d)| == (if |VotersIn(events, d)| < n - f then |VotersIn(events, d)| else n - f)
      && (|VotersIn(events, d)| >= n - f ==> Height(s.digestCertified) >= Height(d))
  {
    hide After, VotersIn, Height;
    HistoryKept(n, f, index, events);
    var s := After(n, f, index, events);
    assert CountsVotes(s, d, VotersIn(events, d));
    assert |HeldVotes(s, d)| == |HeldVotes(s, d).Keys|;
    SubsetSize(HeldVotes(s, d).Keys, VotersIn(events, d));
  }

  /** A request of some client has no reply yet. */
  ghost predicate ClientWaits(s: State) {
    exists c :: c in s.replies && s.replies[c].1.None?
  }

  /** At a pace a running replica proposes if and only if it is the primary, a client waits, and its last proposal or a
      higher one is certified: one more block, with the first requests of the queue, at most 100, on the certified
      block, with the votes held for it. Without any votes for the certified block it stops instead. */
  lemma PaceProposes(n: nat, f: nat, index: ReplicaIndex, events: seq<Event>)
    requires n > f && After(n, f, index, events).status.Running?
    ensures
      var s, s' := After(n, f, index, events), After(n, f, index, events + [Pace]);
      var due := index == PRIMARY && ClientWaits(s) && Height(s.digestCertified) >= |s.sentGenerics|;
      && (!due ==> s' == s)
      && (due && s.digestCertified !in s.votes ==> s'.status == Panicked(MissingCertificate))
      && (due && s.digestCertified in s.votes ==>
            (exists g :: Proposes(s, s', g)) && |s'.sentGenerics| == |s.sentGenerics| + 1 == s'.proposeHeight)
  {
    hide VotersIn, Height, GenericsOk, Propose;
    HistoryKept(n, f, index, events);
    var s := After(n, f, index, events);
    assert (events + [Pace])[..|events|] == events;
    HeightOf(s, s.digestCertified);
    ProposeEffect(s);
  }

  /** A request with a number not seen yet that reaches the running primary, its last proposal certified and fewer than
      100 requests queued, is in the block proposed at the next pace, the last of it. */
  lemma NewRequestIsProposed(n: nat, f: nat, events: seq<Event>, request: Request)
    requires n > f
    requires
      var s := After(n, f, PRIMARY, events);
      && s.status.Running? && !SeenNumber(s, request) && |s.requests| < MAX_BATCH_SIZE
      && Height(s.digestCertified) >= |s.sentGenerics| && s.digestCertified in s.votes
    ensures
      var s, s' := After(n, f, PRIMARY, events), After(n, f, PRIMARY, events + [RequestArrives(request)] + [Pace]);
      && |s'.sentGenerics| == |s.sentGenerics| + 1 && s.sentGenerics <= s'.sentGenerics
      && s'.sentGenerics[|s.sentGenerics|].block.requests == s.requests + [request] && s'.requests == []
  {
    hide Height, GenericsOk, Propose, CountsKept, Proposes;
    var taken := events + [RequestArrives(request)];
    var s, t := After(n, f, PRIMARY, events), After(n, f, PRIMARY, taken);
    assert taken[..|events|] == events;
    NewRequestWaits(s, request);
    assert s.index == PRIMARY by { HistoryIndex(n, f, PRIMARY, events); }
    assert t.replies[request.client].1.None?;
    PaceProposes(n, f, PRIMARY, taken);
    var s' := After(n, f, PRIMARY, taken + [Pace]);
    var g :| Proposes(t, s', g);
    ProposesAll(t, s', g);
  }

  lemma HistoryIndex(n: nat, f: nat, index: ReplicaIndex, events: seq<Event>)
    requires n > f
    ensures After(n, f, index, events).index == index
  {
    HistoryKept(n, f, index, events);
  }

  lemma NewRequestWaits(s: State, request: Request)
    requires WellFormed(s) && s.status.Running? && !SeenNumber(s, request)
    ensures
      var t := HandleRequest(s, request);
      && t == NextState(s, RequestArrives(request)) && t.status.Running?
      && request.client in t.replies && t.replies[request.client] == (request.num, None)
      && t.requests == (if s.index == PRIMARY then s.requests + [request] else s.requests)
      && t.sentGenerics == s.sentGenerics && t.votes == s.votes && t.digestCertified == s.digestCertified
  {
    hide GenericsOk;
  }

  lemma ProposesAll(s: State, s': State, g: Generic)
    requires Proposes(s, s', g) && |s.requests| <= MAX_BATCH_SIZE
    ensures s'.sentGenerics == s.sentGenerics + [g] && g.block.requests == s.requests && s'.requests == []
  {
    if s'.requests != [] {
      assert false;
    }
  }

  /** The same request coming again is not queued a second time. */
  lemma RepeatIsNotQueued(n: nat, f: nat, index: ReplicaIndex, events: seq<Event>, request: Request)
    requires After(n, f, index, events).status.Running?
    ensures
      var once := events + [RequestArrives(request)];
      After(n, f, index, once + [RequestArrives(request)]).requests == After(n, f, index, once).requests
  {
    hide HandleRequest, WellFormed;
    var once := events + [RequestArrives(request)];
    assert once[..|events|] == events && (once + [RequestArrives(request)])[..|once|] == once;
    QueuedOnce(After(n, f, index, events), request);
  }

  lemma QueuedOnce(s: State, request: Request)
    ensures HandleRequest(HandleRequest(s, request), request).requests == HandleRequest(s, request).requests
  {
  }
}
