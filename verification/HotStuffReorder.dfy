/** The reorder buffer of HotStuff, whatever the order in which proposals of distinct blocks arrive. */
module HotStuffReorder {
  // The ones inserted are the least set closed under "parent and certified block both present", and every
  // other one is kept exactly once, under a digest that is still missing.

  import opened Blocks
  import opened HotStuff
  import opened HotStuffRuns

  /** No two proposals of the same block. */
  ghost predicate DistinctBlocks(seen: set<Generic>) {
    forall a, b :: a in seen && b in seen && a.block == b.block ==> a == b
  }

  /** Contains the genesis block and whatever can be inserted on top of it. */
  ghost predicate Closed(digests: set<Digest>, seen: set<Generic>) {
    && GENESIS_DIGEST in digests
    && forall g :: g in seen && g.block.parent in digests && g.certified in digests ==> Sha256(g.block) in digests
  }

  ghost predicate Inserted(s: State, g: Generic) {
    Sha256(g.block) in s.generics && s.generics[Sha256(g.block)] == g
  }

  ghost predicate BufferedAt(s: State, g: Generic, d: Digest) {
    d in s.reordering && g in s.reordering[d]
  }

  ghost predicate IsBuffered(s: State, g: Generic) {
    exists d :: BufferedAt(s, g, d)
  }

  /** A buffered proposal waits for its parent as long as that is missing, and then for the block it certifies. */
  ghost predicate WaitsRightly(s: State, g: Generic, d: Digest) {
    && d == (if g.block.parent !in s.generics then g.block.parent else g.certified)
    && d !in s.generics
    && Sha256(g.block) !in s.generics
  }

  ghost predicate AllDistinct(gs: seq<Generic>) {
    forall i, j :: 0 <= i < j < |gs| ==> gs[i] != gs[j]
  }

  /** Each proposal is kept in one place only. */
  ghost predicate OnePlace(s: State) {
    && (forall d :: d in s.reordering ==> AllDistinct(s.reordering[d]))
    && (forall d, e, g :: BufferedAt(s, g, d) && BufferedAt(s, g, e) ==> d == e)
  }

  /** Every proposal seen is inserted, buffered, or in `hand`: released but not handled yet. */
  ghost predicate Kept(s: State, seen: set<Generic>, hand: set<Generic>, closed: set<Digest>) {
    && WellFormed(s)
    && DistinctBlocks(seen) && hand <= seen
    && Closed(closed, seen) && s.generics.Keys <= closed
    && (forall d :: d in s.generics && d != GENESIS_DIGEST ==> s.generics[d] in seen)
    && (forall d, g :: BufferedAt(s, g, d) ==> g in seen && WaitsRightly(s, g, d))
    && OnePlace(s)
    && (forall g :: g in hand ==> Sha256(g.block) !in s.generics && !IsBuffered(s, g))
    && (forall g :: g in seen ==> g in hand || Inserted(s, g) || IsBuffered(s, g))
  }

  lemma InsertFrame(s: State, g: Generic)
    requires WellFormed(s) && g.block.parent in s.generics && g.certified in s.generics
    ensures InsertGeneric(s, g).generics == s.generics[Sha256(g.block) := g]
    ensures InsertGeneric(s, g).reordering == s.reordering
  {
  }

  /** Putting a proposal in hand into the buffer. */
  lemma BufferKeeps(s: State, seen: set<Generic>, hand: set<Generic>, closed: set<Digest>, g: Generic, d: Digest)
    requires Kept(s, seen, hand, closed) && g in hand
    requires WaitsRightly(s, g, d)
    ensures Kept(s.(reordering := Buffer(s.reordering, d, g)), seen, hand - {g}, closed)
  {
    var s' := s.(reordering := Buffer(s.reordering, d, g));
    forall h, e ensures BufferedAt(s', h, e) <==> BufferedAt(s, h, e) || (h == g && e == d) {
    }
    forall h | h in hand - {g} ensures !IsBuffered(s', h) {
    }
    forall h | h in seen ensures h in hand - {g} || Inserted(s', h) || IsBuffered(s', h) {
      if h == g {
        assert BufferedAt(s', g, d);
      } else if IsBuffered(s, h) {
        var e :| BufferedAt(s, h, e);
        assert BufferedAt(s', h, e);
      }
    }
    forall e | e in s'.reordering ensures AllDistinct(s'.reordering[e]) {
      assert !BufferedAt(s, g, e);
      assert e in s.reordering ==> AllDistinct(s.reordering[e]);
    }
  }

  ghost function Released'(s: State, d: Digest): State {
    if d in s.reordering then Released(s, d) else s
  }

  ghost function ReleasedBy(s: State, d: Digest): seq<Generic> {
    if d in s.reordering then s.reordering[d] else []
  }

  function Elements(gs: seq<Generic>): set<Generic> {
    set g | g in gs
  }

  /** Inserting a proposal in hand takes what waited for it out of the buffer into the hand. */
  lemma InsertKeepsPlaces(s: State, seen: set<Generic>, hand: set<Generic>, closed: set<Digest>, g: Generic)
    requires Kept(s, seen, hand, closed) && g in hand
    requires g.block.parent in s.generics && g.certified in s.generics
    ensures
      var d := Sha256(g.block);
      Kept(Released'(InsertGeneric(s, g), d), seen, hand - {g} + Elements(ReleasedBy(s, d)), closed)
  {
    var d := Sha256(g.block);
    InsertFrame(s, g);
    InsertedOk(s, g);
    var s' := Released'(InsertGeneric(s, g), d);
    var released := Elements(ReleasedBy(s, d));
    forall h, e ensures BufferedAt(s', h, e) <==> BufferedAt(s, h, e) && e != d {
    }
    forall h, e | BufferedAt(s', h, e) ensures WaitsRightly(s', h, e) {
      assert WaitsRightly(s, h, e) && h in seen && !IsBuffered(s, g);
    }
    forall h | h in released ensures BufferedAt(s, h, d) && h in seen {
      assert BufferedAt(s, h, d);
    }
    forall h | h in hand - {g} + released ensures Sha256(h.block) !in s'.generics && !IsBuffered(s', h) {
      assert h in released ==> WaitsRightly(s, h, d) && !IsBuffered(s, g);
    }
    forall h | h in seen ensures h in hand - {g} + released || Inserted(s', h) || IsBuffered(s', h) {
      if IsBuffered(s, h) {
        var e :| BufferedAt(s, h, e);
        assert e != d ==> BufferedAt(s', h, e);
      }
    }
    assert forall e :: e in s'.reordering ==> AllDistinct(s'.reordering[e]);
  }

  lemma {:induction false} ReorderKeepsPlaces(
      s: State, seen: set<Generic>, hand: set<Generic>, closed: set<Digest>, g: Generic)
    requires Kept(s, seen, hand, closed) && g in hand
    ensures
      var s' := Reorder(s, g);
      s'.status.Running? ==> Kept(s', seen, hand - {g}, closed)
    decreases Buffered(s.reordering) + 1, 0, 0
  {
    var d := Sha256(g.block);
    if s.status.Panicked? {
    } else if g.block.parent !in s.generics {
      BufferKeeps(s, seen, hand, closed, g, g.block.parent);
    } else if g.certified !in s.generics {
      BufferKeeps(s, seen, hand, closed, g, g.certified);
    } else {
      InsertKeepsPlaces(s, seen, hand, closed, g);
      InsertFrame(s, g);
      var inserted := InsertGeneric(s, g);
      var released := ReleasedBy(s, d);
      var hand' := hand - {g} + Elements(released);
      if inserted.status.Running? && d in inserted.reordering {
        BufferedWithout(s.reordering, d);
        forall h | h in released ensures h !in hand - {g} {
          assert BufferedAt(s, h, d);
        }
        ReorderAllKeepsPlaces(Released(inserted, d), seen, hand', closed, released);
        assert hand' - Elements(released) == hand - {g};
      } else if inserted.status.Running? {
        assert hand' == hand - {g};
      }
    }
  }

  lemma {:induction false} ReorderAllKeepsPlaces(
      s: State, seen: set<Generic>, hand: set<Generic>, closed: set<Digest>, gs: seq<Generic>)
    requires Kept(s, seen, hand, closed) && Elements(gs) <= hand && AllDistinct(gs)
    ensures
      var s' := ReorderAll(s, gs);
      s'.status.Running? ==> Kept(s', seen, hand - Elements(gs), closed)
    decreases Buffered(s.reordering) + |gs|, 1, |gs|
  {
    if gs == [] {
      assert hand - Elements(gs) == hand;
    } else {
      var s1 := Reorder(s, gs[0]);
      ReorderKeepsPlaces(s, seen, hand, closed, gs[0]);
      if s1.status.Running? {
        assert gs[0] !in gs[1..];
        assert Elements(gs) == {gs[0]} + Elements(gs[1..]);
        ReorderAllKeepsPlaces(s1, seen, hand - {gs[0]}, closed, gs[1..]);
        assert hand - {gs[0]} - Elements(gs[1..]) == hand - Elements(gs);
      } else {
        StaysPanicked(s1, gs[1..]);
      }
    }
  }

  lemma {:induction false} StaysPanicked(s: State, gs: seq<Generic>)
    requires WellFormed(s) && s.status.Panicked?
    ensures ReorderAll(s, gs) == s
    decreases |gs|
  {
    if gs != [] {
      StaysPanicked(s, gs[1..]);
    }
  }

  lemma NothingSeenYet(n: nat, f: nat, r: ReplicaIndex, seen: set<Generic>, closed: set<Digest>)
    requires DistinctBlocks(seen) && Closed(closed, seen)
    requires GENESIS_DIGEST !in (set g | g in seen :: Sha256(g.block))
    ensures Kept(Init(n, f, r), seen, seen, closed)
  {
    var s := Init(n, f, r);
    assert forall d, g :: !BufferedAt(s, g, d);
  }

  // ---------- deliveries ----------

  /** What arrives at a replica that proposes nothing itself: requests, votes, paces and proposals. */
  ghost predicate FromOthers(events: seq<Event>) {
    forall e :: e in events ==> !e.OwnProposalArrives?
  }

  ghost function ProposalsIn(events: seq<Event>): seq<Generic> {
    if events == [] then []
    else (if events[0].ProposalArrives? then [events[0].proposal] else []) + ProposalsIn(events[1..])
  }

  /** Handlers other than the one for proposals touch neither what is inserted nor what is buffered. */
  lemma QuietKeepsPlaces(s: State, e: Event, seen: set<Generic>, hand: set<Generic>, closed: set<Digest>)
    requires WellFormed(s) && !e.OwnProposalArrives?
    ensures WellFormed(Handle(s, e))
    ensures Kept(s, seen, hand, closed) && !e.ProposalArrives? ==> Kept(Handle(s, e), seen, hand, closed)
  {
    hide Kept, Handle, WellFormed;
    QuietFrame(s, e);
    if Kept(s, seen, hand, closed) && !e.ProposalArrives? {
      SamePlaces(s, Handle(s, e), seen, hand, closed);
    }
  }

  lemma VoteFrame(s: State, v: Vote)
    requires WellFormed(s)
    ensures WellFormed(HandleVote(s, v))
    ensures HandleVote(s, v).generics == s.generics && HandleVote(s, v).reordering == s.reordering
  {
    hide GenericsOk;
  }

  lemma RequestFrame(s: State, request: Request)
    requires WellFormed(s)
    ensures WellFormed(HandleRequest(s, request))
    ensures HandleRequest(s, request).generics == s.generics && HandleRequest(s, request).reordering == s.reordering
  {
    hide GenericsOk;
  }

  lemma PaceFrame(s: State)
    requires WellFormed(s)
    ensures WellFormed(OnPace(s)) && OnPace(s).generics == s.generics && OnPace(s).reordering == s.reordering
  {
    hide GenericsOk;
    OnPaceWellFormed(s);
  }

  lemma QuietFrame(s: State, e: Event)
    requires WellFormed(s) && !e.OwnProposalArrives?
    ensures WellFormed(Handle(s, e))
    ensures !e.ProposalArrives? ==> Handle(s, e).generics == s.generics && Handle(s, e).reordering == s.reordering
  {
    hide WellFormed, Reorder, HandleVote, HandleRequest, OnPace;
    match e
    case RequestArrives(request) => RequestFrame(s, request);
    case ProposalArrives(g) =>
    case VoteArrives(v) => VoteFrame(s, v);
    case Pace => PaceFrame(s);
  }

  lemma SamePlaces(s: State, s': State, seen: set<Generic>, hand: set<Generic>, closed: set<Digest>)
    requires Kept(s, seen, hand, closed) && WellFormed(s')
    requires s'.generics == s.generics && s'.reordering == s.reordering
    ensures Kept(s', seen, hand, closed)
  {
    assert forall g, d :: BufferedAt(s', g, d) <==> BufferedAt(s, g, d);
    assert forall g :: IsBuffered(s', g) <==> IsBuffered(s, g);
    assert forall g, d :: WaitsRightly(s', g, d) <==> WaitsRightly(s, g, d);
    assert forall g :: Inserted(s', g) <==> Inserted(s, g);
  }

  ghost function Deliver(s: State, events: seq<Event>): (r: State)
    requires WellFormed(s) && FromOthers(events)
    ensures WellFormed(r)
    decreases |events|
  {
    if events == [] then s
    else
      QuietKeepsPlaces(s, events[0], {}, {}, {});
      Deliver(Handle(s, events[0]), events[1..])
  }

  lemma {:induction false} StaysStopped(s: State, events: seq<Event>)
    requires WellFormed(s) && FromOthers(events) && s.status.Panicked?
    ensures Deliver(s, events) == s
    decreases |events|
  {
    if events != [] {
      assert Handle(s, events[0]) == s;
      StaysStopped(s, events[1..]);
    }
  }

  lemma {:induction false} DeliverKeepsPlaces(
      s: State, seen: set<Generic>, hand: set<Generic>, closed: set<Digest>, events: seq<Event>)
    requires Kept(s, seen, hand, closed) && FromOthers(events)
    requires Elements(ProposalsIn(events)) <= hand && AllDistinct(ProposalsIn(events))
    ensures
      var s' := Deliver(s, events);
      s'.status.Running? ==> Kept(s', seen, hand - Elements(ProposalsIn(events)), closed)
    decreases |events|
  {
    hide Kept, Handle, WellFormed;
    assert WellFormed(s) by { KeptIsWellFormed(s, seen, hand, closed); }
    var gs := ProposalsIn(events);
    if events == [] {
      assert hand - Elements(gs) == hand;
    } else {
      var e, s1 := events[0], Handle(s, events[0]);
      QuietKeepsPlaces(s, e, seen, hand, closed);
      if s1.status.Panicked? {
        StaysStopped(s1, events[1..]);
      } else if e.ProposalArrives? {
        var rest := ProposalsIn(events[1..]);
        assert gs == [e.proposal] + rest && gs[1..] == rest;
        assert e.proposal !in rest && Elements(gs) == {e.proposal} + Elements(rest);
        assert s1 == Reorder(s, e.proposal) by { ProposalIsReordered(s, e.proposal); }
        ReorderKeepsPlaces(s, seen, hand, closed, e.proposal);
        DeliverKeepsPlaces(s1, seen, hand - {e.proposal}, closed, events[1..]);
        assert hand - {e.proposal} - Elements(rest) == hand - Elements(gs);
      } else {
        assert gs == ProposalsIn(events[1..]);
        DeliverKeepsPlaces(s1, seen, hand, closed, events[1..]);
      }
    }
  }

  lemma KeptIsWellFormed(s: State, seen: set<Generic>, hand: set<Generic>, closed: set<Digest>)
    requires Kept(s, seen, hand, closed)
    ensures WellFormed(s)
  {
  }

  lemma ProposalIsReordered(s: State, g: Generic)
    requires WellFormed(s)
    ensures Handle(s, ProposalArrives(g)) == Reorder(s, g)
  {
  }

  // ---------- main theorems ----------

  /** Any deliveries with proposals of distinct blocks, each once, none of them the genesis block. */
  ghost predicate Delivery(events: seq<Event>) {
    var gs := ProposalsIn(events);
    && FromOthers(events)
    && AllDistinct(gs)
    && DistinctBlocks(Elements(gs))
    && forall g :: g in gs ==> g.block != GENESIS
  }

  lemma DeliveredPlaces(n: nat, f: nat, r: ReplicaIndex, events: seq<Event>, closed: set<Digest>)
    requires Delivery(events) && Closed(closed, Elements(ProposalsIn(events)))
    requires Deliver(Init(n, f, r), events).status.Running?
    ensures Kept(Deliver(Init(n, f, r), events), Elements(ProposalsIn(events)), {}, closed)
  {
    var seen := Elements(ProposalsIn(events));
    NothingSeenYet(n, f, r, seen, closed);
    DeliverKeepsPlaces(Init(n, f, r), seen, seen, closed, events);
    assert seen - seen == {};
  }

  /** The set of all digests involved is closed, so closed sets exist. */
  ghost function AllDigests(gs: seq<Generic>): set<Digest> {
    {GENESIS_DIGEST} + set g | g in gs :: Sha256(g.block)
  }

  /** A replica that receives these proposals, in any order and between any requests, votes and paces, and
      does not stop, has inserted exactly the least closed set of blocks, and keeps every other proposal
      once, under a digest it needs that is still missing. */
  lemma ReorderBufferIsConfluent(n: nat, f: nat, r: ReplicaIndex, events: seq<Event>)
    requires Delivery(events)
    requires Deliver(Init(n, f, r), events).status.Running?
    ensures
      var s, seen := Deliver(Init(n, f, r), events), Elements(ProposalsIn(events));
      && Closed(s.generics.Keys, seen)
      && (forall closed :: Closed(closed, seen) ==> s.generics.Keys <= closed)
      && (forall g :: g in seen ==> (Inserted(s, g) <==> !IsBuffered(s, g)))
      && (forall d, g :: BufferedAt(s, g, d) ==> g in seen && WaitsRightly(s, g, d))
      && OnePlace(s)
  {
    hide Deliver;
    var s := Deliver(Init(n, f, r), events);
    var seen := Elements(ProposalsIn(events));
    DeliveredPlaces(n, f, r, events, AllDigests(ProposalsIn(events)));
    forall closed | Closed(closed, seen) ensures s.generics.Keys <= closed {
      DeliveredPlaces(n, f, r, events, closed);
    }
    forall g | g in seen && g.block.parent in s.generics && g.certified in s.generics
      ensures Sha256(g.block) in s.generics
    {
      assert forall d :: BufferedAt(s, g, d) ==> WaitsRightly(s, g, d);
    }
    forall g | g in seen ensures Inserted(s, g) <==> !IsBuffered(s, g) {
      if IsBuffered(s, g) {
        var d :| BufferedAt(s, g, d);
        assert WaitsRightly(s, g, d);
      }
    }
  }

  lemma SameEntries(s: State, t: State, seen: set<Generic>, closed: set<Digest>, closed': set<Digest>)
    requires Kept(s, seen, {}, closed) && Kept(t, seen, {}, closed') && s.generics.Keys == t.generics.Keys
    ensures s.generics == t.generics
  {
    forall d | d in s.generics ensures s.generics[d] == t.generics[d] {
      assert EntryOk(s.generics, d) && EntryOk(t.generics, d);
    }
  }

  /** The order of delivery does not matter: what is inserted, and what is left waiting, is the same. */
  lemma DeliveryOrderIrrelevant(n: nat, f: nat, r: ReplicaIndex, events: seq<Event>, others: seq<Event>)
    requires Delivery(events) && Delivery(others) && Elements(ProposalsIn(events)) == Elements(ProposalsIn(others))
    requires Deliver(Init(n, f, r), events).status.Running? && Deliver(Init(n, f, r), others).status.Running?
    ensures Deliver(Init(n, f, r), events).generics == Deliver(Init(n, f, r), others).generics
    ensures forall g :: IsBuffered(Deliver(Init(n, f, r), events), g) <==> IsBuffered(Deliver(Init(n, f, r), others), g)
  {
    hide Deliver, ProposalsIn;
    var s, t := Deliver(Init(n, f, r), events), Deliver(Init(n, f, r), others);
    var seen := Elements(ProposalsIn(events));
    ReorderBufferIsConfluent(n, f, r, events);
    ReorderBufferIsConfluent(n, f, r, others);
    assert s.generics.Keys == t.generics.Keys;
    DeliveredPlaces(n, f, r, events, AllDigests(ProposalsIn(events)));
    DeliveredPlaces(n, f, r, others, AllDigests(ProposalsIn(others)));
    SameEntries(s, t, seen, AllDigests(ProposalsIn(events)), AllDigests(ProposalsIn(others)));
    forall g ensures IsBuffered(s, g) <==> IsBuffered(t, g) {
      assert IsBuffered(s, g) ==> g in seen;
      assert IsBuffered(t, g) ==> g in seen;
    }
  }

  // ---------- votes that outrun their proposals ----------

  /** A vote reaches a running replica that has not inserted the block it is for. */
  ghost predicate Outruns(s: State, e: Event) {
    s.status.Running? && e.VoteArrives? && e.vote.digest !in s.generics
  }

  ghost predicate OutrunAt(s: State, events: seq<Event>, i: nat)
    requires WellFormed(s) && FromOthers(events) && i < |events|
  {
    Outruns(Deliver(s, events[..i]), events[i])
  }

  lemma InsertStops(s: State, g: Generic)
    requires WellFormed(s) && g.block.parent in s.generics && g.certified in s.generics
    requires s.status != Panicked(UnknownVotedBlock)
    ensures InsertGeneric(s, g).status != Panicked(UnknownVotedBlock)
  {
    hide GenericsOk, RunRequests;
  }

  lemma {:induction false} ReorderStops(s: State, g: Generic)
    requires WellFormed(s) && s.status != Panicked(UnknownVotedBlock)
    ensures Reorder(s, g).status != Panicked(UnknownVotedBlock)
    decreases Buffered(s.reordering) + 1, 0, 0
  {
    hide WellFormed, InsertGeneric;
    if s.status.Running? && g.block.parent in s.generics && g.certified in s.generics {
      InsertStops(s, g);
      var inserted, d := InsertGeneric(s, g), Sha256(g.block);
      if inserted.status.Running? && d in inserted.reordering {
        BufferedWithout(s.reordering, d);
        ReorderAllStops(Released(inserted, d), inserted.reordering[d]);
      }
    }
  }

  lemma {:induction false} ReorderAllStops(s: State, gs: seq<Generic>)
    requires WellFormed(s) && s.status != Panicked(UnknownVotedBlock)
    ensures ReorderAll(s, gs).status != Panicked(UnknownVotedBlock)
    decreases Buffered(s.reordering) + |gs|, 1, |gs|
  {
    hide WellFormed;
    if gs != [] {
      ReorderStops(s, gs[0]);
      ReorderAllStops(Reorder(s, gs[0]), gs[1..]);
    }
  }

  lemma HandleStopsIff(s: State, e: Event)
    requires WellFormed(s) && s.status.Running? && !e.OwnProposalArrives?
    ensures WellFormed(Handle(s, e))
    ensures Handle(s, e).status == Panicked(UnknownVotedBlock) <==> Outruns(s, e)
  {
    hide WellFormed, Reorder;
    QuietFrame(s, e);
    if e.ProposalArrives? {
      ReorderStops(s, e.proposal);
    }
  }

  lemma DeliverLater(s: State, events: seq<Event>, i: nat)
    requires WellFormed(s) && FromOthers(events) && i < |events|
    ensures WellFormed(Handle(s, events[0])) && FromOthers(events[1..])
    ensures Deliver(s, events[..i + 1]) == Deliver(Handle(s, events[0]), events[1..][..i])
  {
    hide WellFormed, Handle;
    QuietFrame(s, events[0]);
    assert events[..i + 1][1..] == events[1..][..i];
  }

  /** A delivery stops a replica at the assertion on votes for unknown blocks exactly when some vote outruns the
      proposal it is for: it reaches the replica, still running, before the block is inserted. */
  lemma {:induction false} OutrunStopsIff(s: State, events: seq<Event>)
    requires WellFormed(s) && s.status.Running? && FromOthers(events)
    ensures
      Deliver(s, events).status == Panicked(UnknownVotedBlock) <==>
      exists i: nat :: i < |events| && OutrunAt(s, events, i)
    decreases |events|
  {
    hide WellFormed, Handle, OutrunAt;
    if events != [] {
      var s1, rest := Handle(s, events[0]), events[1..];
      HandleStopsIff(s, events[0]);
      FirstOutrun(s, events);
      forall i: nat | i < |rest| ensures OutrunAt(s, events, i + 1) <==> OutrunAt(s1, rest, i) {
        LaterOutrun(s, events, i);
      }
      if s1.status.Panicked? {
        StaysStopped(s1, rest);
        forall i: nat | i < |rest| ensures !OutrunAt(s1, rest, i) {
          StoppedOutrun(s1, rest, i);
        }
      } else {
        OutrunStopsIff(s1, rest);
      }
      if i: nat :| i < |events| && OutrunAt(s, events, i) {
        assert i > 0 ==> OutrunAt(s1, rest, i - 1);
      }
    }
  }

  lemma FirstOutrun(s: State, events: seq<Event>)
    requires WellFormed(s) && FromOthers(events) && events != []
    ensures OutrunAt(s, events, 0) <==> Outruns(s, events[0])
  {
  }

  lemma LaterOutrun(s: State, events: seq<Event>, i: nat)
    requires WellFormed(s) && FromOthers(events) && i + 1 < |events|
    ensures WellFormed(Handle(s, events[0])) && FromOthers(events[1..])
    ensures OutrunAt(s, events, i + 1) <==> OutrunAt(Handle(s, events[0]), events[1..], i)
  {
    hide WellFormed, Handle;
    DeliverLater(s, events, i);
  }

  lemma StoppedOutrun(s: State, events: seq<Event>, i: nat)
    requires WellFormed(s) && FromOthers(events) && i < |events| && s.status.Panicked?
    ensures !OutrunAt(s, events, i)
  {
    StaysStopped(s, events[..i]);
  }

  /** So whether a replica stops does depend on the order: a vote that outruns the proposal it is for stops it,
      the other order does not. */
  lemma StoppingDependsOnOrder(n: nat, f: nat, r: ReplicaIndex, g: Generic, v: Vote)
    requires g.block.parent == g.certified == GENESIS_DIGEST && g.block != GENESIS && v.digest == Sha256(g.block)
    ensures Delivery([ProposalArrives(g), VoteArrives(v)]) && Delivery([VoteArrives(v), ProposalArrives(g)])
    ensures Deliver(Init(n, f, r), [ProposalArrives(g), VoteArrives(v)]).status.Running?
    ensures Deliver(Init(n, f, r), [VoteArrives(v), ProposalArrives(g)]).status == Panicked(UnknownVotedBlock)
  {
    hide WellFormed, Handle, Deliver;
    var s := Init(n, f, r);
    OneIsTaken(s, g, v);
    InOrder(s, ProposalArrives(g), VoteArrives(v));
    InOrder(s, VoteArrives(v), ProposalArrives(g));
    assert ProposalsIn([ProposalArrives(g)]) == [g] && ProposalsIn([VoteArrives(v)]) == [];
    assert ProposalsIn([ProposalArrives(g), VoteArrives(v)]) == [g];
    assert ProposalsIn([VoteArrives(v), ProposalArrives(g)]) == [g];
  }

  lemma OneIsTaken(s: State, g: Generic, v: Vote)
    requires s == Init(s.n, s.f, s.index) && v.digest == Sha256(g.block) != GENESIS_DIGEST
    requires g.block.parent == g.certified == GENESIS_DIGEST
    ensures WellFormed(s) && WellFormed(Handle(s, ProposalArrives(g))) && WellFormed(Handle(s, VoteArrives(v)))
    ensures Handle(Handle(s, ProposalArrives(g)), VoteArrives(v)).status.Running?
    ensures Handle(Handle(s, VoteArrives(v)), ProposalArrives(g)).status == Panicked(UnknownVotedBlock)
  {
    hide WellFormed;
    QuietFrame(s, VoteArrives(v));
    assert InsertGeneric(s, g).status.Running?;
  }

  lemma InOrder(s: State, e: Event, e': Event)
    requires WellFormed(s) && FromOthers([e, e'])
    ensures WellFormed(Handle(s, e)) && Deliver(s, [e, e']) == Handle(Handle(s, e), e')
  {
    QuietKeepsPlaces(s, e, {}, {}, {});
    QuietKeepsPlaces(Handle(s, e), e', {}, {}, {});
    assert [e, e'][1..] == [e'] && [e'][1..] == [];
    var s1 := Handle(s, e);
    assert Deliver(s1, [e']) == Deliver(Handle(s1, e'), []);
  }
}
