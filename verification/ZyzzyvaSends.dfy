/** What a Zyzzyva replica must take, acknowledge and propose, over any history of one replica, told from what it
    received. */
module ZyzzyvaSends {
  import opened Blocks
  import opened Quorums
  import opened Chains
  import opened Zyzzyva
  import opened ZyzzyvaRuns

  // ---------- histories of one replica ----------

  /** A replica after some events. */
  ghost function After(n: nat, index: ReplicaIndex, events: seq<Event>): (s: State)
    requires n > 0
    ensures WellFormed(s)
    decreases |events|
  {
    if events == [] then Init(n, index)
    else
      var s, e := After(n, index, events[..|events| - 1]), events[|events| - 1];
      HandleWellFormed(s, e);
      Handle(s, e)
  }

  lemma HandleWellFormed(s: State, e: Event)
    requires WellFormed(s)
    ensures WellFormed(Handle(s, e))
  {
    hide WellFormed;
  }

  /** What a correct replica does in a run is such a history, so what follows holds in runs. */
  lemma {:induction false} RunIsHistory(c: Config, run: seq<System>, r: ReplicaIndex, once: bool)
    returns (events: seq<Event>)
    requires CorrectPrimary(c) && IsRun(c, run, once) && r in Correct(c)
    ensures r in run[|run| - 1] && run[|run| - 1][r] == After(c.n, r, events)
    decreases |run|
  {
    hide WellFormed, Handle, Enabled;
    if |run| == 1 {
      events := [];
    } else {
      var before := RunIsHistory(c, run[..|run| - 1], r, once);
      var sys, sys' := run[|run| - 2], run[|run| - 1];
      assert run[..|run| - 1][|run| - 2] == sys;
      assert Next(sys, sys', once);
      var q, e :| StepBy(sys, sys', q, e, once);
      if q == r {
        events := before + [e];
        assert events[..|before|] == before;
      } else {
        events := before;
      }
    }
  }

  // ---------- what is due ----------

  ghost predicate IsRunning(n: nat, index: ReplicaIndex, events: seq<Event>)
    requires n > 0
  {
    After(n, index, events).status == Running
  }

  /** The requests that reached it as a running primary. */
  ghost function RequestsTaken(n: nat, index: ReplicaIndex, events: seq<Event>): seq<Request>
    requires n > 0
    decreases |events|
  {
    if events == [] then []
    else
      var before, e := events[..|events| - 1], events[|events| - 1];
      RequestsTaken(n, index, before)
      + if e.RequestArrives? && index == PRIMARY && IsRunning(n, index, before) then [e.request] else []
  }

  /** The digests of the blocks of its view that reached it while it ran. */
  ghost function BlocksTaken(n: nat, index: ReplicaIndex, events: seq<Event>): set<Digest>
    requires n > 0
    decreases |events|
  {
    if events == [] then {}
    else
      var before, e := events[..|events| - 1], events[|events| - 1];
      BlocksTaken(n, index, before)
      + if e.OrderRequestArrives? && e.orderRequest.viewNum == 0 && IsRunning(n, index, before)
        then {Sha256(e.orderRequest.block)} else {}
  }

  /** One acknowledgement, to its sender, for each commit that reached it after its block. */
  ghost function AcknowledgementsDue(n: nat, index: ReplicaIndex, events: seq<Event>): seq<(nat, LocalCommit)>
    requires n > 0
    decreases |events|
  {
    if events == [] then []
    else
      var before, e := events[..|events| - 1], events[|events| - 1];
      AcknowledgementsDue(n, index, before)
      + if e.CommitArrives? && e.commit.digest in BlocksTaken(n, index, before) && IsRunning(n, index, before)
        then [(e.remote, LocalCommit(e.commit.digest, index))] else []
  }

  ghost predicate Due(
      s: State, n: nat, index: ReplicaIndex, taken: seq<Request>, blocks: set<Digest>, acks: seq<(nat, LocalCommit)>)
  {
    && s.n == n && s.index == index && s.viewNum == 0
    && s.accepted == taken && s.orderRequests.Keys == blocks && s.sentLocalCommits == acks
    && s.commits.Keys <= blocks
  }

  /** One event. */
  lemma DueNext(
      s: State, n: nat, index: ReplicaIndex, taken: seq<Request>, blocks: set<Digest>, acks: seq<(nat, LocalCommit)>,
      e: Event)
    requires WellFormed(s) && Due(s, n, index, taken, blocks, acks)
    ensures
      var running := s.status == Running;
      Due(Handle(s, e), n, index,
          taken + (if e.RequestArrives? && index == PRIMARY && running then [e.request] else []),
          blocks + (if e.OrderRequestArrives? && e.orderRequest.viewNum == 0 && running
                    then {Sha256(e.orderRequest.block)} else {}),
          acks + (if e.CommitArrives? && e.commit.digest in blocks && running
                  then [(e.remote, LocalCommit(e.commit.digest, index))] else []))
  {
    hide WellFormed;
    EnoughReplicas(s);
  }

  lemma EnoughReplicas(s: State)
    requires WellFormed(s)
    ensures s.n > 0
  {
  }

  // ---------- main theorems ----------

  /** Over any history of one replica: it has queued exactly the requests that reached it as a running primary, stored
      exactly the blocks that reached it, and acknowledged exactly the commits that came after their block, each once,
      to its sender. */
  lemma {:induction false} TakesAndAcknowledgesWhatIsDue(n: nat, index: ReplicaIndex, events: seq<Event>)
    requires n > 0
    ensures
      var s := After(n, index, events);
      && s.accepted == RequestsTaken(n, index, events)
      && s.orderRequests.Keys == BlocksTaken(n, index, events)
      && s.sentLocalCommits == AcknowledgementsDue(n, index, events)
      && s.commits.Keys <= BlocksTaken(n, index, events)
      && s.n == n && s.index == index && s.viewNum == 0
    decreases |events|
  {
    hide Handle;
    if events != [] {
      var before := events[..|events| - 1];
      TakesAndAcknowledgesWhatIsDue(n, index, before);
      DueNext(After(n, index, before), n, index, RequestsTaken(n, index, before), BlocksTaken(n, index, before),
              AcknowledgementsDue(n, index, before), events[|events| - 1]);
    }
  }

  /** One more block on the last one, with the first of the requests, at most 100. */
  ghost predicate Proposes(s: State, s': State) {
    && |s'.sentOrderRequests| == |s.sentOrderRequests| + 1
    && s.sentOrderRequests <= s'.sentOrderRequests
    && var m := s'.sentOrderRequests[|s.sentOrderRequests|];
    && m.viewNum == s.viewNum && m.block.parent == s.chain.digestParent && s'.chain.digestParent == Sha256(m.block)
    && m.block.requests + s'.requests == s.requests && 0 < |m.block.requests| <= MAX_BATCH_SIZE
    && (s'.requests == [] || |m.block.requests| == MAX_BATCH_SIZE)
  }

  lemma ProposesOn(s: State)
    requires WellFormed(s) && s.status == Running && s.viewNum == 0 && s.n > 0
    ensures s.index != PRIMARY || s.requests == [] ==> OnPace(s) == s
    ensures s.index == PRIMARY && s.requests != [] ==> Proposes(s, OnPace(s))
  {
    hide WellFormed;
  }

  /** At a pace a running primary proposes exactly when requests wait: one block on its last one, with the first of the
      requests, at most 100. */
  lemma PaceProposes(n: nat, index: ReplicaIndex, events: seq<Event>)
    requires n > 0 && IsRunning(n, index, events)
    ensures
      var s, s' := After(n, index, events), After(n, index, events + [Pace]);
      && (index != PRIMARY || s.requests == [] ==> s' == s)
      && (index == PRIMARY && s.requests != [] ==> Proposes(s, s'))
  {
    hide WellFormed, OnPace, RequestsTaken, BlocksTaken, AcknowledgementsDue;
    TakesAndAcknowledgesWhatIsDue(n, index, events);
    assert (events + [Pace])[..|events|] == events;
    ProposesOn(After(n, index, events));
  }

  lemma StopsOn(s: State, e: Event)
    requires WellFormed(s) && s.status == Running
    ensures
      var conflict :=
        e.OrderRequestArrives? && e.orderRequest.viewNum == s.viewNum && HasRival(s.chain, e.orderRequest.block);
      Handle(s, e).status == if conflict then ConflictingCommit else Running
  {
    hide WellFormed, ExecuteFrom;
  }

  /** An event stops a running replica if and only if it brings a block of its view that has a rival. */
  lemma StopsIff(n: nat, index: ReplicaIndex, events: seq<Event>, e: Event)
    requires n > 0 && IsRunning(n, index, events)
    ensures
      var c := After(n, index, events).chain;
      var conflict := e.OrderRequestArrives? && e.orderRequest.viewNum == 0 && HasRival(c, e.orderRequest.block);
      IsRunning(n, index, events + [e]) <==> !conflict
  {
    hide WellFormed, Handle, HasRival, RequestsTaken, BlocksTaken, AcknowledgementsDue;
    TakesAndAcknowledgesWhatIsDue(n, index, events);
    assert (events + [e])[..|events|] == events;
    StopsOn(After(n, index, events), e);
  }
}
