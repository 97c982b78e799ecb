/** Exactly when a PBFT replica stops, over any history of one replica. */
module PbftStops {
  // Of its assertions only three can fail: on a pre-prepare that the network brings the primary, on the commit that
  // completes the certificate of a block it does not have, and on one whose block has a waiting rival.

  import opened Blocks
  import opened Chains
  import opened Pbft
  import opened PbftRuns
  import opened PbftSends

  /** With this event, taken last, n - f replicas have committed `d`, and not before. */
  ghost predicate Completes(n: nat, f: nat, states: seq<State>, events: seq<Option<Event>>, d: Digest)
    requires |states| == |events| + 1 && events != []
  {
    var last := |events| - 1;
    && |Committers(states, events, d)| >= n - f
    && |Committers(states[..last + 1], events[..last], d)| < n - f
  }

  /** The status after event e, the last of a history, told from what was taken and what waits for execution. */
  ghost function StatusAfter(
      n: nat, f: nat, index: ReplicaIndex, states: seq<State>, events: seq<Option<Event>>, e: Event): Status
    requires |states| == |events| + 1 && events != []
    requires states[|events| - 1].prePrepares.Keys == TakenBlocks(states[..|events|], events[..|events| - 1])
  {
    var s := states[|events| - 1];
    var taken := TakenBlocks(states[..|events|], events[..|events| - 1]);
    var m := CommitIn(Some(e));
    if e.PrePrepareArrives? && e.prePrepare.viewNum == 0 && index == PRIMARY then Panicked(PrimaryPrepares)
    else if m.Some? && Completes(n, f, states, events, m.value.digest) then
      if m.value.digest !in taken then Panicked(MissingPrePrepare)
      else if HasRival(s.chain, s.prePrepares[m.value.digest].block) then Panicked(ConflictingCommit)
      else Running
    else Running
  }

  lemma CommitStatus(s: State, m: Commit)
    requires WellFormed(s) && s.status.Running? && |CertificateOf(s.commitCertificates, m.digest)| <= s.n - s.f
    ensures
      var held, d := CertificateOf(s.commitCertificates, m.digest), m.digest;
      var s' := InsertCommit(s, m);
      s'.status ==
        (if |held| < s.n - s.f <= |held[m.replica := m]| then
           if d !in s.prePrepares then Panicked(MissingPrePrepare)
           else if HasRival(s.chain, s.prePrepares[d].block) then Panicked(ConflictingCommit)
           else Running
         else Running)
  {
    hide WellFormed, ExecuteFrom;
  }

  /** Over any history: whether and why an event stops a running replica. */
  lemma StopsIff(
      n: nat, f: nat, index: ReplicaIndex, states: seq<State>, events: seq<Option<Event>>, e: Event)
    requires n > f && IsHistory(Init(n, f, index), states, events) && events != [] && events[|events| - 1] == Some(e)
    requires states[|events| - 1].status.Running?
    ensures states[|events| - 1].prePrepares.Keys == TakenBlocks(states[..|events|], events[..|events| - 1])
    ensures states[|events|].status == StatusAfter(n, f, index, states, events, e)
  {
    hide DigestOk, Committers, TakenBlocks, PreparesDue, CommitsDue, RequestsTaken, Handle, InsertCommit, Completes, WellFormed;
    var last := |events| - 1;
    var before, prev := states[..last + 1], events[..last];
    var s, s' := states[last], states[last + 1];
    ShorterHistory(Init(n, f, index), states, events);
    HistoryFollows(n, f, index, before, prev);
    HistoryFollows(n, f, index, states, events);
    if CommitIn(Some(e)).Some? {
      CompletesIff(n, f, index, states, events, e, CommitIn(Some(e)).value);
    } else {
      if PrepareIn(Some(e)).Some? {
        assert DigestOk(s, before, prev, PrepareIn(Some(e)).value.digest);
        CountsLimit(s, before, prev, PrepareIn(Some(e)).value.digest);
      }
      OtherStatus(s, e);
    }
  }

  /** Of the other events only a pre-prepare that the network brings the primary stops a replica. */
  lemma OtherStatus(s: State, e: Event)
    requires WellFormed(s) && s.status.Running? && s.viewNum == 0 && CommitIn(Some(e)).None?
    requires PrepareIn(Some(e)).Some? ==>
               |CertificateOf(s.prepareCertificates, PrepareIn(Some(e)).value.digest)| <= s.n - s.f - 1
    ensures
      var refused := e.PrePrepareArrives? && e.prePrepare.viewNum == 0 && s.index == PRIMARY;
      Handle(s, e).status == if refused then Panicked(PrimaryPrepares) else Running
  {
    hide WellFormed, InsertCommit, InsertPrepare;
    EnoughReplicas(s);
    if PrepareIn(Some(e)).Some? {
      PrepareEffect(s, PrepareIn(Some(e)).value);
    }
  }

  lemma CompletesIff(
      n: nat, f: nat, index: ReplicaIndex, states: seq<State>, events: seq<Option<Event>>, e: Event, m: Commit)
    requires n > f && |states| == |events| + 1 && events != [] && events[|events| - 1] == Some(e)
    requires CommitIn(Some(e)) == Some(m)
    requires
      var last := |events| - 1;
      && Follows(states[last], n, f, index, states[..last + 1], events[..last])
      && StepOf(states[last], Some(e), states[last + 1]) && states[last].status.Running?
      && Follows(states[last + 1], n, f, index, states, events)
    ensures
      var s := states[|events| - 1];
      && states[|events|].status == InsertCommit(s, m).status
      && InsertCommit(s, m).status ==
           if Completes(n, f, states, events, m.digest) then
             if m.digest !in s.prePrepares then Panicked(MissingPrePrepare)
             else if HasRival(s.chain, s.prePrepares[m.digest].block) then Panicked(ConflictingCommit)
             else Running
           else Running
  {
    hide Committers, TakenBlocks, PreparesDue, CommitsDue, RequestsTaken, InsertPrepare, InsertCommit, HasRival, WellFormed;
    var last, d := |events| - 1, m.digest;
    var s, s' := states[last], states[last + 1];
    assert DigestOk(s, states[..last + 1], events[..last], d) && DigestOk(s', states, events, d);
    var held := CertificateOf(s.commitCertificates, d);
    CountsEnough(held, Committers(states[..last + 1], events[..last], d), n - f);
    CountsEnough(CertificateOf(s'.commitCertificates, d), Committers(states, events, d), n - f);
    CommitEffect(s, m);
    CommitStatus(s, m);
  }
}
