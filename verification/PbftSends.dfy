/** What a PBFT replica must send and count, over any history of one replica, told from what it received. */
module PbftSends {
  // Prepares, commits and accepted requests are exactly those the received messages call for, whoever sent them and
  // in whatever order; in particular a backup commits although its block arrived after enough prepares for it.

  import opened Blocks
  import opened Quorums
  import opened Chains
  import opened Pbft
  import opened PbftRuns
  import opened PbftAgreement

  // ---------- histories of one replica ----------

  /** A replica's own messages come back only after it has sent them. */
  ghost predicate OwnSent(s: State, e: Event) {
    match e
    case OwnPrePrepareArrives(m) => m in s.sentPrePrepares
    case OwnPrepareArrives(p) => p in s.sentPrepares
    case OwnCommitArrives(m) => m in s.sentCommits
    case _ => true
  }

  /** One event is handled, or none while other replicas take steps. */
  ghost predicate StepOf(s: State, e: Option<Event>, s': State) {
    match e
    case None => s' == s
    case Some(e) => WellFormed(s) && OwnSent(s, e) && s' == Handle(s, e)
  }

  ghost predicate IsHistory(start: State, states: seq<State>, events: seq<Option<Event>>) {
    && |states| == |events| + 1
    && states[0] == start
    && forall i {:trigger events[i]} :: 0 <= i < |events| ==> StepOf(states[i], events[i], states[i + 1])
  }

  /** The events of replica r in a run. */
  ghost predicate IsTrace(c: Config, run: seq<System>, r: ReplicaIndex, events: seq<Option<Event>>) {
    && |run| == |events| + 1
    && (forall i :: 0 <= i < |run| ==> r in run[i])
    && forall i {:trigger events[i]} :: 0 <= i < |events| ==>
         match events[i]
         case None => run[i + 1][r] == run[i][r]
         case Some(e) => StepBy(c, run[i], run[i + 1], r, e)
  }

  ghost function StatesOf(run: seq<System>, r: ReplicaIndex): (states: seq<State>)
    requires forall i :: 0 <= i < |run| ==> r in run[i]
    ensures |states| == |run| && forall i :: 0 <= i < |run| ==> states[i] == run[i][r]
  {
    seq(|run|, i requires 0 <= i < |run| => run[i][r])
  }

  /** What a replica does in a run is such a history, so what follows holds in runs. */
  lemma TraceIsHistory(c: Config, run: seq<System>, r: ReplicaIndex, events: seq<Option<Event>>)
    requires IsRun(c, run) && r in Correct(c) && IsTrace(c, run, r, events)
    ensures IsHistory(Init(c.n, c.f, r), StatesOf(run, r), events)
  {
    hide Handle, WellFormed, GenuinePrepare, GenuineCommit, Next;
    var states := StatesOf(run, r);
    forall i | 0 <= i < |events| ensures StepOf(states[i], events[i], states[i + 1]) {
      assert events[i].Some? ==> StepBy(c, run[i], run[i + 1], r, events[i].value);
    }
  }

  lemma ShorterHistory(start: State, states: seq<State>, events: seq<Option<Event>>)
    requires IsHistory(start, states, events) && events != []
    ensures
      var last := |events| - 1;
      IsHistory(start, states[..last + 1], events[..last]) && StepOf(states[last], events[last], states[last + 1])
  {
    hide StepOf;
    var last := |events| - 1;
    forall i | 0 <= i < last ensures StepOf(states[..last + 1][i], events[..last][i], states[..last + 1][i + 1]) {
      assert StepOf(states[i], events[i], states[i + 1]);
    }
  }

  // ---------- what has been taken ----------

  /** The prepare a running replica takes, if any: of its view, or its own. */
  function PrepareIn(e: Option<Event>): Option<Prepare> {
    match e
    case Some(PrepareArrives(p)) => if p.viewNum == 0 then Some(p) else None
    case Some(OwnPrepareArrives(p)) => Some(p)
    case _ => None
  }

  function CommitIn(e: Option<Event>): Option<Commit> {
    match e
    case Some(CommitArrives(m)) => if m.viewNum == 0 then Some(m) else None
    case Some(OwnCommitArrives(m)) => Some(m)
    case _ => None
  }

  function PrePrepareIn(e: Option<Event>): Option<PrePrepare> {
    match e
    case Some(PrePrepareArrives(m)) => if m.viewNum == 0 then Some(m) else None
    case Some(OwnPrePrepareArrives(m)) => Some(m)
    case _ => None
  }

  /** The replicas in whose name a prepare for `d` has been taken. */
  ghost function Preparers(states: seq<State>, events: seq<Option<Event>>, d: Digest): set<ReplicaIndex>
    requires |states| == |events| + 1
    decreases |events|
  {
    if events == [] then {}
    else
      var last := |events| - 1;
      var p := PrepareIn(events[last]);
      Preparers(states[..last + 1], events[..last], d)
      + if states[last].status.Running? && p.Some? && p.value.digest == d then {p.value.replica} else {}
  }

  ghost function Committers(states: seq<State>, events: seq<Option<Event>>, d: Digest): set<ReplicaIndex>
    requires |states| == |events| + 1
    decreases |events|
  {
    if events == [] then {}
    else
      var last := |events| - 1;
      var m := CommitIn(events[last]);
      Committers(states[..last + 1], events[..last], d)
      + if states[last].status.Running? && m.Some? && m.value.digest == d then {m.value.replica} else {}
  }

  /** The digests of the blocks taken. */
  ghost function TakenBlocks(states: seq<State>, events: seq<Option<Event>>): set<Digest>
    requires |states| == |events| + 1
    decreases |events|
  {
    if events == [] then {}
    else
      var last := |events| - 1;
      var m := PrePrepareIn(events[last]);
      TakenBlocks(states[..last + 1], events[..last])
      + if states[last].status.Running? && m.Some? then {Sha256(m.value.block)} else {}
  }

  // ---------- what is due ----------

  ghost function PrepareNow(s: State, e: Option<Event>, index: ReplicaIndex): seq<Prepare> {
    match e
    case Some(PrePrepareArrives(m)) =>
      if s.status.Running? && m.viewNum == 0 && index != PRIMARY then [Prepare(0, Sha256(m.block), index)] else []
    case _ => []
  }

  ghost function RequestNow(s: State, e: Option<Event>, index: ReplicaIndex): seq<Request> {
    match e
    case Some(RequestArrives(request)) => if s.status.Running? && index == PRIMARY then [request] else []
    case _ => []
  }

  /** The prepares due: one for each pre-prepare a backup takes. */
  ghost function PreparesDue(index: ReplicaIndex, states: seq<State>, events: seq<Option<Event>>): seq<Prepare>
    requires |states| == |events| + 1
    decreases |events|
  {
    if events == [] then []
    else
      var last := |events| - 1;
      PreparesDue(index, states[..last + 1], events[..last]) + PrepareNow(states[last], events[last], index)
  }

  /** Whether taking prepare `p` last calls for a commit: the block is there, n - f - 1 replicas have prepared it, and
      either this prepare makes them as many or it is the replica's own. */
  ghost predicate CommitIsDue(
      n: nat, f: nat, index: ReplicaIndex, states: seq<State>, events: seq<Option<Event>>, p: Prepare)
    requires |states| == |events| + 1 && events != []
  {
    var last := |events| - 1;
    && p.digest in TakenBlocks(states[..last + 1], events[..last])
    && |Preparers(states, events, p.digest)| >= n - f - 1
    && (|Preparers(states[..last + 1], events[..last], p.digest)| < n - f - 1 || p.replica == index)
  }

  ghost function CommitsDue(
      n: nat, f: nat, index: ReplicaIndex, states: seq<State>, events: seq<Option<Event>>): seq<Commit>
    requires |states| == |events| + 1
    decreases |events|
  {
    if events == [] then []
    else
      var last := |events| - 1;
      var p := PrepareIn(events[last]);
      CommitsDue(n, f, index, states[..last + 1], events[..last])
      + if states[last].status.Running? && p.Some? && CommitIsDue(n, f, index, states, events, p.value)
        then [Commit(0, p.value.digest, index)] else []
  }

  /** The requests that reached a running primary. */
  ghost function RequestsTaken(index: ReplicaIndex, states: seq<State>, events: seq<Option<Event>>): seq<Request>
    requires |states| == |events| + 1
    decreases |events|
  {
    if events == [] then []
    else
      var last := |events| - 1;
      RequestsTaken(index, states[..last + 1], events[..last]) + RequestNow(states[last], events[last], index)
  }

  // ---------- one event ----------

  /** A certificate holds the first `limit` of the replicas in whose name something was taken. */
  ghost predicate Counts<M>(certificate: map<ReplicaIndex, M>, takers: set<ReplicaIndex>, limit: nat) {
    && certificate.Keys <= takers && |certificate| <= limit
    && (certificate.Keys == takers || |certificate| == limit)
  }

  lemma CountsEnough<M>(certificate: map<ReplicaIndex, M>, takers: set<ReplicaIndex>, limit: nat)
    requires Counts(certificate, takers, limit)
    ensures |certificate| == limit <==> |takers| >= limit
  {
    assert |certificate| == |certificate.Keys|;
    SubsetSize(certificate.Keys, takers);
  }

  lemma CountsMore<M>(certificate: map<ReplicaIndex, M>, takers: set<ReplicaIndex>, limit: nat, r: ReplicaIndex, m: M)
    requires Counts(certificate, takers, limit)
    ensures |certificate| < limit ==> Counts(certificate[r := m], takers + {r}, limit)
    ensures |certificate| == limit ==> Counts(certificate, takers + {r}, limit)
  {
    assert certificate[r := m].Keys == certificate.Keys + {r};
    assert |certificate[r := m]| == |certificate[r := m].Keys|;
    assert |certificate| == |certificate.Keys|;
  }

  /** What is kept about one digest. */
  ghost predicate DigestOk(s: State, states: seq<State>, events: seq<Option<Event>>, d: Digest)
    requires |states| == |events| + 1 && s.n > s.f
  {
    && Counts(CertificateOf(s.prepareCertificates, d), Preparers(states, events, d), s.n - s.f - 1)
    && Counts(CertificateOf(s.commitCertificates, d), Committers(states, events, d), s.n - s.f)
  }

  ghost predicate Follows(s: State, n: nat, f: nat, index: ReplicaIndex, states: seq<State>, events: seq<Option<Event>>)
    requires |states| == |events| + 1
  {
    && WellFormed(s) && s.n == n && s.f == f && s.index == index && s.viewNum == 0
    && (forall d :: DigestOk(s, states, events, d))
    && s.prePrepares.Keys == TakenBlocks(states, events)
    && s.sentPrepares == PreparesDue(index, states, events)
    && s.sentCommits == CommitsDue(n, f, index, states, events)
    && s.accepted == RequestsTaken(index, states, events)
  }

  lemma PrepareEffect(s: State, p: Prepare)
    requires WellFormed(s) && |CertificateOf(s.prepareCertificates, p.digest)| <= s.n - s.f - 1
    ensures
      var s', d := InsertPrepare(s, p), p.digest;
      var held, held' := CertificateOf(s.prepareCertificates, d), CertificateOf(s'.prepareCertificates, d);
      && s'.status == s.status
      && held' == (if |held| == s.n - s.f - 1 then held else held[p.replica := p])
      && (forall e :: e != d ==> CertificateOf(s'.prepareCertificates, e) == CertificateOf(s.prepareCertificates, e))
      && s'.sentCommits == s.sentCommits
           + if d in s.prePrepares && |held'| == s.n - s.f - 1 && (|held| < s.n - s.f - 1 || p.replica == s.index)
             then [Commit(s.viewNum, d, s.index)] else []
  {
    hide WellFormed;
  }

  lemma CommitEffect(s: State, m: Commit)
    requires WellFormed(s) && |CertificateOf(s.commitCertificates, m.digest)| <= s.n - s.f
    ensures
      var s', d := InsertCommit(s, m), m.digest;
      var held, held' := CertificateOf(s.commitCertificates, d), CertificateOf(s'.commitCertificates, d);
      && held' == (if |held| == s.n - s.f then held else held[m.replica := m])
      && (forall e :: e != d ==> CertificateOf(s'.commitCertificates, e) == CertificateOf(s.commitCertificates, e))
  {
    hide WellFormed, DoExecute;
  }

  /** One more event, with the state after it. */
  ghost predicate OneMore(
      states: seq<State>, events: seq<Option<Event>>, more: seq<State>, all: seq<Option<Event>>, s: State,
      e: Option<Event>)
  {
    && |states| == |events| + 1 && states[|events|] == s
    && |more| == |all| + 1 && |all| == |events| + 1
    && more[..|states|] == states && all[..|events|] == events && all[|events|] == e
  }

  lemma TakersOneMore(
      s: State, states: seq<State>, events: seq<Option<Event>>, more: seq<State>, all: seq<Option<Event>>,
      e: Option<Event>, d: Digest)
    requires OneMore(states, events, more, all, s, e)
    ensures Preparers(more, all, d) == Preparers(states, events, d)
              + if s.status.Running? && PrepareIn(e).Some? && PrepareIn(e).value.digest == d
                then {PrepareIn(e).value.replica} else {}
    ensures Committers(more, all, d) == Committers(states, events, d)
              + if s.status.Running? && CommitIn(e).Some? && CommitIn(e).value.digest == d
                then {CommitIn(e).value.replica} else {}
  {
  }

  lemma SameDigests(
      s: State, s': State, states: seq<State>, events: seq<Option<Event>>, more: seq<State>, all: seq<Option<Event>>,
      e: Option<Event>)
    requires OneMore(states, events, more, all, s, e) && s.n > s.f && s'.n == s.n && s'.f == s.f
    requires forall d :: DigestOk(s, states, events, d)
    requires s'.prepareCertificates == s.prepareCertificates && s'.commitCertificates == s.commitCertificates
    requires s.status.Panicked? || (PrepareIn(e).None? && CommitIn(e).None?)
    ensures forall d :: DigestOk(s', more, all, d)
  {
    hide Counts, CertificateOf, Preparers, Committers, PrepareIn, CommitIn;
    forall d ensures DigestOk(s', more, all, d) {
      assert DigestOk(s, states, events, d);
      TakersOneMore(s, states, events, more, all, e, d);
      assert Preparers(more, all, d) == Preparers(states, events, d);
      assert Committers(more, all, d) == Committers(states, events, d);
    }
  }

  lemma PrepareDigest(
      s: State, p: Prepare, states: seq<State>, events: seq<Option<Event>>, more: seq<State>, all: seq<Option<Event>>,
      e: Option<Event>, d: Digest)
    requires OneMore(states, events, more, all, s, e) && WellFormed(s) && s.n > s.f && s.status.Running?
    requires PrepareIn(e) == Some(p) && CommitIn(e).None?
    requires DigestOk(s, states, events, p.digest) && DigestOk(s, states, events, d)
    ensures DigestOk(InsertPrepare(s, p), more, all, d)
  {
    hide Counts, CertificateOf, InsertPrepare, WellFormed, Preparers, Committers, PrepareIn, CommitIn;
    CountsLimit(s, states, events, p.digest);
    PrepareEffect(s, p);
    TakersOneMore(s, states, events, more, all, e, d);
    assert Committers(more, all, d) == Committers(states, events, d);
    if d == p.digest {
      CountsMore(CertificateOf(s.prepareCertificates, d), Preparers(states, events, d), s.n - s.f - 1, p.replica, p);
    } else {
      assert Preparers(more, all, d) == Preparers(states, events, d);
    }
  }

  lemma CountsLimit(s: State, states: seq<State>, events: seq<Option<Event>>, d: Digest)
    requires |states| == |events| + 1 && s.n > s.f && DigestOk(s, states, events, d)
    ensures |CertificateOf(s.prepareCertificates, d)| <= s.n - s.f - 1
    ensures |CertificateOf(s.commitCertificates, d)| <= s.n - s.f
  {
  }

  lemma CommitDigest(
      s: State, m: Commit, states: seq<State>, events: seq<Option<Event>>, more: seq<State>, all: seq<Option<Event>>,
      e: Option<Event>, d: Digest)
    requires OneMore(states, events, more, all, s, e) && WellFormed(s) && s.n > s.f && s.status.Running?
    requires CommitIn(e) == Some(m) && PrepareIn(e).None?
    requires DigestOk(s, states, events, m.digest) && DigestOk(s, states, events, d)
    ensures DigestOk(InsertCommit(s, m), more, all, d)
  {
    hide Counts, CertificateOf, InsertCommit, WellFormed, Preparers, Committers, PrepareIn, CommitIn;
    CountsLimit(s, states, events, m.digest);
    CommitEffect(s, m);
    TakersOneMore(s, states, events, more, all, e, d);
    assert Preparers(more, all, d) == Preparers(states, events, d);
    if d == m.digest {
      CountsMore(CertificateOf(s.commitCertificates, d), Committers(states, events, d), s.n - s.f, m.replica, m);
    } else {
      assert Committers(more, all, d) == Committers(states, events, d);
    }
  }

  /** A prepare that is taken is followed by a commit exactly when one is due. */
  lemma PrepareCommits(
      s: State, p: Prepare, states: seq<State>, events: seq<Option<Event>>, more: seq<State>, all: seq<Option<Event>>,
      e: Option<Event>)
    requires OneMore(states, events, more, all, s, e) && WellFormed(s) && s.n > s.f && s.status.Running?
    requires DigestOk(s, states, events, p.digest) && DigestOk(InsertPrepare(s, p), more, all, p.digest)
    requires s.prePrepares.Keys == TakenBlocks(states, events)
    ensures InsertPrepare(s, p).sentCommits == s.sentCommits
              + if CommitIsDue(s.n, s.f, s.index, more, all, p) then [Commit(s.viewNum, p.digest, s.index)] else []
  {
    hide Counts, CertificateOf, InsertPrepare, WellFormed, Preparers, Committers, TakenBlocks;
    CountsLimit(s, states, events, p.digest);
    PrepareEffect(s, p);
    CountsEnough(CertificateOf(s.prepareCertificates, p.digest), Preparers(states, events, p.digest), s.n - s.f - 1);
    CountsEnough(CertificateOf(InsertPrepare(s, p).prepareCertificates, p.digest), Preparers(more, all, p.digest),
                 s.n - s.f - 1);
  }

  /** What the received messages call for, event by event. */
  lemma DueOneMore(
      s: State, states: seq<State>, events: seq<Option<Event>>, more: seq<State>, all: seq<Option<Event>>,
      e: Option<Event>, n: nat, f: nat, index: ReplicaIndex)
    requires OneMore(states, events, more, all, s, e)
    ensures TakenBlocks(more, all) == TakenBlocks(states, events)
              + if s.status.Running? && PrePrepareIn(e).Some? then {Sha256(PrePrepareIn(e).value.block)} else {}
    ensures PreparesDue(index, more, all) == PreparesDue(index, states, events) + PrepareNow(s, e, index)
    ensures CommitsDue(n, f, index, more, all) == CommitsDue(n, f, index, states, events)
              + if s.status.Running? && PrepareIn(e).Some? && CommitIsDue(n, f, index, more, all, PrepareIn(e).value)
                then [Commit(0, PrepareIn(e).value.digest, index)] else []
    ensures RequestsTaken(index, more, all) == RequestsTaken(index, states, events) + RequestNow(s, e, index)
  {
    hide CommitIsDue;
  }

  lemma PrepareFollows(
      s: State, n: nat, f: nat, index: ReplicaIndex, states: seq<State>, events: seq<Option<Event>>,
      more: seq<State>, all: seq<Option<Event>>, e: Option<Event>)
    requires OneMore(states, events, more, all, s, e) && Follows(s, n, f, index, states, events)
    requires s.status.Running? && PrepareIn(e).Some?
    ensures Follows(InsertPrepare(s, PrepareIn(e).value), n, f, index, more, all)
  {
    hide DigestOk, WellFormed, CommitIsDue, TakenBlocks, PreparesDue, CommitsDue, RequestsTaken, InsertPrepare;
    assert s.n > s.f by { EnoughReplicas(s); }
    DueOneMore(s, states, events, more, all, e, n, f, index);
    var p := PrepareIn(e).value;
    forall d ensures DigestOk(InsertPrepare(s, p), more, all, d) {
      PrepareDigest(s, p, states, events, more, all, e, d);
    }
    PrepareCommits(s, p, states, events, more, all, e);
  }

  lemma CommitFollows(
      s: State, n: nat, f: nat, index: ReplicaIndex, states: seq<State>, events: seq<Option<Event>>,
      more: seq<State>, all: seq<Option<Event>>, e: Option<Event>)
    requires OneMore(states, events, more, all, s, e) && Follows(s, n, f, index, states, events)
    requires s.status.Running? && CommitIn(e).Some?
    ensures Follows(InsertCommit(s, CommitIn(e).value), n, f, index, more, all)
  {
    hide DigestOk, WellFormed, CommitIsDue, TakenBlocks, PreparesDue, CommitsDue, RequestsTaken, InsertCommit;
    assert s.n > s.f by { EnoughReplicas(s); }
    DueOneMore(s, states, events, more, all, e, n, f, index);
    forall d ensures DigestOk(InsertCommit(s, CommitIn(e).value), more, all, d) {
      CommitDigest(s, CommitIn(e).value, states, events, more, all, e, d);
    }
  }

  lemma StepFollows(
      s: State, n: nat, f: nat, index: ReplicaIndex, states: seq<State>, events: seq<Option<Event>>, s': State,
      more: seq<State>, all: seq<Option<Event>>, e: Option<Event>)
    requires OneMore(states, events, more, all, s, e) && Follows(s, n, f, index, states, events) && StepOf(s, e, s')
    ensures Follows(s', n, f, index, more, all)
  {
    hide DigestOk, WellFormed, CommitIsDue, TakenBlocks, PreparesDue, CommitsDue, RequestsTaken, InsertCommit, InsertPrepare;
    assert s.n > s.f by { EnoughReplicas(s); }
    DueOneMore(s, states, events, more, all, e, n, f, index);
    if e.None? || s.status.Panicked? {
      SameDigests(s, s', states, events, more, all, e);
    } else if PrepareIn(e).Some? {
      PrepareFollows(s, n, f, index, states, events, more, all, e);
    } else if CommitIn(e).Some? {
      CommitFollows(s, n, f, index, states, events, more, all, e);
    } else {
      OtherEvents(s, e.value);
      SameDigests(s, s', states, events, more, all, e);
    }
  }

  lemma EnoughReplicas(s: State)
    requires WellFormed(s)
    ensures s.n > s.f
  {
  }

  /** The events that touch no certificate. */
  lemma OtherEvents(s: State, e: Event)
    requires WellFormed(s) && s.status.Running? && s.viewNum == 0 && PrepareIn(Some(e)).None? && CommitIn(Some(e)).None?
    ensures
      var s' := Handle(s, e);
      && WellFormed(s')
      && s'.prePrepares.Keys == s.prePrepares.Keys
           + (if PrePrepareIn(Some(e)).Some? then {Sha256(PrePrepareIn(Some(e)).value.block)} else {})
      && s'.prepareCertificates == s.prepareCertificates && s'.commitCertificates == s.commitCertificates
      && s'.sentCommits == s.sentCommits && s'.n == s.n && s'.f == s.f && s'.index == s.index && s'.viewNum == 0
  {
    hide WellFormed, InsertCommit, InsertPrepare;
    EnoughReplicas(s);
  }

  lemma {:induction false} HistoryFollows(
      n: nat, f: nat, index: ReplicaIndex, states: seq<State>, events: seq<Option<Event>>)
    requires n > f && IsHistory(Init(n, f, index), states, events)
    ensures Follows(states[|events|], n, f, index, states, events)
    decreases |events|
  {
    hide Follows, StepOf;
    if events == [] {
      assert Follows(states[0], n, f, index, states, events) by { StartFollows(n, f, index, states); }
    } else {
      var last := |events| - 1;
      ShorterHistory(Init(n, f, index), states, events);
      HistoryFollows(n, f, index, states[..last + 1], events[..last]);
      assert OneMore(states[..last + 1], events[..last], states, events, states[last], events[last]);
      StepFollows(states[last], n, f, index, states[..last + 1], events[..last], states[last + 1], states, events,
                  events[last]);
    }
  }

  lemma StartFollows(n: nat, f: nat, index: ReplicaIndex, states: seq<State>)
    requires n > f && states == [Init(n, f, index)]
    ensures Follows(Init(n, f, index), n, f, index, states, [])
  {
    var s := Init(n, f, index);
    forall d ensures DigestOk(s, states, [], d) {
    }
  }

  // ---------- main theorems ----------

  /** The replica has taken its own prepare for `d`. */
  ghost predicate OwnTaken(states: seq<State>, events: seq<Option<Event>>, d: Digest)
    requires |states| == |events| + 1
    decreases |events|
  {
    events != [] &&
    var last := |events| - 1;
    || OwnTaken(states[..last + 1], events[..last], d)
    || (states[last].status.Running? && events[last].Some? && events[last].value.OwnPrepareArrives?
        && events[last].value.ownPrepare.digest == d)
  }

  lemma {:induction false} DuePrepares(index: ReplicaIndex, states: seq<State>, events: seq<Option<Event>>, p: Prepare)
    requires |states| == |events| + 1 && p in PreparesDue(index, states, events)
    ensures p.replica == index && p.digest in TakenBlocks(states, events)
    decreases |events|
  {
    var last := |events| - 1;
    if p in PreparesDue(index, states[..last + 1], events[..last]) {
      DuePrepares(index, states[..last + 1], events[..last], p);
    }
  }

  ghost predicate LateCommit(
      n: nat, f: nat, index: ReplicaIndex, states: seq<State>, events: seq<Option<Event>>, d: Digest)
    requires |states| == |events| + 1
  {
    && d in TakenBlocks(states, events)
    && (|Preparers(states, events, d)| >= n - f - 1 ==> Commit(0, d, index) in CommitsDue(n, f, index, states, events))
  }

  /** The own prepare is taken last. */
  lemma OwnLast(
      n: nat, f: nat, index: ReplicaIndex, states: seq<State>, events: seq<Option<Event>>, d: Digest)
    requires n > f && IsHistory(Init(n, f, index), states, events) && events != []
    requires
      var s, e := states[|events| - 1], events[|events| - 1];
      s.status.Running? && e.Some? && e.value.OwnPrepareArrives? && e.value.ownPrepare.digest == d
    ensures LateCommit(n, f, index, states, events, d)
  {
    hide Follows, StepOf, Preparers, TakenBlocks, CommitsDue, CommitIsDue, PreparesDue, RequestsTaken, WellFormed;
    var last := |events| - 1;
    var before, prev := states[..last + 1], events[..last];
    var s, e := states[last], events[last];
    ShorterHistory(Init(n, f, index), states, events);
    assert OneMore(before, prev, states, events, s, e);
    DueOneMore(s, before, prev, states, events, e, n, f, index);
    HistoryFollows(n, f, index, before, prev);
    OwnIsDue(s, n, f, index, before, prev, e.value.ownPrepare, states[last + 1]);
    OwnCommitIsDue(n, f, index, states, events, e.value.ownPrepare);
  }

  /** It was taken before. */
  lemma OwnBefore(
      n: nat, f: nat, index: ReplicaIndex, states: seq<State>, events: seq<Option<Event>>, d: Digest)
    requires |states| == |events| + 1 && events != []
    requires LateCommit(n, f, index, states[..|events|], events[..|events| - 1], d)
    ensures LateCommit(n, f, index, states, events, d)
  {
    hide Preparers, TakenBlocks, CommitsDue, CommitIsDue, PreparesDue, RequestsTaken;
    var last := |events| - 1;
    var before, prev := states[..last + 1], events[..last];
    var s, e := states[last], events[last];
    assert OneMore(before, prev, states, events, s, e);
    DueOneMore(s, before, prev, states, events, e, n, f, index);
    TakersOneMore(s, before, prev, states, events, e, d);
    if |Preparers(states, events, d)| >= n - f - 1 > |Preparers(before, prev, d)| {
      NewCommitIsDue(n, f, index, states, events, PrepareIn(e).value);
    }
  }

  lemma {:induction false} OwnTakenCommits(
      n: nat, f: nat, index: ReplicaIndex, states: seq<State>, events: seq<Option<Event>>, d: Digest)
    requires n > f && IsHistory(Init(n, f, index), states, events) && OwnTaken(states, events, d)
    ensures LateCommit(n, f, index, states, events, d)
    decreases |events|
  {
    hide LateCommit, StepOf;
    var last := |events| - 1;
    ShorterHistory(Init(n, f, index), states, events);
    if OwnTaken(states[..last + 1], events[..last], d) {
      OwnTakenCommits(n, f, index, states[..last + 1], events[..last], d);
      OwnBefore(n, f, index, states, events, d);
    } else {
      OwnLast(n, f, index, states, events, d);
    }
  }

  lemma OwnIsDue(
      s: State, n: nat, f: nat, index: ReplicaIndex, states: seq<State>, events: seq<Option<Event>>, p: Prepare, s': State)
    requires |states| == |events| + 1 && Follows(s, n, f, index, states, events)
    requires StepOf(s, Some(OwnPrepareArrives(p)), s')
    ensures p.replica == index && p.digest in TakenBlocks(states, events)
  {
    hide WellFormed, DigestOk, CommitsDue, TakenBlocks;
    DuePrepares(index, states, events, p);
  }

  lemma OwnCommitIsDue(
      n: nat, f: nat, index: ReplicaIndex, states: seq<State>, events: seq<Option<Event>>, p: Prepare)
    requires |states| == |events| + 1 && events != [] && p.replica == index
    requires p.digest in TakenBlocks(states[..|events|], events[..|events| - 1])
    ensures CommitIsDue(n, f, index, states, events, p) <==> |Preparers(states, events, p.digest)| >= n - f - 1
  {
    hide Preparers, TakenBlocks;
  }

  lemma NewCommitIsDue(
      n: nat, f: nat, index: ReplicaIndex, states: seq<State>, events: seq<Option<Event>>, p: Prepare)
    requires |states| == |events| + 1 && events != []
    requires p.digest in TakenBlocks(states[..|events|], events[..|events| - 1])
    requires |Preparers(states, events, p.digest)| >= n - f - 1
    requires |Preparers(states[..|events|], events[..|events| - 1], p.digest)| < n - f - 1
    ensures CommitIsDue(n, f, index, states, events, p)
  {
    hide Preparers, TakenBlocks;
  }

  /** Over any history of one replica: it has sent exactly the prepares and commits due and queued exactly the
      requests that reached it as a running primary; it counts every replica of the first n - f - 1 whose prepare
      and of the first n - f whose commit for a block it has taken. */
  lemma SendsExactlyWhatIsDue(
      n: nat, f: nat, index: ReplicaIndex, states: seq<State>, events: seq<Option<Event>>, d: Digest)
    requires n > f && IsHistory(Init(n, f, index), states, events)
    ensures
      var s := states[|events|];
      && s.sentPrepares == PreparesDue(index, states, events)
      && s.sentCommits == CommitsDue(n, f, index, states, events)
      && s.accepted == RequestsTaken(index, states, events)
      && s.prePrepares.Keys == TakenBlocks(states, events)
      && (|CertificateOf(s.prepareCertificates, d)| == n - f - 1 <==> |Preparers(states, events, d)| >= n - f - 1)
      && (Full(s, d) <==> |Committers(states, events, d)| >= n - f)
  {
    hide Preparers, Committers, TakenBlocks, PreparesDue, CommitsDue, RequestsTaken, WellFormed;
    HistoryFollows(n, f, index, states, events);
    var s := states[|events|];
    assert DigestOk(s, states, events, d);
    CountsEnough(CertificateOf(s.prepareCertificates, d), Preparers(states, events, d), n - f - 1);
    CountsEnough(CertificateOf(s.commitCertificates, d), Committers(states, events, d), n - f);
  }

  /** Whatever the order in which a backup takes its block, n - f - 1 prepares for it and its own prepare coming back:
      once it has taken all of them it has sent its commit. */
  lemma PreparedCommits(
      n: nat, f: nat, index: ReplicaIndex, states: seq<State>, events: seq<Option<Event>>, d: Digest)
    requires n > f && IsHistory(Init(n, f, index), states, events)
    requires OwnTaken(states, events, d)
    requires
      || |Preparers(states, events, d)| >= n - f - 1
      || |CertificateOf(states[|events|].prepareCertificates, d)| == n - f - 1
    ensures d in states[|events|].prePrepares && Commit(0, d, index) in states[|events|].sentCommits
  {
    hide IsHistory, OwnTaken, Preparers, Committers, TakenBlocks, PreparesDue, CommitsDue, RequestsTaken;
    assert |states| == |events| + 1 by { HistoryLength(Init(n, f, index), states, events); }
    OwnTakenCommits(n, f, index, states, events, d);
    SendsExactlyWhatIsDue(n, f, index, states, events, d);
  }

  lemma HistoryLength(start: State, states: seq<State>, events: seq<Option<Event>>)
    requires IsHistory(start, states, events)
    ensures |states| == |events| + 1
  {
  }

  /** The same in every run with a correct primary. */
  lemma PreparedCommitsInRun(
      c: Config, run: seq<System>, r: ReplicaIndex, events: seq<Option<Event>>, d: Digest)
    requires CorrectPrimary(c) && IsRun(c, run) && r in Correct(c) && IsTrace(c, run, r, events)
    requires OwnTaken(StatesOf(run, r), events, d)
    requires |CertificateOf(run[|events|][r].prepareCertificates, d)| == c.n - c.f - 1
    ensures Commit(0, d, r) in run[|run| - 1][r].sentCommits
  {
    hide IsRun, OwnTaken, CertificateOf;
    TraceIsHistory(c, run, r, events);
    PreparedCommits(c.n, c.f, r, StatesOf(run, r), events, d);
  }

  /** Progress in every run with a correct primary: a correct replica that is still running has executed the first k
      blocks once it has taken commits of n - f replicas for each of them. */
  lemma CommittedIsExecuted(c: Config, run: seq<System>, r: ReplicaIndex, events: seq<Option<Event>>, k: nat)
    requires CorrectPrimary(c) && IsRun(c, run) && r in Correct(c) && IsTrace(c, run, r, events)
    requires run[|run| - 1][r].status.Running? && k <= |Proposed(run[|run| - 1])|
    requires forall b :: b in Proposed(run[|run| - 1])[..k] ==> |Committers(StatesOf(run, r), events, Sha256(b))| >= c.n - c.f
    ensures |run[|run| - 1][r].executed| >= k
  {
    hide IsRun, Committers, Full, Proposed, StatusOk;
    TraceIsHistory(c, run, r, events);
    OnlyTheseStops(c, run, r);
    var s, blocks := run[|run| - 1][r], Proposed(run[|run| - 1]);
    if |s.executed| < k {
      assert blocks[..k][|s.executed|] == blocks[|s.executed|];
      SendsExactlyWhatIsDue(c.n, c.f, r, StatesOf(run, r), events, Sha256(blocks[|s.executed|]));
      assert false;
    }
  }

  /** At a running primary a pace proposes exactly when requests wait, the first of them, at most 100. */
  lemma PaceProposes(s: State)
    requires WellFormed(s) && s.status.Running? && s.index == PRIMARY && s.viewNum == 0
    ensures s.requests == [] ==> OnPace(s) == s
    ensures
      s.requests != [] ==>
        var s' := OnPace(s);
        && |s'.sentPrePrepares| == |s.sentPrePrepares| + 1 && s.sentPrePrepares <= s'.sentPrePrepares
        && var block := s'.sentPrePrepares[|s.sentPrePrepares|].block;
        && block.requests + s'.requests == s.requests && 0 < |block.requests| <= MAX_BATCH_SIZE
        && (s'.requests == [] || |block.requests| == MAX_BATCH_SIZE)
        && block.parent == s.chain.digestParent && s'.chain.digestParent == Sha256(block)
  {
  }
}
