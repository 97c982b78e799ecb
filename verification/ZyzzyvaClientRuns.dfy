/** What a Zyzzyva client accepts, over all runs of one client. */
module ZyzzyvaClientRuns {
  // Each completed result was produced, for the completed block, by n - f replicas (by all n on the fast
  // path). The local commits counted on the slow path are all for that block unless the client turned to
  // another block while it already held some: `localCommits` is then not emptied.

  import opened Blocks
  import opened Quorums
  import opened Zyzzyva
  import opened ZyzzyvaClient

  datatype Event =
    | Invokes(op: Op)
    | ResponseArrives(response: SpecResponse)
    | LocalCommitArrives(localCommit: LocalCommit)

  predicate Ready(s: ClientState) {
    s.n > s.f && Paired(s)
  }

  function Handled(s: ClientState, e: Event): (r: ClientState)
    requires Ready(s)
    ensures Ready(r) && r.n == s.n && r.f == s.f && r.index == s.index && r.byzantine == s.byzantine
  {
    match e
    case Invokes(op) => StartInvoke(s, op)
    case ResponseArrives(m) => HandleResponse(s, m)
    case LocalCommitArrives(m) => HandleLocalCommit(s, m)
  }

  function After(s: ClientState, events: seq<Event>): (r: ClientState)
    requires Ready(s)
    ensures Ready(r) && r.n == s.n && r.f == s.f && r.index == s.index && r.byzantine == s.byzantine
  {
    if events == [] then s else Handled(After(s, events[..|events| - 1]), events[|events| - 1])
  }

  /** Messages are authenticated: those in the name of a correct replica are among the `said` ones. */
  ghost predicate Genuine(c: Config, said: set<SpecResponse>, saidCommits: set<LocalCommit>, e: Event) {
    match e
    case Invokes(_) => true
    case ResponseArrives(m) => m.replica !in c.faulty ==> m in said
    case LocalCommitArrives(m) => m.replica !in c.faulty ==> m in saidCommits
  }

  ghost predicate GenuineEvents(c: Config, said: set<SpecResponse>, saidCommits: set<LocalCommit>, events: seq<Event>) {
    forall e :: e in events ==> Genuine(c, said, saidCommits, e)
  }

  /** The replicas that said this block with these results. */
  ghost function Responders(said: set<SpecResponse>, block: Block, results: seq<Result>): set<ReplicaIndex> {
    set m | m in said && m.block == block && m.results == results :: m.replica
  }

  ghost function Confirmers(saidCommits: set<LocalCommit>, digest: Digest): set<ReplicaIndex> {
    set m | m in saidCommits && m.digest == digest :: m.replica
  }

  ghost predicate ProducedIn(client: ClientIndex, num: nat, digest: Digest, result: Result, m: SpecResponse) {
    && digest == Sha256(m.block)
    && Position(m.block.requests, client, num).Some?
    && Position(m.block.requests, client, num).value < |m.results|
    && result == m.results[Position(m.block.requests, client, num).value]
  }

  /** The block of `digest` holds the request, and at least `quorum` - f correct replicas said it with
      one and the same list of results, which has `result` at the place of the request. */
  ghost predicate Produced(
      c: Config, said: set<SpecResponse>, quorum: int, client: ClientIndex, num: nat, digest: Digest, result: Result)
  {
    exists m :: ProducedIn(client, num, digest, result, m) && |Responders(said, m.block, m.results)| + |c.faulty| >= quorum
  }

  ghost predicate ResponsesOk(c: Config, said: set<SpecResponse>, responses: map<ReplicaIndex, SpecResponse>) {
    forall k :: k in responses ==> responses[k].replica == k && (k !in c.faulty ==> responses[k] in said)
  }

  ghost predicate CompletionOk(c: Config, said: set<SpecResponse>, client: ClientIndex, done: Completion) {
    Produced(c, said, if done.path == Fast then c.n else c.n - c.f, client, done.num, done.digest, done.result)
  }

  /** Fewer than n responses match, whatever the block and the results. */
  ghost predicate Undecided(n: nat, responses: map<ReplicaIndex, SpecResponse>) {
    forall m: SpecResponse :: |Matching(responses, m)| < n
  }

  ghost predicate PendingOk(c: Config, said: set<SpecResponse>, client: ClientIndex, num: nat, invoke: Invoke) {
    && ResponsesOk(c, said, invoke.responses)
    && invoke.commitDigest.Some? == invoke.commitResult.Some?
    && (invoke.commitDigest.Some? ==>
          Produced(c, said, c.n - c.f, client, num, invoke.commitDigest.value, invoke.commitResult.value))
    && |invoke.localCommits| < c.n - c.f
    && Undecided(c.n, invoke.responses)
  }

  /** Requests are numbered 1, 2, …; each but a pending last one has completed, once, in order. */
  ghost predicate ClientInv(c: Config, said: set<SpecResponse>, s: ClientState) {
    && s.n == c.n && s.f == c.f
    && s.requestNum == |s.sent| == |s.completed| + (if s.invoke.Some? then 1 else 0)
    && (forall i :: 0 <= i < |s.sent| ==> s.sent[i].0 == i + 1)
    && (forall i :: 0 <= i < |s.completed| ==> s.completed[i].num == i + 1)
    && (forall i :: 0 <= i < |s.completed| ==> CompletionOk(c, said, s.index, s.completed[i]))
    && (s.invoke.Some? ==> PendingOk(c, said, s.index, s.requestNum, s.invoke.value))
  }

  lemma MatchingBacked(c: Config, said: set<SpecResponse>, responses: map<ReplicaIndex, SpecResponse>, m: SpecResponse)
    requires ResponsesOk(c, said, responses)
    ensures |Responders(said, m.block, m.results)| + |c.faulty| >= |Matching(responses, m)|
  {
    forall k | k in Matching(responses, m) ensures k in Responders(said, m.block, m.results) + c.faulty {
      if k !in c.faulty {
        assert responses[k] in said;
      }
    }
    SubsetSize(Matching(responses, m), Responders(said, m.block, m.results) + c.faulty);
  }

  /** One more response raises no count by more than one, and lowers all but that of its own block and results. */
  lemma MatchingMore(n: nat, responses: map<ReplicaIndex, SpecResponse>, m: SpecResponse)
    requires Undecided(n, responses)
    ensures
      var responses' := responses[m.replica := m];
      && |Matching(responses', m)| <= n
      && (|Matching(responses', m)| < n ==> Undecided(n, responses'))
  {
    var responses' := responses[m.replica := m];
    forall q: SpecResponse
      ensures |Matching(responses', q)| <= |Matching(responses, q)|
                || (|Matching(responses', q)| <= |Matching(responses, q)| + 1 && Matching(responses', q) == Matching(responses', m))
    {
      if q.block == m.block && q.results == m.results {
        SubsetSize(Matching(responses', q), Matching(responses, q) + {m.replica});
      } else {
        SubsetSize(Matching(responses', q), Matching(responses, q));
      }
    }
  }

  lemma ResponseKeeps(c: Config, said: set<SpecResponse>, s: ClientState, m: SpecResponse)
    requires Ready(s) && ClientInv(c, said, s) && (m.replica !in c.faulty ==> m in said)
    ensures ClientInv(c, said, HandleResponse(s, m))
  {
    hide Matching, Position, Responders, Undecided;
    if s.invoke.Some? && Position(m.block.requests, s.index, s.requestNum).Some? {
      var i := Position(m.block.requests, s.index, s.requestNum).value;
      if i < |m.results| {
        var responses := s.invoke.value.responses[m.replica := m];
        assert ResponsesOk(c, said, responses);
        MatchingBacked(c, said, responses, m);
        MatchingMore(c.n, s.invoke.value.responses, m);
        assert ProducedIn(s.index, s.requestNum, Sha256(m.block), m.results[i], m);
      }
    }
  }

  lemma LocalCommitKeeps(c: Config, said: set<SpecResponse>, s: ClientState, m: LocalCommit)
    requires Ready(s) && ClientInv(c, said, s)
    ensures ClientInv(c, said, HandleLocalCommit(s, m))
  {
    hide Produced;
    if s.invoke.Some? {
      assert |s.invoke.value.localCommits + {m.replica}| <= |s.invoke.value.localCommits| + 1;
    }
  }

  /** Over all runs of a client: every invocation completes at most once and in order, and its result was
      produced, for the completed block, by at least n - f - f correct replicas, on the fast path by
      all of them; while a request is pending, fewer than n latest responses match, whichever they are,
      and fewer than n - f local commits are counted. */
  lemma {:induction false} AcceptsOnlyProducedResults(
      c: Config, said: set<SpecResponse>, saidCommits: set<LocalCommit>, client: ClientIndex, byzantine: bool,
      events: seq<Event>)
    requires ValidConfig(c) && GenuineEvents(c, said, saidCommits, events)
    ensures ClientInv(c, said, After(InitClient(c.n, c.f, client, byzantine), events))
    decreases |events|
  {
    hide ClientInv;
    var init := InitClient(c.n, c.f, client, byzantine);
    if events == [] {
      assert ClientInv(c, said, init) by { InitInv(c, said, client, byzantine); }
    } else {
      var last := |events| - 1;
      assert forall e :: e in events[..last] ==> e in events;
      AcceptsOnlyProducedResults(c, said, saidCommits, client, byzantine, events[..last]);
      var s := After(init, events[..last]);
      assert Genuine(c, said, saidCommits, events[last]);
      match events[last]
      case Invokes(op) => InvokeKeeps(c, said, s, op);
      case ResponseArrives(m) => ResponseKeeps(c, said, s, m);
      case LocalCommitArrives(m) => LocalCommitKeeps(c, said, s, m);
    }
  }

  lemma InitInv(c: Config, said: set<SpecResponse>, client: ClientIndex, byzantine: bool)
    ensures ClientInv(c, said, InitClient(c.n, c.f, client, byzantine))
  {
  }

  lemma InvokeKeeps(c: Config, said: set<SpecResponse>, s: ClientState, op: Op)
    requires ClientInv(c, said, s) && c.n > c.f
    ensures ClientInv(c, said, StartInvoke(s, op))
  {
  }

  // ---------- which local commits are counted ----------

  /** The response makes n - f, but not n, match for a block other than the one being committed, while the
      client already holds local commits: the guard to check before the response is taken in. */
  predicate Turns(s: ClientState, m: SpecResponse) {
    && s.status == Active && s.byzantine && s.invoke.Some? && s.invoke.value.localCommits != {}
    && Position(m.block.requests, s.index, s.requestNum).Some?
    && Position(m.block.requests, s.index, s.requestNum).value < |m.results|
    && |Matching(s.invoke.value.responses[m.replica := m], m)| == s.n - s.f != s.n
    && s.invoke.value.commitDigest != Some(Sha256(m.block))
  }

  predicate Disturbs(s: ClientState, e: Event) {
    e.ResponseArrives? && Turns(s, e.response)
  }

  ghost predicate QuietAt(s: ClientState, events: seq<Event>, i: nat)
    requires Ready(s) && i < |events|
  {
    !Disturbs(After(s, events[..i]), events[i])
  }

  /** No event of the run meets the guard. */
  ghost predicate Undisturbed(s: ClientState, events: seq<Event>)
    requires Ready(s)
  {
    forall i: nat :: i < |events| ==> QuietAt(s, events, i)
  }

  lemma QuietEarlier(s: ClientState, events: seq<Event>, last: nat, i: nat)
    requires Ready(s) && i < last <= |events|
    ensures QuietAt(s, events[..last], i) <==> QuietAt(s, events, i)
  {
    hide Disturbs, After;
    assert events[..last][..i] == events[..i];
  }

  lemma UndisturbedStep(s: ClientState, events: seq<Event>)
    requires Ready(s) && events != []
    ensures
      var last := |events| - 1;
      Undisturbed(s, events) <==> Undisturbed(s, events[..last]) && !Disturbs(After(s, events[..last]), events[last])
  {
    hide Disturbs, After, QuietAt;
    var last := |events| - 1;
    assert QuietAt(s, events, last) <==> !Disturbs(After(s, events[..last]), events[last]) by { LastQuiet(s, events); }
    forall i: nat | i < last ensures QuietAt(s, events[..last], i) <==> QuietAt(s, events, i) {
      QuietEarlier(s, events, last, i);
    }
  }

  lemma LastQuiet(s: ClientState, events: seq<Event>)
    requires Ready(s) && events != []
    ensures
      var last := |events| - 1;
      QuietAt(s, events, last) <==> !Disturbs(After(s, events[..last]), events[last])
  {
  }

  /** The local commits taken for the pending request so far, each for the block the client was
      committing when it arrived. */
  function CountedNext(s: ClientState, counted: set<LocalCommit>, e: Event): set<LocalCommit> {
    match e
    case Invokes(_) => if s.status == Active && s.invoke.None? then {} else counted
    case ResponseArrives(_) => counted
    case LocalCommitArrives(m) =>
      if s.status == Active && s.invoke.Some? && Some(m.digest) == s.invoke.value.commitDigest then counted + {m}
      else counted
  }

  function Counted(s: ClientState, events: seq<Event>): set<LocalCommit>
    requires Ready(s)
  {
    if events == [] then {}
    else CountedNext(After(s, events[..|events| - 1]), Counted(s, events[..|events| - 1]), events[|events| - 1])
  }

  /** Every replica the client holds a local commit of has confirmed the block being committed. */
  ghost predicate HeldAreForTarget(s: ClientState, counted: set<LocalCommit>) {
    s.invoke.Some? ==>
      forall k :: k in s.invoke.value.localCommits ==>
        s.invoke.value.commitDigest.Some? && LocalCommit(s.invoke.value.commitDigest.value, k) in counted
  }

  /** While a request is pending, exactly the held local commits have been taken. */
  ghost predicate Tracks(s: ClientState, counted: set<LocalCommit>) {
    s.invoke.Some? ==>
      && HeldAreForTarget(s, counted)
      && forall m :: m in counted ==>
           m.replica in s.invoke.value.localCommits && Some(m.digest) == s.invoke.value.commitDigest
  }

  /** What a response can change of a pending request: the block being committed, not the local commits. */
  lemma ResponseEffect(s: ClientState, m: SpecResponse)
    requires Ready(s)
    ensures
      var s' := HandleResponse(s, m);
      s'.invoke.Some? ==> s.invoke.Some? && s'.invoke.value.localCommits == s.invoke.value.localCommits
    ensures
      var s' := HandleResponse(s, m);
      s'.invoke.Some? && s'.invoke.value.localCommits != {} ==>
        (s'.invoke.value.commitDigest != s.invoke.value.commitDigest <==> Turns(s, m))
    ensures
      Turns(s, m) ==>
        && s.invoke.Some? && s.invoke.value.localCommits != {} && HandleResponse(s, m).invoke.Some?
        && HandleResponse(s, m).invoke.value.commitDigest.Some?
  {
    hide Position, Matching;
  }

  lemma ResponseTracksIff(s: ClientState, counted: set<LocalCommit>, m: SpecResponse)
    requires Ready(s) && Tracks(s, counted)
    ensures HeldAreForTarget(HandleResponse(s, m), counted) <==> !Disturbs(s, ResponseArrives(m))
    ensures !Disturbs(s, ResponseArrives(m)) ==> Tracks(HandleResponse(s, m), counted)
  {
    hide HandleResponse, Turns;
    ResponseEffect(s, m);
    var s' := HandleResponse(s, m);
    if s'.invoke.Some? && s.invoke.value.localCommits != {} {
      var k :| k in s.invoke.value.localCommits;
    }
  }

  lemma LocalCommitTracks(s: ClientState, counted: set<LocalCommit>, m: LocalCommit)
    requires Ready(s) && Tracks(s, counted)
    ensures Tracks(HandleLocalCommit(s, m), CountedNext(s, counted, LocalCommitArrives(m)))
  {
  }

  /** One message keeps the held local commits those of the block being committed exactly when the client
      does not turn to another block while holding some. */
  lemma StepTracksIff(s: ClientState, counted: set<LocalCommit>, e: Event)
    requires Ready(s) && Tracks(s, counted)
    ensures HeldAreForTarget(Handled(s, e), CountedNext(s, counted, e)) <==> !Disturbs(s, e)
    ensures !Disturbs(s, e) ==> Tracks(Handled(s, e), CountedNext(s, counted, e))
  {
    hide HandleResponse, HandleLocalCommit, Turns;
    match e
    case Invokes(op) =>
    case ResponseArrives(m) => ResponseTracksIff(s, counted, m);
    case LocalCommitArrives(m) => LocalCommitTracks(s, counted, m);
  }

  lemma {:induction false} UndisturbedTracks(s: ClientState, events: seq<Event>)
    requires Ready(s) && s.invoke.None? && Undisturbed(s, events)
    ensures Tracks(After(s, events), Counted(s, events))
    decreases |events|
  {
    hide Undisturbed;
    if events != [] {
      var last := |events| - 1;
      UndisturbedStep(s, events);
      UndisturbedTracks(s, events[..last]);
      StepTracksIff(After(s, events[..last]), Counted(s, events[..last]), events[last]);
    }
  }

  ghost predicate HeldAt(s: ClientState, events: seq<Event>)
    requires Ready(s)
  {
    HeldAreForTarget(After(s, events), Counted(s, events))
  }

  /** Throughout a run, the local commits held are for the block being committed. */
  ghost predicate HeldThroughout(s: ClientState, events: seq<Event>)
    requires Ready(s)
  {
    forall i :: 0 <= i <= |events| ==> HeldAt(s, events[..i])
  }

  lemma HeldStep(s: ClientState, events: seq<Event>)
    requires Ready(s) && events != []
    ensures
      var last := |events| - 1;
      HeldThroughout(s, events) <==> HeldThroughout(s, events[..last]) && HeldAt(s, events)
  {
    hide HeldAt;
    var last := |events| - 1;
    assert events[..|events|] == events;
    forall i | 0 <= i <= last ensures HeldAt(s, events[..last][..i]) <==> HeldAt(s, events[..i]) {
      assert events[..last][..i] == events[..i];
    }
  }

  /** Exactly when the commit path counts only local commits of the block it completes: throughout a run,
      the ones held are for the block being committed if and only if no response meets the guard. */
  lemma {:induction false} CountsRightIff(s: ClientState, events: seq<Event>)
    requires Ready(s) && s.invoke.None?
    ensures HeldThroughout(s, events) <==> Undisturbed(s, events)
    decreases |events|
  {
    hide Undisturbed, HeldThroughout;
    if events == [] {
      assert HeldThroughout(s, events) && Undisturbed(s, events) by { StartsRight(s); }
    } else {
      var last := |events| - 1;
      CountsRightIff(s, events[..last]);
      HeldStep(s, events);
      UndisturbedStep(s, events);
      if Undisturbed(s, events[..last]) {
        UndisturbedTracks(s, events[..last]);
        StepTracksIff(After(s, events[..last]), Counted(s, events[..last]), events[last]);
      }
    }
  }

  lemma StartsRight(s: ClientState)
    requires Ready(s) && s.invoke.None?
    ensures HeldThroughout(s, []) && Undisturbed(s, [])
  {
  }

  // ---------- what an undisturbed run guarantees ----------

  ghost predicate CountedSaid(c: Config, saidCommits: set<LocalCommit>, counted: set<LocalCommit>) {
    forall m :: m in counted && m.replica !in c.faulty ==> m in saidCommits
  }

  lemma {:induction false} CountedAreSaid(
      c: Config, said: set<SpecResponse>, saidCommits: set<LocalCommit>, s: ClientState, events: seq<Event>)
    requires Ready(s) && GenuineEvents(c, said, saidCommits, events)
    ensures CountedSaid(c, saidCommits, Counted(s, events))
    decreases |events|
  {
    if events != [] {
      var last := |events| - 1;
      assert forall e :: e in events[..last] ==> e in events;
      CountedAreSaid(c, said, saidCommits, s, events[..last]);
      assert Genuine(c, said, saidCommits, events[last]);
    }
  }

  ghost predicate Confirmed(c: Config, saidCommits: set<LocalCommit>, done: Completion) {
    done.path == Slow ==> |Confirmers(saidCommits, done.digest)| + |c.faulty| >= c.n - c.f
  }

  lemma HeldAreConfirmers(
      c: Config, saidCommits: set<LocalCommit>, counted: set<LocalCommit>, held: set<ReplicaIndex>, m: LocalCommit)
    requires CountedSaid(c, saidCommits, counted) && m in counted
    requires forall k :: k in held ==> LocalCommit(m.digest, k) in counted
    ensures |Confirmers(saidCommits, m.digest)| + |c.faulty| >= |held + {m.replica}|
  {
    forall k | k in held + {m.replica} ensures k in Confirmers(saidCommits, m.digest) + c.faulty {
      if k !in c.faulty {
        assert LocalCommit(m.digest, k) in saidCommits;
      }
    }
    SubsetSize(held + {m.replica}, Confirmers(saidCommits, m.digest) + c.faulty);
  }

  /** In an undisturbed run every request completed on the commit path was confirmed, for the completed
      block, by n - f replicas of which at most f are faulty. */
  lemma {:induction false} SlowPathIsConfirmed(
      c: Config, said: set<SpecResponse>, saidCommits: set<LocalCommit>, client: ClientIndex, byzantine: bool,
      events: seq<Event>)
    requires ValidConfig(c) && GenuineEvents(c, said, saidCommits, events)
    requires Undisturbed(InitClient(c.n, c.f, client, byzantine), events)
    ensures
      var s := After(InitClient(c.n, c.f, client, byzantine), events);
      forall i :: 0 <= i < |s.completed| ==> Confirmed(c, saidCommits, s.completed[i])
    decreases |events|
  {
    hide Confirmed, CountedSaid, HandleResponse, Undisturbed;
    var init := InitClient(c.n, c.f, client, byzantine);
    if events != [] {
      var last := |events| - 1;
      assert forall e :: e in events[..last] ==> e in events;
      UndisturbedStep(init, events);
      SlowPathIsConfirmed(c, said, saidCommits, client, byzantine, events[..last]);
      StepConfirmed(c, said, saidCommits, init, events);
    }
  }

  lemma StepConfirmed(
      c: Config, said: set<SpecResponse>, saidCommits: set<LocalCommit>, init: ClientState, events: seq<Event>)
    requires ValidConfig(c) && GenuineEvents(c, said, saidCommits, events) && events != []
    requires Ready(init) && init.n == c.n && init.f == c.f && init.invoke.None? && Undisturbed(init, events)
    ensures
      var s, s' := After(init, events[..|events| - 1]), After(init, events);
      && s.completed <= s'.completed
      && forall i :: |s.completed| <= i < |s'.completed| ==> Confirmed(c, saidCommits, s'.completed[i])
  {
    hide CountedSaid, Undisturbed;
    var last := |events| - 1;
    var s, e := After(init, events[..last]), events[last];
    UndisturbedStep(init, events);
    UndisturbedTracks(init, events[..last]);
    CountedAreSaid(c, said, saidCommits, init, events);
    if e.LocalCommitArrives? && |Handled(s, e).completed| > |s.completed| {
      HeldAreConfirmers(c, saidCommits, Counted(init, events), s.invoke.value.localCommits, e.localCommit);
    }
  }

  // ---------- when runs are undisturbed ----------

  /** Correct replicas answer every request in one block only: the primary ordered it once. */
  ghost predicate OrderedOnce(said: set<SpecResponse>, client: ClientIndex) {
    forall m, m', num :: m in said && m' in said
      && Position(m.block.requests, client, num).Some? && Position(m'.block.requests, client, num).Some?
      ==> m.block == m'.block
  }

  lemma ProducedBlock(
      c: Config, said: set<SpecResponse>, client: ClientIndex, num: nat, digest: Digest, result: Result)
    returns (m: SpecResponse)
    requires ValidConfig(c) && Produced(c, said, c.n - c.f, client, num, digest, result)
    ensures m in said && digest == Sha256(m.block) && Position(m.block.requests, client, num).Some?
  {
    var m0 :| ProducedIn(client, num, digest, result, m0) && |Responders(said, m0.block, m0.results)| + |c.faulty| >= c.n - c.f;
    var r :| r in Responders(said, m0.block, m0.results);
    m :| m in said && m.block == m0.block && m.results == m0.results && m.replica == r;
  }

  /** The request is in one block only, so there is no other block to turn to. */
  lemma NothingToTurnTo(
      c: Config, said: set<SpecResponse>, s: ClientState, counted: set<LocalCommit>, m: SpecResponse)
    requires ValidConfig(c) && OrderedOnce(said, s.index) && Ready(s) && Tracks(s, counted)
    requires ClientInv(c, said, s) && ClientInv(c, said, HandleResponse(s, m))
    ensures !Turns(s, m)
  {
    hide HandleResponse, OrderedOnce, Produced, Turns;
    if Turns(s, m) {
      ResponseEffect(s, m);
      ResponseTarget(s, m);
      var s' := HandleResponse(s, m);
      var k :| k in s.invoke.value.localCommits;
      assert PendingOk(c, said, s.index, s.requestNum, s.invoke.value);
      assert PendingOk(c, said, s.index, s.requestNum, s'.invoke.value);
      var m0 := ProducedBlock(c, said, s.index, s.requestNum, s.invoke.value.commitDigest.value,
                              s.invoke.value.commitResult.value);
      var m1 := ProducedBlock(c, said, s.index, s.requestNum, s'.invoke.value.commitDigest.value,
                              s'.invoke.value.commitResult.value);
      SameBlock(said, s.index, m0, m1, s.requestNum);
      assert false;
    }
  }

  lemma {:induction false} OrderedOnceIsUndisturbed(
      c: Config, said: set<SpecResponse>, saidCommits: set<LocalCommit>, client: ClientIndex, byzantine: bool,
      events: seq<Event>)
    requires ValidConfig(c) && GenuineEvents(c, said, saidCommits, events) && OrderedOnce(said, client)
    ensures Undisturbed(InitClient(c.n, c.f, client, byzantine), events)
    decreases |events|
  {
    hide HandleResponse, OrderedOnce, GenuineEvents, ClientInv, Undisturbed, Turns;
    var init := InitClient(c.n, c.f, client, byzantine);
    if events == [] {
      StartsRight(init);
    } else {
      var last := |events| - 1;
      GenuinePrefix(c, said, saidCommits, events);
      OrderedOnceIsUndisturbed(c, said, saidCommits, client, byzantine, events[..last]);
      AcceptsOnlyProducedResults(c, said, saidCommits, client, byzantine, events[..last]);
      AcceptsOnlyProducedResults(c, said, saidCommits, client, byzantine, events);
      UndisturbedTracks(init, events[..last]);
      UndisturbedStep(init, events);
      if events[last].ResponseArrives? {
        NothingToTurnTo(c, said, After(init, events[..last]), Counted(init, events[..last]), events[last].response);
      }
    }
  }

  lemma SameBlock(said: set<SpecResponse>, client: ClientIndex, m: SpecResponse, m': SpecResponse, num: nat)
    requires OrderedOnce(said, client) && m in said && m' in said
    requires Position(m.block.requests, client, num).Some? && Position(m'.block.requests, client, num).Some?
    ensures m.block == m'.block
  {
  }

  lemma GenuinePrefix(c: Config, said: set<SpecResponse>, saidCommits: set<LocalCommit>, events: seq<Event>)
    requires GenuineEvents(c, said, saidCommits, events) && events != []
    ensures GenuineEvents(c, said, saidCommits, events[..|events| - 1])
  {
    assert forall e :: e in events[..|events| - 1] ==> e in events;
  }

  lemma ResponseTarget(s: ClientState, m: SpecResponse)
    requires Ready(s) && s.invoke.Some?
    ensures
      var s' := HandleResponse(s, m);
      && s'.requestNum == s.requestNum && s'.index == s.index
      && (s'.invoke.Some? && s.invoke.value.commitDigest.Some? ==> s'.invoke.value.commitDigest.Some?)
  {
    hide Position, Matching;
  }
}
