/** The Zyzzyva client: the fast path on n matching responses and the commit path on n - f matching
    responses followed by n - f local commits. */
module ZyzzyvaClient {
  import opened Blocks
  import opened Zyzzyva

  datatype ClientStatus = Active | InvokedTwice | ResultMissing

  datatype Invoke = Invoke(
    op: Op,
    responses: map<ReplicaIndex, SpecResponse>,
    commitDigest: Option<Digest>,
    commitResult: Option<Result>,
    localCommits: set<ReplicaIndex>)

  datatype Path = Fast | Slow

  datatype Completion = Completion(num: nat, result: Result, digest: Digest, path: Path)

  /** The `sent` fields and `completed` record, in order, the requests and commits sent and what was
      handed to the caller. */
  datatype ClientState = ClientState(
    n: nat,
    f: nat,
    index: ClientIndex,
    byzantine: bool,
    requestNum: nat,
    invoke: Option<Invoke>,
    status: ClientStatus,
    sent: seq<(nat, Op)>,
    sentCommits: seq<Commit>,
    completed: seq<Completion>)

  function InitClient(n: nat, f: nat, index: ClientIndex, byzantine: bool): ClientState {
    ClientState(n, f, index, byzantine, 0, None, Active, [], [], [])
  }

  /** A digest to commit and its result are always set together. */
  predicate Paired(s: ClientState) {
    s.invoke.Some? ==> s.invoke.value.commitDigest.Some? == s.invoke.value.commitResult.Some?
  }

  predicate IsOwn(request: Request, client: ClientIndex, num: nat) {
    request.client == client && request.num == num
  }

  /** The position of the first request with this client and number. */
  function Position(requests: seq<Request>, client: ClientIndex, num: nat): (r: Option<nat>)
    ensures r.Some? ==>
              && r.value < |requests| && IsOwn(requests[r.value], client, num)
              && forall j :: 0 <= j < r.value ==> !IsOwn(requests[j], client, num)
    ensures r.None? ==> forall j :: 0 <= j < |requests| ==> !IsOwn(requests[j], client, num)
  {
    if requests == [] then None
    else if IsOwn(requests[0], client, num) then Some(0)
    else
      match Position(requests[1..], client, num)
      case Some(j) => Some(j + 1)
      case None => None
  }

  function Matching(responses: map<ReplicaIndex, SpecResponse>, m: SpecResponse): set<ReplicaIndex> {
    set k | k in responses && Sha256(responses[k].block) == Sha256(m.block) && responses[k].results == m.results
  }

  function StartInvoke(s: ClientState, op: Op): ClientState {
    if s.status != Active then s
    else if s.invoke.Some? then s.(status := InvokedTwice)
    else s.(requestNum := s.requestNum + 1,
            invoke := Some(Invoke(op, map[], None, None, {})),
            sent := s.sent + [(s.requestNum + 1, op)])
  }

  function HandleResponse(s: ClientState, m: SpecResponse): (r: ClientState)
    requires s.n >= s.f && Paired(s)
    ensures Paired(r)
  {
    if s.status != Active || s.invoke.None? || Position(m.block.requests, s.index, s.requestNum).None? then s
    else
      var i := Position(m.block.requests, s.index, s.requestNum).value;
      if i >= |m.results| then s.(status := ResultMissing)
      else
        var responses := s.invoke.value.responses[m.replica := m];
        var matching := Matching(responses, m);
        var digest := Sha256(m.block);
        if |matching| == s.n then
          s.(invoke := None, completed := s.completed + [Completion(s.requestNum, m.results[i], digest, Fast)])
        else if s.byzantine && |matching| == s.n - s.f then
          var commit := Commit(s.index, digest, set k | k in matching :: responses[k]);
          s.(invoke := Some(s.invoke.value.(responses := responses, commitDigest := Some(digest),
                                            commitResult := Some(m.results[i]))),
             sentCommits := s.sentCommits + [commit])
        else
          s.(invoke := Some(s.invoke.value.(responses := responses)))
  }

  function HandleLocalCommit(s: ClientState, m: LocalCommit): (r: ClientState)
    requires s.n >= s.f && Paired(s)
    ensures Paired(r)
  {
    if s.status != Active || s.invoke.None? || Some(m.digest) != s.invoke.value.commitDigest then s
    else
      var localCommits := s.invoke.value.localCommits + {m.replica};
      if |localCommits| == s.n - s.f then
        s.(invoke := None,
           completed := s.completed + [Completion(s.requestNum, s.invoke.value.commitResult.value, m.digest, Slow)])
      else
        s.(invoke := Some(s.invoke.value.(localCommits := localCommits)))
  }

  class Client {
    const n: nat
    const f: nat
    const index: ClientIndex
    const byzantine: bool
    var requestNum: nat
    var invoke: Option<Invoke>
    var status: ClientStatus
    var sent: seq<(nat, Op)>
    var sentCommits: seq<Commit>
    var completed: seq<Completion>

    ghost function Value(): ClientState
      reads this
    {
      ClientState(n, f, index, byzantine, requestNum, invoke, status, sent, sentCommits, completed)
    }

    ghost predicate Valid()
      reads this
    {
      n >= f && Paired(Value())
    }

    constructor (n: nat, f: nat, index: ClientIndex, byzantine: bool)
      requires n >= f
      ensures Valid() && Value() == InitClient(n, f, index, byzantine)
    {
      this.n, this.f, this.index, this.byzantine := n, f, index, byzantine;
      requestNum, invoke, status, sent, sentCommits, completed := 0, None, Active, [], [], [];
    }

    method DoInvoke(op: Op)
      requires Valid()
      modifies this
      ensures Valid() && Value() == StartInvoke(old(Value()), op)
    {
      if status != Active {
        return;
      }
      if invoke.Some? {
        status := InvokedTwice;
        return;
      }
      requestNum := requestNum + 1;
      invoke := Some(Invoke(op, map[], None, None, {}));
      sent := sent + [(requestNum, op)];
    }

    method DoHandleResponse(m: SpecResponse)
      requires Valid()
      modifies this
      ensures Valid() && Value() == HandleResponse(old(Value()), m)
    {
      if status != Active || invoke.None? {
        return;
      }
      var position := FindRequest(m.block.requests, index, requestNum);
      if position.None? {
        return;
      }
      if position.value >= |m.results| {
        status := ResultMissing;
        return;
      }
      var result := m.results[position.value];
      var responses := invoke.value.responses[m.replica := m];
      var matching := Matching(responses, m);
      if |matching| == n {
        invoke := None;
        completed := completed + [Completion(requestNum, result, Sha256(m.block), Fast)];
      } else if byzantine && |matching| == n - f {
        var digest := Sha256(m.block);
        invoke := Some(invoke.value.(responses := responses, commitDigest := Some(digest), commitResult := Some(result)));
        sentCommits := sentCommits + [Commit(index, digest, set k | k in matching :: responses[k])];
      } else {
        invoke := Some(invoke.value.(responses := responses));
      }
    }

    method DoHandleLocalCommit(m: LocalCommit)
      requires Valid()
      modifies this
      ensures Valid() && Value() == HandleLocalCommit(old(Value()), m)
    {
      if status != Active || invoke.None? || Some(m.digest) != invoke.value.commitDigest {
        return;
      }
      var localCommits := invoke.value.localCommits + {m.replica};
      if |localCommits| == n - f {
        completed := completed + [Completion(requestNum, invoke.value.commitResult.value, m.digest, Slow)];
        invoke := None;
      } else {
        invoke := Some(invoke.value.(localCommits := localCommits));
      }
    }
  }

  method FindRequest(requests: seq<Request>, client: ClientIndex, num: nat) returns (position: Option<nat>)
    ensures position == Position(requests, client, num)
  {
    for i := 0 to |requests|
      invariant forall j :: 0 <= j < i ==> !IsOwn(requests[j], client, num)
    {
      if IsOwn(requests[i], client, num) {
        return Some(i);
      }
    }
    position := None;
  }
}
