/** The Neo replica in the form of the source: fields that the handlers update in place, proved
    method by method to compute the functions of module Neo. */
module NeoReplica {
  import opened Blocks
  import opened Quorums
  import opened Multicast
  import opened Neo
  import Spec = Neo

  class Replica {
    const n: nat
    const f: nat
    const index: ReplicaIndex
    var seqNumOffset: Option<nat>
    var reorderingRequests: map<nat, Message>
    var requests: seq<Message>
    var orderedNum: nat
    var verifiedNum: nat
    var replies: map<ClientIndex, Reply>
    var app: App
    const confirm: bool
    var confirmedNum: nat
    var localConfirmedNum: nat
    var remoteConfirmedNums: map<ReplicaIndex, nat>
    var reorderingConfirms1: map<nat, seq<Confirm>>
    var reorderingConfirms2: map<(ReplicaIndex, nat), Confirm>
    var status: Status
    ghost var committed: seq<nat>
    var sentReplies: seq<(ClientIndex, Reply)>
    var sentConfirms: seq<Confirm>
    var sentQueries: seq<Query>
    var sentQueryOks: seq<(ReplicaIndex, QueryOk)>

    ghost function Value(): State
      reads this
    {
      State(n, f, index, seqNumOffset, reorderingRequests, requests, orderedNum, verifiedNum, replies, app, confirm,
            confirmedNum, localConfirmedNum, remoteConfirmedNums, reorderingConfirms1, reorderingConfirms2,
            status, committed, sentReplies, sentConfirms, sentQueries, sentQueryOks)
    }

    ghost predicate Valid()
      reads this
    {
      WellFormed(Value())
    }

    constructor (n: nat, f: nat, index: ReplicaIndex, confirm: bool)
      requires f < n && index < n
      ensures Valid() && Value() == Init(n, f, index, confirm)
    {
      this.n, this.f, this.index, this.confirm := n, f, index, confirm;
      seqNumOffset, reorderingRequests, requests, orderedNum, verifiedNum := None, map[], [], 0, 0;
      replies, app, confirmedNum, localConfirmedNum := map[], [], 0, 0;
      remoteConfirmedNums := if confirm then map i | i in Replicas(n) :: 0 else map[];
      reorderingConfirms1, reorderingConfirms2, status, committed := map[], map[], Running, [];
      sentReplies, sentConfirms, sentQueries, sentQueryOks := [], [], [], [];
    }

    method HandleRequest(message: Message)
      requires Valid()
      modifies this
      ensures Valid() && Value() == Spec.HandleRequest(old(Value()), message)
    {
      hide OrderRequest, BuffersOk, OwnConfirms;
      if status.Panicked? {
        return;
      }
      if seqNumOffset.None? {
        seqNumOffset := Some(message.seqNum);
      }
      var opNum := OpNum(message.seqNum, seqNumOffset.value);
      if opNum < orderedNum + 1 {
        return;
      }
      if opNum != orderedNum + 1 {
        reorderingRequests := reorderingRequests[opNum := message];
        if |reorderingRequests| >= QUERY_THRESHOLD + 1000 {
          status := Panicked(TooManyReordered);
        } else if |reorderingRequests| == QUERY_THRESHOLD {
          DoQuery();
        }
        return;
      }
      DoOrder(message);
    }

    /** The rest of `handle_request`, for the message that comes next. */
    method DoOrder(message: Message)
      requires Valid()
      modifies this
      ensures Valid() && Value() == OrderRequest(old(Value()), message)
    {
      hide Reach, DrainRequests, BuffersOk, OwnConfirms;
      var newVerifiedNum := DoExtend(message);
      ghost var start := Value();
      LongerLog(old(Value()), start);
      var done := verifiedNum;
      for opNum := done + 1 to newVerifiedNum + 1
        invariant Valid() && newVerifiedNum <= start.orderedNum
        invariant Value() == ReachRange(start, done, opNum - 1)
      {
        DoReach(opNum);
      }
      verifiedNum := newVerifiedNum;
    }

    /** Pushes a message and everything buffered that follows it. */
    method DoExtend(message: Message) returns (newVerifiedNum: nat)
      requires Valid()
      modifies `orderedNum, `requests, `reorderingRequests
      ensures
        var o := DrainRequests(Push(OrderingOf(old(Value())), message));
        Value() == WithLog(old(Value()), o) && newVerifiedNum == o.verifiedNum
    {
      hide DrainRequests, BuffersOk, OwnConfirms;
      newVerifiedNum := verifiedNum;
      orderedNum := orderedNum + 1;
      if message.Verified() {
        newVerifiedNum := orderedNum;
      }
      requests := requests + [message];
      newVerifiedNum := DoDrainRequests(newVerifiedNum);
    }

    /** The loop of `handle_request` over the reorder buffer. */
    method DoDrainRequests(verified: nat) returns (newVerifiedNum: nat)
      requires orderedNum == |requests| && verified <= orderedNum
      modifies `orderedNum, `requests, `reorderingRequests
      ensures
        var o := DrainRequests(Ordering(old(requests), old(reorderingRequests), verified));
        && requests == o.log && orderedNum == |o.log| && reorderingRequests == o.buffered
        && newVerifiedNum == o.verifiedNum
    {
      newVerifiedNum := verified;
      ghost var end := DrainRequests(Ordering(requests, reorderingRequests, verified));
      while orderedNum + 1 in reorderingRequests
        invariant orderedNum == |requests| && newVerifiedNum <= orderedNum
        invariant DrainRequests(Ordering(requests, reorderingRequests, newVerifiedNum)) == end
        decreases |reorderingRequests|
      {
        FewerRequests(reorderingRequests, orderedNum + 1);
        var request := reorderingRequests[orderedNum + 1];
        reorderingRequests := reorderingRequests - {orderedNum + 1};
        orderedNum := orderedNum + 1;
        if request.Verified() {
          newVerifiedNum := orderedNum;
        }
        requests := requests + [request];
      }
    }

    method DoReach(opNum: nat)
      requires Valid() && 0 < opNum <= orderedNum
      modifies this
      ensures Valid() && Value() == Reach(old(Value()), opNum)
    {
      if status.Panicked? {
        return;
      }
      if !confirm {
        DoCommit(opNum);
      } else if opNum in reorderingConfirms1 {
        WithoutConfirms(Value(), opNum);
        var confirms := reorderingConfirms1[opNum];
        reorderingConfirms1 := reorderingConfirms1 - {opNum};
        ghost var end := ConfirmAll(Value(), confirms);
        for i := 0 to |confirms|
          invariant Valid() && orderedNum == old(orderedNum)
          invariant ConfirmAll(Value(), confirms[i..]) == end
        {
          assert confirms[i..][0] == confirms[i] && confirms[i..][1..] == confirms[i + 1..];
          DoConfirm1(confirms[i]);
        }
      }
    }

    method HandleConfirm(message: Confirm)
      requires Valid()
      modifies this
      ensures Valid() && Value() == Spec.HandleConfirm(old(Value()), message)
    {
      if status.Panicked? {
        return;
      }
      if !confirm {
        status := Panicked(NotConfirming);
        return;
      }
      if message.end > orderedNum {
        BufferConfirm(Value(), message);
        var waiting := if message.end in reorderingConfirms1 then reorderingConfirms1[message.end] else [];
        reorderingConfirms1 := reorderingConfirms1[message.end := waiting + [message]];
        return;
      }
      DoConfirm1(message);
    }

    method HandleLoopback(message: Confirm)
      requires Valid() && message in sentConfirms
      modifies this
      ensures Valid() && Value() == Spec.HandleLoopback(old(Value()), message)
    {
      if status.Panicked? {
        return;
      }
      var evicted := remoteConfirmedNums[index];
      remoteConfirmedNums := remoteConfirmedNums[index := message.end];
      if evicted + 1 != message.start {
        status := Panicked(OwnConfirmSkips);
        return;
      }
      DoUpdateConfirmNum();
    }

    method HandleQuery(message: Query)
      requires Valid()
      modifies this
      ensures Valid() && Value() == Spec.HandleQuery(old(Value()), message)
    {
      if status.Panicked? {
        return;
      }
      if message.opNum == 0 {
        status := Panicked(RangeOutOfLog);
        return;
      }
      var request: Message;
      if message.opNum <= orderedNum {
        request := requests[message.opNum - 1];
      } else if message.opNum in reorderingRequests {
        request := reorderingRequests[message.opNum];
      } else {
        return;
      }
      if request.signature.K256Unverified? {
        request := request.(signature := K256(request.signature.signature));
      }
      sentQueryOks := sentQueryOks + [(message.replica, QueryOk(message.opNum, request))];
    }

    method HandleQueryOk(message: QueryOk)
      requires Valid()
      modifies this
      ensures Valid() && Value() == Spec.HandleQueryOk(old(Value()), message)
    {
      if status.Running? && message.opNum == orderedNum + 1 {
        HandleRequest(message.request);
        if status.Running? && |reorderingRequests| >= QUERY_THRESHOLD {
          DoQuery();
        }
      }
    }

    method OnPace()
      requires Valid()
      modifies this
      ensures Valid() && Value() == Spec.OnPace(old(Value()))
    {
      if status.Running? && confirm {
        DoSendConfirm();
      }
    }

    method DoCommit(opNum: nat)
      requires 0 < opNum <= |requests|
      modifies `app, `committed, `sentReplies
      ensures Value() == Spec.DoCommit(old(Value()), opNum)
    {
      committed := committed + [opNum];
      var request := requests[opNum - 1];
      var client := request.inner.client;
      if client in replies {
        if replies[client].requestNum > request.inner.num {
          return;
        }
        if replies[client].requestNum == request.inner.num {
          sentReplies := sentReplies + [(client, replies[client])];
          return;
        }
      }
      var (app', result) := Execute(app, request.inner.op);
      app := app';
      sentReplies := sentReplies + [(client, Reply(request.inner.num, result, 0, request.seqNum, index))];
    }

    method DoSendConfirm()
      requires Valid() && confirm
      modifies `sentConfirms, `localConfirmedNum
      ensures Valid() && Value() == Spec.DoSendConfirm(old(Value()))
    {
      if localConfirmedNum + 1 <= orderedNum && localConfirmedNum + 1 == remoteConfirmedNums[index] + 1 {
        assert requests[localConfirmedNum..orderedNum] == requests[localConfirmedNum..];
        var digest := DoDigest(localConfirmedNum + 1, orderedNum);
        sentConfirms := sentConfirms + [Confirm(digest, localConfirmedNum + 1, orderedNum, index)];
        localConfirmedNum := orderedNum;
      }
    }

    /** The digest of a slice of the log, request by request. */
    method DoDigest(start: nat, end: nat) returns (digest: seq<Request>)
      requires 0 < start && start - 1 <= end <= |requests|
      ensures digest == Inner(requests[start - 1..end])
    {
      digest := [];
      for i := start - 1 to end
        invariant digest == Inner(requests[start - 1..i])
      {
        digest := digest + [requests[i].inner];
      }
    }

    method DoConfirm1(message: Confirm)
      requires Valid() && confirm && message.end <= orderedNum
      modifies this
      ensures Valid() && Value() == Spec.DoConfirm1(old(Value()), message)
    {
      if status.Panicked? {
        return;
      }
      if message.replica !in remoteConfirmedNums {
        status := Panicked(UnknownReplica);
        return;
      }
      var remoteNum := remoteConfirmedNums[message.replica];
      if message.start <= remoteNum {
        status := Panicked(ConfirmRepeats);
        return;
      }
      if message.start != remoteNum + 1 {
        BufferEarlyConfirm(Value(), message);
        reorderingConfirms2 := reorderingConfirms2[(message.replica, message.start) := message];
        return;
      }
      DoConfirm2(message);
      DoDrainConfirms(message.replica);
    }

    /** The loop of `do_confirm1`. */
    method DoDrainConfirms(i: ReplicaIndex)
      requires Valid() && confirm && i in remoteConfirmedNums
      modifies this
      ensures Valid() && Value() == DrainConfirms(old(Value()), i)
    {
      hide WellFormed, Spec.DoConfirm2;
      while status.Running? && (i, remoteConfirmedNums[i] + 1) in reorderingConfirms2
        invariant Valid() && i in remoteConfirmedNums
        invariant DrainConfirms(Value(), i) == DrainConfirms(old(Value()), i)
        decreases |reorderingConfirms2|
      {
        var key := (i, remoteConfirmedNums[i] + 1);
        WithoutEarlyConfirm(Value(), key);
        var next := reorderingConfirms2[key];
        reorderingConfirms2 := reorderingConfirms2 - {key};
        DoConfirm2(next);
      }
    }

    method DoConfirm2(message: Confirm)
      requires Valid() && confirm && message.replica in remoteConfirmedNums
      modifies `remoteConfirmedNums, `confirmedNum, `app, `committed, `sentReplies, `status
      ensures Valid() && Value() == Spec.DoConfirm2(old(Value()), message)
    {
      if !RangeInLog(message, |requests|) {
        status := Panicked(RangeOutOfLog);
        return;
      }
      var localDigest := DoDigest(message.start, message.end);
      if localDigest != message.digest {
        status := Panicked(DigestMismatch);
        return;
      }
      remoteConfirmedNums := remoteConfirmedNums[message.replica := message.end];
      DoUpdateConfirmNum();
    }

    method DoUpdateConfirmNum()
      requires Valid() && confirm
      modifies `confirmedNum, `app, `committed, `sentReplies, `status
      ensures Valid() && Value() == UpdateConfirmNum(old(Value()))
    {
      hide SortUnstable, Values, CommitRange, BuffersOk, OwnConfirms;
      ConfirmedOfBounded(remoteConfirmedNums, n, f, orderedNum);
      var confirmedNums := SortUnstable(Values(remoteConfirmedNums, n));
      var newConfirmedNum := confirmedNums[f];
      if newConfirmedNum < confirmedNum {
        status := Panicked(ConfirmGoesBack);
        return;
      }
      DoCommitRange(confirmedNum, newConfirmedNum);
      confirmedNum := newConfirmedNum;
    }

    /** The loop of `do_update_confirm_num`. */
    method DoCommitRange(done: nat, upTo: nat)
      requires done <= upTo <= |requests|
      modifies `app, `committed, `sentReplies
      ensures Value() == CommitRange(old(Value()), done, upTo)
    {
      hide Spec.DoCommit;
      for opNum := done + 1 to upTo + 1
        invariant Value() == CommitRange(old(Value()), done, opNum - 1)
      {
        DoCommit(opNum);
      }
    }

    method DoQuery()
      modifies `sentQueries
      ensures Value() == Spec.DoQuery(old(Value()))
    {
      sentQueries := sentQueries + [Query(orderedNum + 1, index)];
    }
  }
}
