/** The order in which a delegate passes messages on, and what it keeps of them. */
module DelegateOrder {
  // A receiver of signed packets gets the signed messages in the order they were taken in, each with its number, link,
  // payload and signature, and the linked ones at once. A receiver of group packets gets those of its own group.

  import opened Blocks
  import opened Multicast
  import opened Wire
  import opened Sequencing
  import opened SequencerStream
  import opened Delegates

  // ---------- signed packets ----------

  predicate IsSigned<M>(d: Delivery<M>) {
    d.message.signature.K256? || d.message.signature.K256Unverified?
  }

  function SignedOf<M>(ds: seq<Delivery<M>>): seq<Delivery<M>> {
    if ds == [] then [] else SignedOf(ds[..|ds| - 1]) + if IsSigned(ds[|ds| - 1]) then [ds[|ds| - 1]] else []
  }

  function LinkedOf<M>(ds: seq<Delivery<M>>): seq<Delivery<M>> {
    if ds == [] then [] else LinkedOf(ds[..|ds| - 1]) + if IsSigned(ds[|ds| - 1]) then [] else [ds[|ds| - 1]]
  }

  lemma SignedOfMore<M>(ds: seq<Delivery<M>>, more: Option<Delivery<M>>)
    ensures SignedOf(ds + AsSeq(more))
              == if more.Some? && IsSigned(more.value) then SignedOf(ds) + [more.value] else SignedOf(ds)
    ensures LinkedOf(ds + AsSeq(more))
              == if more.Some? && !IsSigned(more.value) then LinkedOf(ds) + [more.value] else LinkedOf(ds)
  {
    if more.Some? {
      assert (ds + AsSeq(more))[..|ds|] == ds;
    } else {
      assert ds + AsSeq(more) == ds;
    }
  }

  /** The same message from the same sender; a signature may be marked as one still to check. */
  ghost predicate SameSigned<M>(passed: Delivery<M>, taken: Delivery<M>) {
    && passed.remote == taken.remote
    && passed.message.seqNum == taken.message.seqNum && passed.message.linked == taken.message.linked
    && passed.message.inner == taken.message.inner
    && taken.message.signature.K256?
    && (passed == taken || passed.message.signature == K256Unverified(taken.message.signature.signature))
  }

  ghost predicate PassedAt<M>(passed: seq<Delivery<M>>, taken: seq<Delivery<M>>, i: nat)
    requires i < |passed| && i < |taken|
  {
    SameSigned(passed[i], taken[i])
  }

  /** The signed messages passed on are the first ones taken in, in order; the one held is the next and last. */
  ghost predicate InOrder<M>(passed: seq<Delivery<M>>, saved: Option<Delivery<M>>, taken: seq<Delivery<M>>) {
    && |passed| + |AsSeq(saved)| == |taken|
    && (saved.Some? ==> saved.value == taken[|passed|] && saved.value.message.signature.K256?)
    && forall i: nat {:trigger PassedAt(passed, taken, i)} :: i < |passed| ==> PassedAt(passed, taken, i)
  }

  lemma OneMorePassed<M>(passed: seq<Delivery<M>>, saved: Delivery<M>, taken: seq<Delivery<M>>, p: Delivery<M>)
    requires InOrder(passed, Some(saved), taken) && SameSigned(p, saved)
    ensures InOrder(passed + [p], None, taken)
  {
    forall i: nat | i < |passed| + 1 ensures PassedAt(passed + [p], taken, i) {
      assert i < |passed| ==> PassedAt(passed, taken, i);
    }
  }

  lemma OneMoreTaken<M>(passed: seq<Delivery<M>>, taken: seq<Delivery<M>>, d: Delivery<M>)
    requires InOrder(passed, None, taken) && d.message.signature.K256?
    ensures InOrder(passed, Some(d), taken + [d])
  {
    forall i: nat | i < |passed| ensures PassedAt(passed, taken + [d], i) {
      assert PassedAt(passed, taken, i);
    }
  }

  lemma TakesInOrder<M>(
      d: Delegate<M>, passed: seq<Delivery<M>>, taken: seq<Delivery<M>>, remote: Addr, m: OrderedMulticast<M>)
    requires d.K256Slot? && SlotOk(d) && Fits(d, m)
    requires InOrder(SignedOf(passed), d.saved, SignedOf(taken)) && LinkedOf(passed) == LinkedOf(taken)
    ensures
      var (d', more) := Handle(d, remote, m);
      var passed', taken' := passed + AsSeq(more), taken + [Delivery(remote, m)];
      && d'.K256Slot? && InOrder(SignedOf(passed'), d'.saved, SignedOf(taken')) && LinkedOf(passed') == LinkedOf(taken')
  {
    hide InOrder, SignedOf, LinkedOf;
    var (d', more) := Handle(d, remote, m);
    var arrived := Delivery(remote, m);
    SignedOfMore(passed, more);
    SignedOfMore(taken, Some(arrived));
    assert taken + [arrived] == taken + AsSeq(Some(arrived));
    if m.Verified() {
      if d.saved.Some? {
        OneMorePassed(SignedOf(passed), d.saved.value, SignedOf(taken), more.value);
        OneMoreTaken(SignedOf(passed) + [more.value], SignedOf(taken), arrived);
      } else {
        OneMoreTaken(SignedOf(passed), SignedOf(taken), arrived);
      }
    }
  }

  lemma PaceInOrder<M>(d: Delegate<M>, passed: seq<Delivery<M>>, taken: seq<Delivery<M>>)
    requires d.K256Slot? && SlotOk(d)
    requires InOrder(SignedOf(passed), d.saved, SignedOf(taken)) && LinkedOf(passed) == LinkedOf(taken)
    ensures
      var (d', more) := OnPace(d);
      var passed' := passed + AsSeq(more);
      && d'.K256Slot? && InOrder(SignedOf(passed'), d'.saved, SignedOf(taken)) && LinkedOf(passed') == LinkedOf(taken)
  {
    hide InOrder, SignedOf, LinkedOf;
    var (d', more) := OnPace(d);
    SignedOfMore(passed, more);
    if d.saved.Some? {
      OneMorePassed(SignedOf(passed), d.saved.value, SignedOf(taken), more.value);
    }
  }

  /** Over any interleaving: signed messages are passed on in the order taken in, unchanged but for the mark on their
      signature, and all but at most the last; the others are passed on as they are, all of them, in order. */
  lemma {:induction false} PassedInOrder<M>(events: seq<Event<M>>)
    requires Signed(events)
    ensures
      var (d, passed) := Run(events);
      && InOrder(SignedOf(passed), d.saved, SignedOf(TakenOf(events)))
      && LinkedOf(passed) == LinkedOf(TakenOf(events))
    decreases |events|
  {
    hide InOrder, Handle, OnPace, SignedOf, LinkedOf;
    if events == [] {
      NothingTaken<M>();
    } else {
      var last := |events| - 1;
      PassedInOrder(events[..last]);
      var (d, passed) := Run(events[..last]);
      match events[last]
      case Takes(remote, m) => TakesInOrder(d, passed, TakenOf(events[..last]), remote, m);
      case Paces =>
        PaceInOrder(d, passed, TakenOf(events[..last]));
        assert TakenOf(events) == TakenOf(events[..last]);
    }
  }

  lemma NothingTaken<M>()
    ensures SignedOf<M>([]) == [] && LinkedOf<M>([]) == [] && InOrder<M>([], None, [])
  {
    var none: Option<Delivery<M>> := None;
    assert AsSeq(none) == [];
  }

  // ---------- group packets ----------

  /** For every stream and up to 252 replicas: of the packets of message number i the delegate of replica r passes on
      the one of its own group, as it was read and at once, and no other. */
  lemma OwnGroupIsPassedOn<M(!new)>(
      c: Codec<M>, n: nat, ms: seq<M>, i: nat, r: ReplicaIndex, sign: Bytes -> Bytes, tail: Bytes, k: nat, remote: Addr)
    requires CodecOk(c) && i < |ms| && 0 < n <= 252 && r < n && k < (n + 3) / 4
    ensures
      var sends := Apply(ProcessAt(c, SequencerState(0, HalfSipCrypto(n)), ms, i), sign);
      && !sends.overflowed && k < |sends.packets|
      && var m := OrderedMulticast((i + 1) % U32, HalfSipHash(CodesFor(4 * k)), Zeros(32), ms[i]);
      && Deserialize(c, HalfSipReceiver(r), sends.packets[k] + tail) == Some(m)
      && Fits(Nop(r), m)
      && Handle(Nop(r), remote, m) == (Nop(r), if k == r / 4 then Some(Delivery(remote, m)) else None)
      && OnPace<M>(Nop(r)) == (Nop(r), None)
  {
    hide ProcessAt, Apply, Deserialize, Accepts, CodecOk;
    FanOutStreamRoundTrip(c, n, ms, i, r, sign, tail);
  }
}
