/** The delegate between the receiver and a replica. */
module Delegates {
  // With signed messages it holds back the newest signed one: earlier ones are passed on as if unsigned, and
  // only a pace releases one for verification.

  import opened Blocks
  import opened Multicast

  type Addr = nat

  datatype Delivery<+M> = Delivery(remote: Addr, message: OrderedMulticast<M>)

  datatype Delegate<+M> = Nop(index: ReplicaIndex) | K256Slot(saved: Option<Delivery<M>>)

  /** The same message with its signature left unchecked. */
  function Unchecked<M>(d: Delivery<M>): Delivery<M> {
    if d.message.signature.K256? then
      d.(message := d.message.(signature := K256Unverified(d.message.signature.signature)))
    else d
  }

  /** What the delegate in front of this kind of receiver is handed, and may be holding. */
  predicate Fits<M>(d: Delegate<M>, m: OrderedMulticast<M>) {
    match d
    case Nop(index) => m.signature.HalfSipHash? ==> |m.signature.codes| == 4 && |m.signature.codes[index % 4]| == 4
    case K256Slot(_) => m.signature.K256? || m.signature.K256Linked?
  }

  predicate SlotOk<M>(d: Delegate<M>) {
    d.K256Slot? && d.saved.Some? ==> d.saved.value.message.signature.K256?
  }

  function Handle<M>(d: Delegate<M>, remote: Addr, m: OrderedMulticast<M>): (r: (Delegate<M>, Option<Delivery<M>>))
    requires SlotOk(d) && Fits(d, m)
    ensures SlotOk(r.0) && r.0.K256Slot? == d.K256Slot?
  {
    match d
    case Nop(index) =>
      if m.signature.HalfSipHash? && !Accepts(index, m.signature.codes) then (d, None) else (d, Some(Delivery(remote, m)))
    case K256Slot(saved) =>
      if !m.Verified() then (d, Some(Delivery(remote, m)))
      else (K256Slot(Some(Delivery(remote, m))), if saved.Some? then Some(Unchecked(saved.value)) else None)
  }

  function OnPace<M>(d: Delegate<M>): (r: (Delegate<M>, Option<Delivery<M>>))
    requires SlotOk(d)
    ensures SlotOk(r.0) && r.0.K256Slot? == d.K256Slot?
  {
    match d
    case Nop(_) => (d, None)
    case K256Slot(saved) => (K256Slot(None), saved)
  }

  class ReceiverDelegate<M> {
    var delegate: Delegate<M>

    constructor (delegate: Delegate<M>)
      ensures this.delegate == delegate
    {
      this.delegate := delegate;
    }

    method DoHandle(remote: Addr, m: OrderedMulticast<M>) returns (passed: Option<Delivery<M>>)
      requires SlotOk(delegate) && Fits(delegate, m)
      modifies this
      ensures SlotOk(delegate) && (delegate, passed) == Handle(old(delegate), remote, m)
    {
      match delegate
      case Nop(index) =>
        if m.signature.HalfSipHash? {
          var code := m.signature.codes[index % 4];
          if code[0] == MARK && code[1] == MARK && code[2] == MARK && code[3] as nat != index {
            return None;
          }
        }
        passed := Some(Delivery(remote, m));
      case K256Slot(saved) =>
        if !m.Verified() {
          return Some(Delivery(remote, m));
        }
        delegate := K256Slot(Some(Delivery(remote, m)));
        passed := if saved.Some? then Some(Unchecked(saved.value)) else None;
    }

    method DoOnPace() returns (passed: Option<Delivery<M>>)
      requires SlotOk(delegate)
      modifies this
      ensures SlotOk(delegate) && (delegate, passed) == OnPace(old(delegate))
    {
      passed := None;
      if delegate.K256Slot? {
        passed := delegate.saved;
        delegate := K256Slot(None);
      }
    }
  }

  // ---------- conservation over any interleaving ----------

  datatype Event<+M> = Takes(remote: Addr, message: OrderedMulticast<M>) | Paces

  /** The message comes from a receiver of signed packets. */
  predicate SignedEvent<M>(e: Event<M>) {
    e.Takes? ==> e.message.signature.K256? || e.message.signature.K256Linked?
  }

  predicate Signed<M>(events: seq<Event<M>>) {
    forall i :: 0 <= i < |events| ==> SignedEvent(events[i])
  }

  function Step<M>(d: Delegate<M>, e: Event<M>): (r: (Delegate<M>, Option<Delivery<M>>))
    requires SlotOk(d) && (e.Takes? ==> Fits(d, e.message))
    ensures SlotOk(r.0) && r.0.K256Slot? == d.K256Slot?
  {
    match e
    case Takes(remote, m) => Handle(d, remote, m)
    case Paces => OnPace(d)
  }

  function AsSeq<M>(o: Option<Delivery<M>>): seq<Delivery<M>> {
    match o
    case Some(d) => [d]
    case None => []
  }

  /** The delegate after the events, and what it has passed on, in order. */
  function Run<M>(events: seq<Event<M>>): (r: (Delegate<M>, seq<Delivery<M>>))
    requires Signed(events)
    ensures SlotOk(r.0) && r.0.K256Slot?
  {
    if events == [] then (K256Slot(None), [])
    else
      var (d, passed) := Run(events[..|events| - 1]);
      var (d', more) := Step(d, events[|events| - 1]);
      (d', passed + AsSeq(more))
  }

  function TakenOf<M>(events: seq<Event<M>>): seq<Delivery<M>> {
    if events == [] then []
    else
      var last := events[|events| - 1];
      TakenOf(events[..|events| - 1]) + if last.Takes? then [Delivery(last.remote, last.message)] else []
  }

  /** The messages without regard to whether their signature was checked. */
  function Contents<M(==)>(ds: seq<Delivery<M>>): multiset<Delivery<M>> {
    if ds == [] then multiset{} else Contents(ds[..|ds| - 1]) + multiset{Unchecked(ds[|ds| - 1])}
  }

  lemma ContentsMore<M>(ds: seq<Delivery<M>>, d: Delivery<M>)
    ensures Contents(ds + [d]) == Contents(ds) + multiset{Unchecked(d)}
  {
    assert (ds + [d])[..|ds|] == ds;
  }

  /** The newest signed message taken in. */
  function NewestSigned<M>(ds: seq<Delivery<M>>): Option<Delivery<M>> {
    if ds == [] then None
    else if ds[|ds| - 1].message.Verified() then Some(ds[|ds| - 1])
    else NewestSigned(ds[..|ds| - 1])
  }

  lemma NewestSignedMore<M>(ds: seq<Delivery<M>>, d: Delivery<M>)
    ensures NewestSigned(ds + [d]) == if d.message.Verified() then Some(d) else NewestSigned(ds)
  {
    assert (ds + [d])[..|ds|] == ds;
  }

  lemma ContentsAsSeq<M>(o: Option<Delivery<M>>)
    ensures Contents(AsSeq(o)) == if o.Some? then multiset{Unchecked(o.value)} else multiset{}
  {
  }

  lemma UncheckedTwice<M>(d: Delivery<M>)
    ensures Unchecked(Unchecked(d)) == Unchecked(d)
  {
  }

  /** What is passed on and what is held are together what was taken in. */
  ghost predicate Conserves<M>(saved: Option<Delivery<M>>, passed: seq<Delivery<M>>, taken: seq<Delivery<M>>) {
    && Contents(passed) + Contents(AsSeq(saved)) == Contents(taken)
    && (saved.Some? ==> saved == NewestSigned(taken))
  }

  lemma HandleConserves<M>(
      d: Delegate<M>, passed: seq<Delivery<M>>, taken: seq<Delivery<M>>, remote: Addr, m: OrderedMulticast<M>)
    requires d.K256Slot? && SlotOk(d) && Fits(d, m) && Conserves(d.saved, passed, taken)
    ensures
      var (d', more) := Handle(d, remote, m);
      Conserves(d'.saved, passed + AsSeq(more), taken + [Delivery(remote, m)])
  {
    hide Contents, NewestSigned, Unchecked, AsSeq;
    var arrived := Delivery(remote, m);
    var (d', more) := Handle(d, remote, m);
    ContentsMore(taken, arrived);
    NewestSignedMore(taken, arrived);
    ContentsAsSeq(d.saved);
    ContentsAsSeq(d'.saved);
    PassedMore(passed, more);
    if m.Verified() && d.saved.Some? {
      UncheckedTwice(d.saved.value);
    }
  }

  lemma PaceConserves<M>(d: Delegate<M>, passed: seq<Delivery<M>>, taken: seq<Delivery<M>>)
    requires d.K256Slot? && SlotOk(d) && Conserves(d.saved, passed, taken)
    ensures
      var (d', more) := OnPace(d);
      Conserves(d'.saved, passed + AsSeq(more), taken)
  {
    hide Contents, NewestSigned, Unchecked, AsSeq;
    var (d', more) := OnPace(d);
    ContentsAsSeq(d.saved);
    ContentsAsSeq(d'.saved);
    PassedMore(passed, more);
  }

  lemma PassedMore<M>(passed: seq<Delivery<M>>, more: Option<Delivery<M>>)
    ensures Contents(passed + AsSeq(more)) ==
            Contents(passed) + if more.Some? then multiset{Unchecked(more.value)} else multiset{}
  {
    if more.Some? {
      ContentsMore(passed, more.value);
    } else {
      assert passed + AsSeq(more) == passed;
    }
  }

  /** Over any interleaving, the messages passed on plus the one held back are exactly those taken in, once
      each; and what is held back is the newest signed message. */
  lemma {:induction false} NothingIsLost<M>(events: seq<Event<M>>)
    requires Signed(events)
    ensures Conserves(Run(events).0.saved, Run(events).1, TakenOf(events))
    decreases |events|
  {
    hide Conserves, Handle, OnPace;
    if events == [] {
      NothingYet<M>();
    } else {
      var last := |events| - 1;
      NothingIsLost(events[..last]);
      var (d, passed) := Run(events[..last]);
      match events[last]
      case Takes(remote, m) => HandleConserves(d, passed, TakenOf(events[..last]), remote, m);
      case Paces =>
        PaceConserves(d, passed, TakenOf(events[..last]));
        assert TakenOf(events) == TakenOf(events[..last]);
    }
  }

  lemma NothingYet<M>()
    ensures Conserves<M>(None, [], [])
  {
    var none: Option<Delivery<M>> := None;
    assert AsSeq(none) == [];
  }

  /** Only a pace releases a verified message, and what it releases is the newest signed one. */
  lemma OnlyPaceReleasesVerified<M>(events: seq<Event<M>>, e: Event<M>)
    requires Signed(events) && SignedEvent(e)
    ensures
      var (d, passed) := Run(events);
      var more := Step(d, e).1;
      && Signed(events + [e]) && Run(events + [e]).1 == passed + AsSeq(more)
      && (more.Some? ==>
            && (more.value.message.Verified() <==> e.Paces?)
            && (e.Paces? ==> more == NewestSigned(TakenOf(events))))
  {
    hide Contents, NewestSigned;
    var all := events + [e];
    assert all[..|all| - 1] == events && all[|all| - 1] == e;
    NothingIsLost(events);
  }
}
