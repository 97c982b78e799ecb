/** Runs of n Neo replicas in confirm mode, up to f of them arbitrary, and the invariant that every
    run keeps.

    Confirms are authenticated: one in the name of a correct replica was sent by it. Everything else
    that arrives (requests, query answers, repetitions, any order) is arbitrary. */
module NeoSystem {
  import opened Blocks
  import opened Quorums
  import opened Neo
  import opened NeoConfirm
  import opened NeoRuns

  type System = map<ReplicaIndex, State>

  ghost predicate Enabled(c: Config, sys: System, r: ReplicaIndex, e: Event)
    requires r in sys
  {
    match e
    case ConfirmArrives(m) => m.replica in sys ==> m in sys[m.replica].sentConfirms
    case OwnConfirmArrives(m) => m in sys[r].sentConfirms
    case _ => true
  }

  ghost predicate StepBy(c: Config, sys: System, sys': System, r: ReplicaIndex, e: Event) {
    && r in sys && WellFormed(sys[r]) && Enabled(c, sys, r, e)
    && sys' == sys[r := Handle(sys[r], e)]
  }

  ghost predicate Next(c: Config, sys: System, sys': System) {
    exists r, e :: StepBy(c, sys, sys', r, e)
  }

  ghost function InitSystem(c: Config): System {
    map r | r in Correct(c) :: Init(c.n, c.f, r, true)
  }

  ghost predicate IsRun(c: Config, run: seq<System>) {
    && |run| > 0
    && run[0] == InitSystem(c)
    && forall i :: 0 <= i < |run| - 1 ==> Next(c, run[i], run[i + 1])
  }

  // ---------- the invariant ----------

  ghost predicate AgreesUpTo(a: seq<Message>, b: seq<Message>, k: nat) {
    k <= |a| && k <= |b| && Inner(a[..k]) == Inner(b[..k])
  }

  /** The log of replica i, as compared with by `r` whose own log is `log`. */
  ghost function LogOf(sys: System, r: ReplicaIndex, log: seq<Message>, i: ReplicaIndex): seq<Message>
    requires i in sys
  {
    if i == r then log else sys[i].requests
  }

  /** A confirm in the name of a correct replica was sent by it. */
  ghost predicate Genuine(sys: System, r: ReplicaIndex, sent: seq<Confirm>, m: Confirm) {
    m.replica in sys ==> m in if m.replica == r then sent else sys[m.replica].sentConfirms
  }

  ghost predicate DigestRight(log: seq<Message>, m: Confirm) {
    0 < m.start <= m.end <= |log| && m.digest == Inner(log[m.start - 1..m.end])
  }

  /** A replica confirms only what its own log says. */
  ghost predicate OwnDigests(log: seq<Message>, sent: seq<Confirm>) {
    forall m :: m in sent ==> DigestRight(log, m)
  }

  ghost predicate AllDigests(sys: System) {
    forall i :: i in sys ==> OwnDigests(sys[i].requests, sys[i].sentConfirms)
  }

  ghost predicate AllGenuine(sys: System, r: ReplicaIndex, sent: seq<Confirm>, confirms: seq<Confirm>) {
    forall m :: m in confirms ==> Genuine(sys, r, sent, m)
  }

  ghost predicate Waiting1Genuine(
      sys: System, r: ReplicaIndex, sent: seq<Confirm>, confirms1: map<nat, seq<Confirm>>)
  {
    forall e :: e in confirms1 ==> AllGenuine(sys, r, sent, confirms1[e])
  }

  ghost predicate Waiting2Genuine(
      sys: System, r: ReplicaIndex, sent: seq<Confirm>, confirms2: map<(ReplicaIndex, nat), Confirm>)
  {
    forall k :: k in confirms2 ==> Genuine(sys, r, sent, confirms2[k])
  }

  /** What a correct replica is recorded to have confirmed is the same in both logs. */
  ghost predicate RecordAgrees(
      sys: System, r: ReplicaIndex, log: seq<Message>, remote: map<ReplicaIndex, nat>)
  {
    forall i :: i in sys && i in remote ==> AgreesUpTo(log, LogOf(sys, r, log, i), remote[i])
  }

  /** The replicas that may stand behind the first k operations of `log`. */
  ghost function Backers(c: Config, sys: System, r: ReplicaIndex, log: seq<Message>, k: nat): set<ReplicaIndex> {
    set i | i in Replicas(c.n) && (i in sys ==> AgreesUpTo(log, LogOf(sys, r, log, i), k))
  }

  ghost predicate AgreeOk(c: Config, sys: System, r: ReplicaIndex, s: State) {
    && s.index == r && s.n == c.n && s.f == c.f
    && OwnDigests(s.requests, s.sentConfirms)
    && Waiting1Genuine(sys, r, s.sentConfirms, s.reorderingConfirms1)
    && Waiting2Genuine(sys, r, s.sentConfirms, s.reorderingConfirms2)
    && RecordAgrees(sys, r, s.requests, s.remoteConfirmedNums)
    && |Backers(c, sys, r, s.requests, s.confirmedNum)| >= c.n - c.f
  }

  ghost predicate Inv(c: Config, sys: System) {
    && ValidConfig(c)
    && sys.Keys == Correct(c)
    && forall r :: r in sys ==> CommitOk(sys[r]) && sys[r].confirm && AgreeOk(c, sys, r, sys[r])
  }

  // ---------- confirming ----------

  lemma InnerSplit(log: seq<Message>, j: nat, k: nat)
    requires j <= k <= |log|
    ensures Inner(log[..k]) == Inner(log[..j]) + Inner(log[j..k])
  {
    assert log[..k] == log[..j] + log[j..k];
  }

  /** Two logs that agree up to a confirmed range and on the range agree up to its end. */
  lemma RangeAgrees(a: seq<Message>, b: seq<Message>, j: nat, k: nat)
    requires AgreesUpTo(a, b, j) && j <= k <= |a| && k <= |b|
    requires Inner(a[j..k]) == Inner(b[j..k])
    ensures AgreesUpTo(a, b, k)
  {
    InnerSplit(a, j, k);
    InnerSplit(b, j, k);
  }

  lemma AgreesShorter(a: seq<Message>, b: seq<Message>, j: nat, k: nat)
    requires AgreesUpTo(a, b, k) && j <= k
    ensures AgreesUpTo(a, b, j)
  {
    InnerSplit(a, j, k);
    InnerSplit(b, j, k);
    assert Inner(a[..j]) == Inner(a[..k])[..j];
    assert Inner(b[..j]) == Inner(b[..k])[..j];
  }

  /** Whoever is recorded to have confirmed k operations stands behind them. */
  lemma ConfirmersBack(
      c: Config, sys: System, r: ReplicaIndex, log: seq<Message>, remote: map<ReplicaIndex, nat>, k: nat)
    requires RecordAgrees(sys, r, log, remote)
    ensures ConfirmedBy(remote, c.n, k) <= Backers(c, sys, r, log, k)
  {
    forall q | q in ConfirmedBy(remote, c.n, k) ensures q in Backers(c, sys, r, log, k) {
      if q in sys {
        AgreesShorter(log, LogOf(sys, r, log, q), k, remote[q]);
      }
    }
  }

  lemma RaiseAgrees(c: Config, sys: System, r: ReplicaIndex, s: State, i: ReplicaIndex, end: nat)
    requires WellFormed(s) && s.confirm && AgreeOk(c, sys, r, s)
    requires i in s.remoteConfirmedNums && end <= s.orderedNum
    requires i in sys ==> AgreesUpTo(s.requests, LogOf(sys, r, s.requests, i), end)
    ensures
      var s1 := s.(remoteConfirmedNums := s.remoteConfirmedNums[i := end]);
      WellFormed(s1) && AgreeOk(c, sys, r, s1) && AgreeOk(c, sys, r, UpdateConfirmNum(s1))
  {
    var remote := s.remoteConfirmedNums[i := end];
    var s1 := s.(remoteConfirmedNums := remote);
    var s2 := UpdateConfirmNum(s1);
    hide AgreesUpTo, Waiting1Genuine, Waiting2Genuine, OwnDigests;
    assert RecordAgrees(sys, r, s.requests, remote);
    if s2.confirmedNum != s1.confirmedNum {
      ConfirmedOfIsGreatest(remote, s.n, s.f);
      ConfirmersBack(c, sys, r, s.requests, remote, s2.confirmedNum);
      SubsetSize(ConfirmedBy(remote, c.n, s2.confirmedNum), Backers(c, sys, r, s.requests, s2.confirmedNum));
    }
  }

  lemma Confirm2Agrees(c: Config, sys: System, r: ReplicaIndex, s: State, m: Confirm)
    requires AllDigests(sys) && WellFormed(s) && s.confirm && AgreeOk(c, sys, r, s)
    requires m.replica in s.remoteConfirmedNums && m.start == s.remoteConfirmedNums[m.replica] + 1
    requires Genuine(sys, r, s.sentConfirms, m)
    ensures AgreeOk(c, sys, r, DoConfirm2(s, m))
  {
    var log := s.requests;
    if RangeInLog(m, |log|) && Inner(log[m.start - 1..m.end]) == m.digest {
      if m.replica in sys {
        var peer := LogOf(sys, r, log, m.replica);
        assert DigestRight(peer, m);
        RangeAgrees(log, peer, m.start - 1, m.end);
      }
      RaiseAgrees(c, sys, r, s, m.replica, m.end);
    }
  }

  lemma WithoutAgrees(c: Config, sys: System, r: ReplicaIndex, s: State, key: (ReplicaIndex, nat))
    requires AgreeOk(c, sys, r, s) && key in s.reorderingConfirms2
    ensures AgreeOk(c, sys, r, Without2(s, key)) && Genuine(sys, r, s.sentConfirms, s.reorderingConfirms2[key])
  {
    hide Genuine, OwnDigests, RecordAgrees, Backers, Waiting1Genuine;
  }

  lemma {:induction false} DrainConfirmsAgrees(c: Config, sys: System, r: ReplicaIndex, s: State, i: ReplicaIndex)
    requires AllDigests(sys) && WellFormed(s) && s.confirm && i in s.remoteConfirmedNums && AgreeOk(c, sys, r, s)
    ensures AgreeOk(c, sys, r, DrainConfirms(s, i))
    decreases |s.reorderingConfirms2|
  {
    hide AllDigests, DoConfirm2, AgreeOk, Genuine, BuffersOk, OwnConfirms;
    var key := (i, s.remoteConfirmedNums[i] + 1);
    if s.status.Running? && key in s.reorderingConfirms2 {
      WithoutEarlyConfirm(s, key);
      WithoutAgrees(c, sys, r, s, key);
      var s1 := Without2(s, key);
      Confirm2Agrees(c, sys, r, s1, s.reorderingConfirms2[key]);
      DrainConfirmsAgrees(c, sys, r, DoConfirm2(s1, s.reorderingConfirms2[key]), i);
    }
  }

  lemma Confirm1Agrees(c: Config, sys: System, r: ReplicaIndex, s: State, m: Confirm)
    requires AllDigests(sys) && WellFormed(s) && s.confirm && m.end <= s.orderedNum && AgreeOk(c, sys, r, s)
    requires Genuine(sys, r, s.sentConfirms, m)
    ensures AgreeOk(c, sys, r, DoConfirm1(s, m))
  {
    hide AllDigests, DoConfirm2, DrainConfirms, Genuine, OwnDigests, RecordAgrees, Backers, BuffersOk, OwnConfirms;
    if s.status.Running? && m.replica in s.remoteConfirmedNums && m.start == s.remoteConfirmedNums[m.replica] + 1 {
      Confirm2Agrees(c, sys, r, s, m);
      DrainConfirmsAgrees(c, sys, r, DoConfirm2(s, m), m.replica);
    }
  }

  lemma {:induction false} ConfirmAllAgrees(c: Config, sys: System, r: ReplicaIndex, s: State, ms: seq<Confirm>)
    requires AllDigests(sys) && WellFormed(s) && s.confirm && AgreeOk(c, sys, r, s)
    requires AllGenuine(sys, r, s.sentConfirms, ms) && forall m :: m in ms ==> m.end <= s.orderedNum
    ensures AgreeOk(c, sys, r, ConfirmAll(s, ms))
    decreases |ms|
  {
    if ms != [] {
      hide AllDigests, AgreeOk, DoConfirm1, Genuine, BuffersOk, OwnConfirms;
      Confirm1Agrees(c, sys, r, s, ms[0]);
      ConfirmAllAgrees(c, sys, r, DoConfirm1(s, ms[0]), ms[1..]);
    }
  }

  lemma {:induction false} ReachRangeAgrees(c: Config, sys: System, r: ReplicaIndex, s: State, lo: nat, hi: nat)
    requires AllDigests(sys) && WellFormed(s) && s.confirm && AgreeOk(c, sys, r, s) && lo <= hi <= s.orderedNum
    ensures AgreeOk(c, sys, r, ReachRange(s, lo, hi))
    decreases hi
  {
    if lo < hi {
      ReachRangeAgrees(c, sys, r, s, lo, hi - 1);
      ReachAgrees(c, sys, r, ReachRange(s, lo, hi - 1), hi);
    }
  }

  lemma ReachAgrees(c: Config, sys: System, r: ReplicaIndex, s: State, opNum: nat)
    requires AllDigests(sys) && WellFormed(s) && s.confirm && AgreeOk(c, sys, r, s) && 0 < opNum <= s.orderedNum
    ensures AgreeOk(c, sys, r, Reach(s, opNum))
  {
    if s.status.Running? && opNum in s.reorderingConfirms1 {
      WithoutConfirms(s, opNum);
      hide AllDigests, ConfirmAll, AllGenuine, OwnDigests, RecordAgrees, Backers, BuffersOk, OwnConfirms;
      ConfirmAllAgrees(c, sys, r, Without1(s, opNum), s.reorderingConfirms1[opNum]);
    }
  }

  // ---------- the log grows ----------

  lemma AgreesLonger(a: seq<Message>, a': seq<Message>, b: seq<Message>, b': seq<Message>, k: nat)
    requires AgreesUpTo(a, b, k) && a <= a' && b <= b'
    ensures AgreesUpTo(a', b', k)
  {
    assert a'[..k] == a[..k] && b'[..k] == b[..k];
  }

  lemma DigestsLonger(log: seq<Message>, log': seq<Message>, sent: seq<Confirm>)
    requires OwnDigests(log, sent) && log <= log'
    ensures OwnDigests(log', sent)
  {
    forall m | m in sent ensures DigestRight(log', m) {
      assert log'[m.start - 1..m.end] == log[m.start - 1..m.end];
    }
  }

  lemma LongerAgrees(c: Config, sys: System, r: ReplicaIndex, s: State, s': State)
    requires AgreeOk(c, sys, r, s) && s.requests <= s'.requests
    requires s'.index == s.index && s'.n == s.n && s'.f == s.f && s'.sentConfirms == s.sentConfirms
    requires s'.reorderingConfirms1 == s.reorderingConfirms1 && s'.reorderingConfirms2 == s.reorderingConfirms2
    requires s'.remoteConfirmedNums == s.remoteConfirmedNums && s'.confirmedNum == s.confirmedNum
    ensures AgreeOk(c, sys, r, s')
  {
    var log, log' := s.requests, s'.requests;
    hide Waiting1Genuine, Waiting2Genuine;
    DigestsLonger(log, log', s.sentConfirms);
    forall i, k | i in sys && AgreesUpTo(log, LogOf(sys, r, log, i), k)
      ensures AgreesUpTo(log', LogOf(sys, r, log', i), k)
    {
      AgreesLonger(log, log', LogOf(sys, r, log, i), LogOf(sys, r, log', i), k);
    }
    SubsetSize(Backers(c, sys, r, log, s.confirmedNum), Backers(c, sys, r, log', s.confirmedNum));
  }

  lemma OrderRequestAgrees(c: Config, sys: System, r: ReplicaIndex, s: State, m: Message)
    requires AllDigests(sys) && WellFormed(s) && s.confirm && AgreeOk(c, sys, r, s)
    ensures AgreeOk(c, sys, r, OrderRequest(s, m))
  {
    hide AllDigests, AgreeOk, DrainRequests, ReachRange, BuffersOk, OwnConfirms;
    var o := DrainRequests(Push(OrderingOf(s), m));
    var s1 := WithLog(s, o);
    LongerLog(s, s1);
    LongerAgrees(c, sys, r, s, s1);
    ReachRangeAgrees(c, sys, r, s1, s.verifiedNum, o.verifiedNum);
    var s2 := ReachRange(s1, s.verifiedNum, o.verifiedNum);
    LongerAgrees(c, sys, r, s2, s2.(verifiedNum := o.verifiedNum));
  }

  // ---------- each handler ----------

  lemma RequestAgrees(c: Config, sys: System, r: ReplicaIndex, s: State, m: Message)
    requires AllDigests(sys) && WellFormed(s) && s.confirm && AgreeOk(c, sys, r, s)
    ensures AgreeOk(c, sys, r, HandleRequest(s, m))
  {
    hide AllDigests, AgreeOk, OrderRequest, BufferRequest, BuffersOk, OwnConfirms;
    if s.status.Running? {
      var s1 := WithOffset(s, m);
      var opNum := OpNum(m.seqNum, s1.seqNumOffset.value);
      LongerAgrees(c, sys, r, s, s1);
      if opNum == s.orderedNum + 1 {
        OrderRequestAgrees(c, sys, r, s1, m);
      } else if opNum > s.orderedNum + 1 {
        LongerAgrees(c, sys, r, s1, BufferRequest(s1, opNum, m));
      }
    }
  }

  lemma ConfirmAgrees(c: Config, sys: System, r: ReplicaIndex, s: State, m: Confirm)
    requires AllDigests(sys) && WellFormed(s) && s.confirm && AgreeOk(c, sys, r, s)
    requires Genuine(sys, r, s.sentConfirms, m)
    ensures AgreeOk(c, sys, r, HandleConfirm(s, m))
  {
    hide AllDigests, Genuine, OwnDigests, RecordAgrees, Backers, Waiting2Genuine, BuffersOk, OwnConfirms, DoConfirm1;
    if s.status.Running? {
      if m.end > s.orderedNum {
        var confirms1 := Buffered1(s, m);
        forall e | e in confirms1 ensures AllGenuine(sys, r, s.sentConfirms, confirms1[e]) {
        }
      } else {
        Confirm1Agrees(c, sys, r, s, m);
      }
    }
  }

  lemma LoopbackAgrees(c: Config, sys: System, r: ReplicaIndex, s: State, m: Confirm)
    requires WellFormed(s) && s.confirm && AgreeOk(c, sys, r, s) && m in s.sentConfirms
    ensures AgreeOk(c, sys, r, HandleLoopback(s, m))
  {
    hide OwnDigests, Waiting1Genuine, Waiting2Genuine, RecordAgrees, Backers, BuffersOk, UpdateConfirmNum;
    if s.status.Running? {
      RaiseAgrees(c, sys, r, s, s.index, m.end);
    }
  }

  lemma PaceAgrees(c: Config, sys: System, r: ReplicaIndex, s: State)
    requires WellFormed(s) && s.confirm && AgreeOk(c, sys, r, s)
    ensures AgreeOk(c, sys, r, OnPace(s))
  {
    var s', log := OnPace(s), s.requests;
    if s' != s {
      var m := s'.sentConfirms[|s.sentConfirms|];
      assert s'.sentConfirms == s.sentConfirms + [m];
      assert log[m.start - 1..m.end] == log[s.localConfirmedNum..];
      GenuineMore(sys, r, s.sentConfirms, s'.sentConfirms, s.reorderingConfirms1, s.reorderingConfirms2);
    }
  }

  lemma GenuineMore(
      sys: System, r: ReplicaIndex, sent: seq<Confirm>, sent': seq<Confirm>,
      confirms1: map<nat, seq<Confirm>>, confirms2: map<(ReplicaIndex, nat), Confirm>)
    requires sent <= sent'
    requires Waiting1Genuine(sys, r, sent, confirms1) && Waiting2Genuine(sys, r, sent, confirms2)
    ensures Waiting1Genuine(sys, r, sent', confirms1) && Waiting2Genuine(sys, r, sent', confirms2)
  {
    forall m | Genuine(sys, r, sent, m) ensures Genuine(sys, r, sent', m) {
      assert forall x :: x in sent ==> x in sent';
    }
    forall e | e in confirms1 ensures AllGenuine(sys, r, sent', confirms1[e]) {
      assert AllGenuine(sys, r, sent, confirms1[e]);
    }
  }

  lemma HandleAgrees(c: Config, sys: System, r: ReplicaIndex, s: State, e: Event)
    requires AllDigests(sys) && WellFormed(s) && s.confirm && AgreeOk(c, sys, r, s)
    requires e.OwnConfirmArrives? ==> e.own in s.sentConfirms
    requires e.ConfirmArrives? ==> Genuine(sys, r, s.sentConfirms, e.confirm)
    ensures AgreeOk(c, sys, r, Handle(s, e))
  {
    hide AllDigests, AgreeOk, HandleRequest, HandleConfirm, HandleLoopback, OnPace, Genuine, BuffersOk, OwnConfirms;
    match e
    case RequestArrives(m) => RequestAgrees(c, sys, r, s, m);
    case ConfirmArrives(m) => ConfirmAgrees(c, sys, r, s, m);
    case OwnConfirmArrives(m) => LoopbackAgrees(c, sys, r, s, m);
    case QueryArrives(q) => LongerAgrees(c, sys, r, s, HandleQuery(s, q));
    case QueryOkArrives(ok) =>
      if s.status.Running? && ok.opNum == s.orderedNum + 1 {
        RequestAgrees(c, sys, r, s, ok.request);
        LongerAgrees(c, sys, r, HandleRequest(s, ok.request), HandleQueryOk(s, ok));
      }
    case Pace => PaceAgrees(c, sys, r, s);
  }

  // ---------- the system ----------

  /** No other replica takes back a confirm or shortens its log. */
  ghost predicate Grows(sys: System, sys': System) {
    && sys.Keys == sys'.Keys
    && forall i :: i in sys ==> sys[i].requests <= sys'[i].requests && sys[i].sentConfirms <= sys'[i].sentConfirms
  }

  lemma GenuineGrows(sys: System, sys': System, r: ReplicaIndex, s: State)
    requires Grows(sys, sys')
    requires Waiting1Genuine(sys, r, s.sentConfirms, s.reorderingConfirms1)
    requires Waiting2Genuine(sys, r, s.sentConfirms, s.reorderingConfirms2)
    ensures Waiting1Genuine(sys', r, s.sentConfirms, s.reorderingConfirms1)
    ensures Waiting2Genuine(sys', r, s.sentConfirms, s.reorderingConfirms2)
  {
    forall m | Genuine(sys, r, s.sentConfirms, m) ensures Genuine(sys', r, s.sentConfirms, m) {
      if m.replica in sys && m.replica != r {
        var a, b := sys[m.replica].sentConfirms, sys'[m.replica].sentConfirms;
        assert forall x :: x in a ==> x in b;
      }
    }
    forall e | e in s.reorderingConfirms1 ensures AllGenuine(sys', r, s.sentConfirms, s.reorderingConfirms1[e]) {
      assert AllGenuine(sys, r, s.sentConfirms, s.reorderingConfirms1[e]);
    }
  }

  lemma AgreeGrows(c: Config, sys: System, sys': System, r: ReplicaIndex, s: State)
    requires Grows(sys, sys') && AgreeOk(c, sys, r, s)
    ensures AgreeOk(c, sys', r, s)
  {
    GenuineGrows(sys, sys', r, s);
    hide Waiting1Genuine, Waiting2Genuine, OwnDigests;
    var log := s.requests;
    forall i, k | i in sys && AgreesUpTo(log, LogOf(sys, r, log, i), k)
      ensures AgreesUpTo(log, LogOf(sys', r, log, i), k)
    {
      AgreesLonger(log, log, LogOf(sys, r, log, i), LogOf(sys', r, log, i), k);
    }
    SubsetSize(Backers(c, sys, r, log, s.confirmedNum), Backers(c, sys', r, log, s.confirmedNum));
  }

  lemma DigestsOf(c: Config, sys: System)
    requires Inv(c, sys)
    ensures AllDigests(sys)
  {
    hide CommitOk, OwnDigests, Waiting1Genuine, Waiting2Genuine, RecordAgrees, Backers;
  }

  lemma EnabledGenuine(c: Config, sys: System, r: ReplicaIndex, m: Confirm)
    requires r in sys && Enabled(c, sys, r, ConfirmArrives(m))
    ensures Genuine(sys, r, sys[r].sentConfirms, m)
  {
  }

  lemma StepKeeps(c: Config, sys: System, sys': System)
    requires Inv(c, sys) && Next(c, sys, sys')
    ensures Inv(c, sys')
  {
    hide CommitOk, AgreeOk, AllDigests, Genuine, Handle, BuffersOk, OwnConfirms;
    var r, e :| StepBy(c, sys, sys', r, e);
    DigestsOf(c, sys);
    if e.ConfirmArrives? {
      EnabledGenuine(c, sys, r, e.confirm);
    }
    HandleCommits(sys[r], e);
    HandleAgrees(c, sys, r, sys[r], e);
    OneChanges(c, sys, sys', r);
  }

  lemma OneChanges(c: Config, sys: System, sys': System, r: ReplicaIndex)
    requires Inv(c, sys) && r in sys && r in sys' && sys' == sys[r := sys'[r]]
    requires CommitOk(sys'[r]) && sys'[r].confirm && AgreeOk(c, sys, r, sys'[r])
    requires sys[r].requests <= sys'[r].requests && sys[r].sentConfirms <= sys'[r].sentConfirms
    ensures Inv(c, sys')
  {
    hide CommitOk, AgreeOk;
    forall q | q in sys' ensures CommitOk(sys'[q]) && sys'[q].confirm && AgreeOk(c, sys', q, sys'[q]) {
      AgreeGrows(c, sys, sys', q, sys'[q]);
    }
  }

  lemma InitAgrees(c: Config, sys: System, r: ReplicaIndex)
    requires ValidConfig(c) && sys.Keys == Correct(c) && r in sys
    ensures CommitOk(Init(c.n, c.f, r, true)) && AgreeOk(c, sys, r, Init(c.n, c.f, r, true))
  {
    hide CommitOk, Backers;
    InitCommits(c.n, c.f, r, true);
    forall i | i in sys ensures AgreesUpTo([], LogOf(sys, r, [], i), 0) {
      assert LogOf(sys, r, [], i)[..0] == [];
    }
    AllBackNothing(c, sys, r);
  }

  lemma AllBackNothing(c: Config, sys: System, r: ReplicaIndex)
    ensures |Backers(c, sys, r, [], 0)| >= c.n
  {
    forall i | i in sys ensures AgreesUpTo([], LogOf(sys, r, [], i), 0) {
      assert LogOf(sys, r, [], i)[..0] == [];
    }
    ReplicaCount(c.n);
    SubsetSize(Replicas(c.n), Backers(c, sys, r, [], 0));
  }

  lemma {:induction false} RunInv(c: Config, run: seq<System>)
    requires ValidConfig(c) && IsRun(c, run)
    ensures Inv(c, run[|run| - 1])
    decreases |run|
  {
    hide CommitOk, AgreeOk, Next;
    if |run| == 1 {
      forall r | r in run[0] ensures CommitOk(run[0][r]) && run[0][r].confirm && AgreeOk(c, run[0], r, run[0][r]) {
        InitAgrees(c, run[0], r);
      }
    } else {
      var init := run[..|run| - 1];
      forall i | 0 <= i < |init| - 1 ensures Next(c, init[i], init[i + 1]) {
        assert Next(c, run[i], run[i + 1]);
      }
      RunInv(c, init);
      var last := |run| - 2;
      assert Next(c, run[last], run[last + 1]);
      StepKeeps(c, run[last], run[last + 1]);
    }
  }
}
