/** Agreement of Neo in confirm mode over all runs, with f arbitrary replicas and any sequencer. */
module NeoAgreement {
  // Even if the sequencer gives different requests the same number at different replicas, the requests
  // executed by any two correct replicas are prefixes of one another.
  //
  // Confirms are authenticated: one in the name of a correct replica was sent by it. Everything else that
  // arrives (requests, query answers, repetitions, any order) is arbitrary.

  import opened Blocks
  import opened Quorums
  import opened Neo
  import opened NeoRuns
  import opened NeoSystem

  /** The requests a replica has executed, in order. */
  ghost function Executed(s: State): seq<Request> {
    if s.confirmedNum <= |s.requests| then Inner(s.requests[..s.confirmedNum]) else []
  }

  lemma BackedBy(c: Config, sys: System, r: ReplicaIndex)
    requires Inv(c, sys) && r in sys
    ensures ValidConfig(c) && sys.Keys == Correct(c)
    ensures |Backers(c, sys, r, sys[r].requests, sys[r].confirmedNum)| >= c.n - c.f
  {
    hide OwnDigests, Waiting1Genuine, Waiting2Genuine, RecordAgrees, Backers;
    assert CommitOk(sys[r]) && AgreeOk(c, sys, r, sys[r]);
  }

  /** A correct replica that stands behind what both have executed. */
  lemma CommonBacker(c: Config, sys: System, q: ReplicaIndex, r: ReplicaIndex) returns (i: ReplicaIndex)
    requires Inv(c, sys) && q in sys && r in sys
    ensures i in sys
    ensures AgreesUpTo(sys[q].requests, sys[i].requests, sys[q].confirmedNum)
    ensures AgreesUpTo(sys[r].requests, sys[i].requests, sys[r].confirmedNum)
  {
    hide Inv, AgreesUpTo;
    BackedBy(c, sys, q);
    BackedBy(c, sys, r);
    i := CommonCorrect(c.n, c.faulty, Backers(c, sys, q, sys[q].requests, sys[q].confirmedNum),
                       Backers(c, sys, r, sys[r].requests, sys[r].confirmedNum));
  }

  lemma ShorterIsPrefix(c: Config, sys: System, q: ReplicaIndex, r: ReplicaIndex)
    requires Inv(c, sys) && q in sys && r in sys && sys[q].confirmedNum <= sys[r].confirmedNum
    ensures Executed(sys[q]) <= Executed(sys[r])
  {
    hide Inv, AgreesUpTo, Inner;
    var i := CommonBacker(c, sys, q, r);
    AgreeTogether(sys[q].requests, sys[r].requests, sys[i].requests, sys[q].confirmedNum, sys[r].confirmedNum);
  }

  /** Two logs that both agree with a third one agree with each other. */
  lemma AgreeTogether(a: seq<Message>, b: seq<Message>, third: seq<Message>, k: nat, l: nat)
    requires AgreesUpTo(a, third, k) && AgreesUpTo(b, third, l) && k <= l
    ensures k <= |a| && l <= |b| && Inner(a[..k]) <= Inner(b[..l])
  {
    AgreesShorter(b, third, k, l);
    InnerSplit(b, k, l);
  }

  /** Agreement: in every reachable state of every run, each correct replica has committed exactly the
      operations 1 .. confirmedNum of its log, in order and once each, and of the requests executed by
      any two correct replicas one sequence is a prefix of the other. */
  lemma Agreement(c: Config, run: seq<System>, q: ReplicaIndex, r: ReplicaIndex)
    requires ValidConfig(c) && IsRun(c, run) && q in Correct(c) && r in Correct(c)
    ensures
      var sys := run[|run| - 1];
      && q in sys && r in sys
      && ExecutedUpTo(sys[q], sys[q].confirmedNum) && ExecutedUpTo(sys[r], sys[r].confirmedNum)
      && PrefixComparable(Executed(sys[q]), Executed(sys[r]))
  {
    RunInv(c, run);
    var sys := run[|run| - 1];
    assert CommitOk(sys[q]) && CommitOk(sys[r]);
    if sys[q].confirmedNum <= sys[r].confirmedNum {
      ShorterIsPrefix(c, sys, q, r);
    } else {
      ShorterIsPrefix(c, sys, r, q);
    }
  }
}
