/** Counting arguments over sets of replicas. */
module Quorums {
  import opened Blocks

  /** The indices 0 .. n - 1. */
  function Replicas(n: nat): (r: set<ReplicaIndex>)
    ensures forall i: nat :: i in r <==> i < n
  {
    if n == 0 then {} else Replicas(n - 1) + {n - 1}
  }

  lemma {:induction false} ReplicaCount(n: nat)
    ensures |Replicas(n)| == n
  {
    if n != 0 {
      ReplicaCount(n - 1);
    }
  }

  lemma {:induction false} SubsetSize<T>(a: set<T>, b: set<T>)
    requires a <= b
    ensures |a| <= |b|
  {
    assert b == a + (b - a);
  }

  /** Two sets that together outnumber the replicas by more than the faulty ones share a correct one. */
  lemma CommonCorrect(n: nat, faulty: set<ReplicaIndex>, a: set<ReplicaIndex>, b: set<ReplicaIndex>)
    returns (r: ReplicaIndex)
    requires a <= Replicas(n) && b <= Replicas(n)
    requires |a| + |b| > n + |faulty|
    ensures r in a && r in b && r !in faulty
  {
    ReplicaCount(n);
    SubsetSize(a + b, Replicas(n));
    var common := a * b;
    if common <= faulty {
      SubsetSize(common, faulty);
      assert false;
    }
    r :| r in common && r !in faulty;
  }

  /** More than f members always include a correct one. */
  lemma SomeCorrect(faulty: set<ReplicaIndex>, a: set<ReplicaIndex>) returns (r: ReplicaIndex)
    requires |a| > |faulty|
    ensures r in a && r !in faulty
  {
    if a <= faulty {
      SubsetSize(a, faulty);
      assert false;
    }
    r :| r in a && r !in faulty;
  }

  /** n replicas of which at most f, the members of `faulty`, may do anything. */
  datatype Config = Config(n: nat, f: nat, faulty: set<ReplicaIndex>)

  ghost predicate ValidConfig(c: Config) {
    c.n > 3 * c.f && c.faulty <= Replicas(c.n) && |c.faulty| <= c.f
  }

  ghost predicate CorrectPrimary(c: Config) {
    ValidConfig(c) && PRIMARY !in c.faulty
  }

  ghost function Correct(c: Config): set<ReplicaIndex> {
    Replicas(c.n) - c.faulty
  }

  ghost predicate PrefixComparable<T>(a: seq<T>, b: seq<T>) {
    a <= b || b <= a
  }
}
