/** The confirmation number of Neo. */
module NeoConfirm {
  // Element f of the sorted numbers that n replicas have confirmed is the greatest number that at least
  // n - f of them have confirmed.

  import opened Blocks
  import opened Quorums
  import opened Neo

  ghost function ConfirmedBy(remote: map<ReplicaIndex, nat>, n: nat, k: nat): set<ReplicaIndex> {
    set i | i in Replicas(n) && i in remote && remote[i] >= k
  }

  ghost function CountGE(s: seq<nat>, k: nat): nat {
    if s == [] then 0 else CountGE(s[..|s| - 1], k) + (if s[|s| - 1] >= k then 1 else 0)
  }

  lemma {:induction false} CountInsertSorted(s: seq<nat>, x: nat, k: nat)
    requires SortedNums(s)
    ensures CountGE(InsertSorted(s, x), k) == CountGE(s, k) + (if x >= k then 1 else 0)
    decreases |s|
  {
    if s == [] || s[|s| - 1] <= x {
      assert (s + [x])[..|s|] == s;
    } else {
      var r := InsertSorted(s[..|s| - 1], x);
      CountInsertSorted(s[..|s| - 1], x, k);
      assert (r + [s[|s| - 1]])[..|r|] == r;
    }
  }

  lemma {:induction false} CountSortUnstable(s: seq<nat>, k: nat)
    ensures CountGE(SortUnstable(s), k) == CountGE(s, k)
    decreases |s|
  {
    if s != [] {
      CountSortUnstable(s[..|s| - 1], k);
      CountInsertSorted(SortUnstable(s[..|s| - 1]), s[|s| - 1], k);
    }
  }

  lemma {:induction false} CountBounds(s: seq<nat>, k: nat, m: nat)
    requires m <= |s|
    ensures (forall i :: m <= i < |s| ==> s[i] >= k) ==> CountGE(s, k) >= |s| - m
    ensures (forall i :: 0 <= i < m ==> s[i] < k) ==> CountGE(s, k) <= |s| - m
    decreases |s|
  {
    if s != [] {
      var init := s[..|s| - 1];
      CountBounds(init, k, if m == |s| then m - 1 else m);
    }
  }

  lemma {:induction false} CountValues(remote: map<ReplicaIndex, nat>, n: nat, k: nat)
    requires Replicas(n) <= remote.Keys
    ensures CountGE(Values(remote, n), k) == |ConfirmedBy(remote, n, k)|
  {
    if n > 0 {
      var values := Values(remote, n - 1);
      assert Values(remote, n)[..n - 1] == values;
      CountValues(remote, n - 1, k);
      ConfirmedByNext(remote, n, k);
    }
  }

  lemma ConfirmedByNext(remote: map<ReplicaIndex, nat>, n: nat, k: nat)
    requires n > 0 && n - 1 in remote
    ensures |ConfirmedBy(remote, n, k)| == |ConfirmedBy(remote, n - 1, k)| + (if remote[n - 1] >= k then 1 else 0)
  {
    var more := if remote[n - 1] >= k then {n - 1} else {};
    assert ConfirmedBy(remote, n, k) == ConfirmedBy(remote, n - 1, k) + more;
    assert ConfirmedBy(remote, n - 1, k) !! more;
  }

  /** The sorted element f is the greatest number that at least n - f replicas have confirmed. */
  lemma ConfirmedOfIsGreatest(remote: map<ReplicaIndex, nat>, n: nat, f: nat)
    requires Replicas(n) <= remote.Keys && f < n
    ensures |ConfirmedBy(remote, n, ConfirmedOf(remote, n, f))| >= n - f
    ensures forall k :: k > ConfirmedOf(remote, n, f) ==> |ConfirmedBy(remote, n, k)| < n - f
  {
    ConfirmedOfReached(remote, n, f);
    forall k | k > ConfirmedOf(remote, n, f) ensures |ConfirmedBy(remote, n, k)| < n - f {
      ConfirmedOfNotPassed(remote, n, f, k);
    }
  }

  lemma ConfirmedOfReached(remote: map<ReplicaIndex, nat>, n: nat, f: nat)
    requires Replicas(n) <= remote.Keys && f < n
    ensures |ConfirmedBy(remote, n, ConfirmedOf(remote, n, f))| >= n - f
  {
    hide SortUnstable, Values, CountGE, ConfirmedBy;
    var values := Values(remote, n);
    var sorted := SortUnstable(values);
    CountSortUnstable(values, sorted[f]);
    CountValues(remote, n, sorted[f]);
    CountBounds(sorted, sorted[f], f);
  }

  lemma ConfirmedOfNotPassed(remote: map<ReplicaIndex, nat>, n: nat, f: nat, k: nat)
    requires Replicas(n) <= remote.Keys && f < n && k > ConfirmedOf(remote, n, f)
    ensures |ConfirmedBy(remote, n, k)| < n - f
  {
    hide SortUnstable, Values, CountGE, ConfirmedBy;
    var values := Values(remote, n);
    var sorted := SortUnstable(values);
    CountSortUnstable(values, k);
    CountValues(remote, n, k);
    CountBounds(sorted, k, f + 1);
  }

  /** A replica confirming more never lowers it. */
  lemma ConfirmedOfGrows(remote: map<ReplicaIndex, nat>, remote': map<ReplicaIndex, nat>, n: nat, f: nat)
    requires Replicas(n) <= remote.Keys && Replicas(n) <= remote'.Keys && f < n
    requires forall i :: i in Replicas(n) ==> remote[i] <= remote'[i]
    ensures ConfirmedOf(remote, n, f) <= ConfirmedOf(remote', n, f)
  {
    var k := ConfirmedOf(remote, n, f);
    ConfirmedOfIsGreatest(remote, n, f);
    ConfirmedOfIsGreatest(remote', n, f);
    SubsetSize(ConfirmedBy(remote, n, k), ConfirmedBy(remote', n, k));
  }
}
