/** Majorities of a cluster, as elections and the commit loop count them. */
module Quorums {
  import opened Sets

  type NodeId = int

  /** The number of votes, or of copies, that a cluster of `size` nodes asks for. */
  function MajoritySize(size: nat): nat {
    size / 2 + 1
  }

  predicate IsMajority(ids: set<NodeId>, q: set<NodeId>) {
    q <= ids && |q| >= MajoritySize(|ids|)
  }

  /** The quorum the commit loop asks for while the nodes in `removing` are being removed:
      they are counted neither in the quorum nor in the size it is taken from. */
  predicate IsCommitQuorum(ids: set<NodeId>, removing: set<NodeId>, q: set<NodeId>) {
    q <= ids - removing && |q| >= MajoritySize(|ids - removing|)
  }

  lemma SubsetSize<T>(a: set<T>, b: set<T>)
    requires a <= b
    ensures |a| <= |b|
    ensures |b - a| == |b| - |a|
  {
    assert b == a + (b - a);
  }

  lemma DisjointSize<T>(a: set<T>, b: set<T>, all: set<T>)
    requires a <= all && b <= all && a * b == {}
    ensures |a| + |b| <= |all|
  {
    assert |a + b| == |a| + |b| - |a * b|;
    SubsetSize(a + b, all);
  }

  /** Two subsets too large to be disjoint share an element. */
  lemma Meet<T>(a: set<T>, b: set<T>, all: set<T>) returns (x: T)
    requires a <= all && b <= all && |a| + |b| > |all|
    ensures x in a && x in b
  {
    if a * b == {} {
      DisjointSize(a, b, all);
    }
    x := Any(a * b);
  }

  /** Two majorities of one cluster share a node. */
  lemma MajoritiesMeet(ids: set<NodeId>, a: set<NodeId>, b: set<NodeId>) returns (x: NodeId)
    requires IsMajority(ids, a) && IsMajority(ids, b)
    ensures x in a && x in b
  {
    x := Meet(a, b, ids);
  }

  /** Every election majority meets every commit quorum. */
  ghost predicate QuorumsAlwaysMeet(ids: set<NodeId>, removing: set<NodeId>) {
    forall v, q :: IsMajority(ids, v) && IsCommitQuorum(ids, removing, q) ==> !(v !! q)
  }

  /** Election majorities keep meeting the commit quorums while nodes are being removed exactly when
      at most one node is marked, or two are and the cluster is even. */
  lemma RemovalOverlapExact(ids: set<NodeId>, removing: set<NodeId>)
    requires removing < ids
    ensures QuorumsAlwaysMeet(ids, removing)
            <==> |removing| <= 1 || (|removing| == 2 && |ids| % 2 == 0)
  {
    SubsetSize(removing, ids);
    if |removing| <= 1 || (|removing| == 2 && |ids| % 2 == 0) {
      forall v, q | IsMajority(ids, v) && IsCommitQuorum(ids, removing, q) ensures !(v !! q) {
        if v * q == {} {
          DisjointSize(v, q, ids);
        }
      }
    } else {
      var q := Choose(ids - removing, MajoritySize(|ids - removing|));
      SubsetSize(q, ids);
      assert IsMajority(ids, ids - q);
      assert IsCommitQuorum(ids, removing, q);
      assert (ids - q) !! q;
    }
  }

  /** A subset of any wanted size. */
  lemma Choose<T>(s: set<T>, k: nat) returns (r: set<T>)
    requires k <= |s|
    ensures r <= s && |r| == k
  {
    r := {};
    var rest := s;
    while |r| < k
      invariant r <= s && |r| <= k && rest == s - r
      decreases k - |r|
    {
      SubsetSize(r, s);
      var x :| x in rest;
      r := r + {x};
      rest := rest - {x};
    }
  }

  /** Majorities before and after one node joins share a node. */
  lemma GrowthOverlap(ids: set<NodeId>, joined: NodeId, a: set<NodeId>, b: set<NodeId>) returns (x: NodeId)
    requires joined !in ids
    requires IsMajority(ids, a) && IsMajority(ids + {joined}, b)
    ensures x in a && x in b
  {
    x := Meet(a, b, ids + {joined});
  }
}
