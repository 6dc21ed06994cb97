/** Fault threshold, quorum size and how quorums intersect, within and across membership epochs. */
module Quorum {
  import opened Types

  /** Fault threshold of an active set of n validators. */
  function F(n: nat): nat {
    if n == 0 then 0 else (n - 1) / 3
  }

  function Size(n: nat): nat {
    2 * F(n) + 1
  }

  predicate IsQuorum(q: set<ReplicaId>, validators: set<ReplicaId>) {
    q <= validators && |q| >= Size(|validators|)
  }

  lemma Overlap(a: set<ReplicaId>, b: set<ReplicaId>, all: set<ReplicaId>)
    requires a + b <= all
    ensures |a * b| >= |a| + |b| - |all|
  {
    assert |a + b| == |a| + |b| - |a * b|;
    Subset(a + b, all);
  }

  lemma Subset(a: set<nat>, b: set<nat>)
    requires a <= b
    ensures |a| <= |b|
  {
    assert b == a + (b - a);
  }

  /** Any k elements can be taken from a set of at least k. */
  lemma {:induction false} Take(s: set<ReplicaId>, k: nat) returns (t: set<ReplicaId>)
    requires k <= |s|
    ensures t <= s && |t| == k
    decreases k
  {
    if k == 0 {
      t := {};
    } else {
      var u := Take(s, k - 1);
      assert s - u != {} by {
        assert s == (s - u) + u;
      }
      var x :| x in s - u;
      t := u + {x};
    }
  }

  ghost predicate QuorumsShareMoreThanF(validators: set<ReplicaId>) {
    forall a, b :: IsQuorum(a, validators) && IsQuorum(b, validators) ==> |a * b| >= F(|validators|) + 1
  }

  /** The classic intersection bound, f+1 common members, holds of this quorum size exactly when n = 3f+1. */
  lemma IntersectionIffThreeFPlusOne(validators: set<ReplicaId>)
    requires validators != {}
    ensures QuorumsShareMoreThanF(validators) <==> |validators| % 3 == 1
  {
    var n := |validators|;
    var q := Size(n);
    if n % 3 == 1 {
      forall a, b | IsQuorum(a, validators) && IsQuorum(b, validators)
        ensures |a * b| >= F(n) + 1
      {
        Overlap(a, b, validators);
      }
    } else {
      var a := Take(validators, q);
      assert |validators - a| == n - q;
      var rest := validators - a;
      var other := Take(rest, if q <= n - q then q else n - q);
      var common := Take(a, q - |other|);
      var b := other + common;
      assert |b| == q;
      assert a * b == common;
      assert IsQuorum(a, validators) && IsQuorum(b, validators);
      assert |a * b| < F(n) + 1;
    }
  }

  /** The size test a membership command has to pass. */
  predicate CanApplyCount(n: nat) {
    n >= 4 && n % 3 == 1
  }

  /** Across an accepted change by one validator, an old and a new quorum share at least the old f members. */
  lemma CrossEpochIntersection(before: set<ReplicaId>, after: set<ReplicaId>, id: ReplicaId,
                               a: set<ReplicaId>, b: set<ReplicaId>)
    requires CanApplyCount(|after|)
    requires (id !in before && after == before + {id}) || (id in before && after == before - {id})
    requires IsQuorum(a, before) && IsQuorum(b, after)
    ensures |a * b| >= F(|before|)
  {
    if id !in before {
      Overlap(a, b, after);
    } else {
      Overlap(a, b, before);
    }
  }

  /** That bound is tight: some old and some new quorum share exactly the old f members. */
  lemma CrossEpochTight(before: set<ReplicaId>, after: set<ReplicaId>, id: ReplicaId)
    returns (a: set<ReplicaId>, b: set<ReplicaId>)
    requires CanApplyCount(|after|)
    requires (id !in before && after == before + {id}) || (id in before && after == before - {id})
    ensures IsQuorum(a, before) && IsQuorum(b, after) && |a * b| == F(|before|)
  {
    if id !in before {
      a, b := TouchingQuorums(before, after, Size(|before|), Size(|after|));
    } else {
      b, a := TouchingQuorums(after, before, Size(|after|), Size(|before|));
      assert a * b == b * a;
    }
  }

  /** A set of x members of the smaller set and one of y members of the larger that overlap as little as they
      can. */
  lemma TouchingQuorums(small: set<ReplicaId>, large: set<ReplicaId>, x: nat, y: nat)
    returns (a: set<ReplicaId>, b: set<ReplicaId>)
    requires small <= large && x <= |small| && |large| <= x + y && y <= |large|
    ensures a <= small && |a| == x && b <= large && |b| == y && |a * b| == x + y - |large|
  {
    a := Take(small, x);
    var rest := large - a;
    assert |rest| == |large| - x;
    var common := Take(a, y - |rest|);
    b := rest + common;
    assert |b| == |rest| + |common|;
    assert a * b == common;
  }
}
