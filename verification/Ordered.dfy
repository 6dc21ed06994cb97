/** Sets of naturals in ascending order: what iterating a BTreeSet, or the keys of a BTreeMap, visits. */
module Ordered {

  predicate StrictlyAscending(s: seq<nat>) {
    forall i, j :: 0 <= i < j < |s| ==> s[i] < s[j]
  }

  function LeastFrom(s: set<nat>, k: nat, ghost bound: nat): (m: nat)
    requires bound in s && k <= bound
    ensures k <= m && m in s
    ensures forall x :: x in s && k <= x ==> m <= x
    decreases bound - k
  {
    if k in s then k else LeastFrom(s, k + 1, bound)
  }

  function Least(s: set<nat>): (m: nat)
    requires s != {}
    ensures m in s && forall x :: x in s ==> m <= x
  {
    ghost var b: nat :| b in s;
    LeastFrom(s, 0, b)
  }

  /** The elements of s in ascending order. */
  function Ascending(s: set<nat>): (r: seq<nat>)
    ensures |r| == |s|
    ensures forall i :: 0 <= i < |r| ==> r[i] in s
    decreases |s|
  {
    if s == {} then []
    else
      var m := Least(s);
      [m] + Ascending(s - {m})
  }

  lemma {:induction false} AscendingSorted(s: set<nat>)
    ensures StrictlyAscending(Ascending(s))
    ensures forall x :: x in s ==> x in Ascending(s)
    decreases |s|
  {
    if s != {} {
      AscendingSorted(s - {Least(s)});
    }
  }

  function ToSet(s: seq<nat>): set<nat> {
    set x | x in s
  }

  lemma AscendingElements(s: set<nat>)
    ensures ToSet(Ascending(s)) == s
  {
    AscendingSorted(s);
  }

  lemma Inhabited(s: seq<nat>)
    requires s != []
    ensures exists x :: x in s
  {
    assert s[0] in s;
  }

  /** A strictly ascending list is determined by its elements. */
  lemma {:induction false} AscendingUnique(a: seq<nat>, b: seq<nat>)
    requires StrictlyAscending(a) && StrictlyAscending(b)
    requires forall x :: x in a <==> x in b
    ensures a == b
    decreases |a|
  {
    if a != [] {
      assert a[0] in b && b[0] in a;
      assert a[0] == b[0];
      forall x ensures x in a[1..] <==> x in b[1..] {
        if x in a[1..] { assert x in a && x != a[0]; }
        if x in b[1..] { assert x in b && x != b[0]; }
      }
      AscendingUnique(a[1..], b[1..]);
    } else if b != [] {
      Inhabited(b);
      assert false;
    }
  }

  lemma {:induction false} ConcatAscends(l: seq<nat>, r: seq<nat>)
    requires StrictlyAscending(l) && StrictlyAscending(r)
    requires forall x, y :: x in l && y in r ==> x < y
    ensures StrictlyAscending(l + r)
  {
    forall i, j | 0 <= i < j < |l + r| ensures (l + r)[i] < (l + r)[j] {
      if i < |l| <= j { assert l[i] in l && r[j - |l|] in r; }
    }
  }

  /** The list of s is the only strictly ascending one with its elements. */
  lemma AscendingIs(s: set<nat>, r: seq<nat>)
    requires StrictlyAscending(r)
    requires forall x :: x in r <==> x in s
    ensures Ascending(s) == r
  {
    AscendingSorted(s);
    AscendingUnique(Ascending(s), r);
  }

  /** When every element of b is above every element of a, their union lists a first and then b. */
  lemma {:induction false} AscendingConcat(a: set<nat>, b: set<nat>)
    requires forall x, y :: x in a && y in b ==> x < y
    ensures Ascending(a + b) == Ascending(a) + Ascending(b)
  {
    AscendingSorted(a);
    AscendingSorted(b);
    ConcatAscends(Ascending(a), Ascending(b));
    AscendingIs(a + b, Ascending(a) + Ascending(b));
  }

  function Range(lo: nat, hi: nat): (r: seq<nat>)
    ensures |r| == if lo <= hi then hi - lo else 0
    ensures forall i :: 0 <= i < |r| ==> r[i] == lo + i
  {
    if lo <= hi then seq(hi - lo, i => lo + i) else []
  }

  /** The replica ids 0..n-1. */
  function Ids(n: nat): (s: set<nat>)
    ensures forall k :: k in s <==> 0 <= k < n
  {
    var r := Range(0, n);
    assert forall k: nat {:trigger k in r} :: k < n ==> r[k] == k;
    set k | k in r
  }

  lemma {:induction false} AscendingIds(n: nat)
    ensures Ascending(Ids(n)) == Range(0, n)
    ensures |Ids(n)| == n
  {
    AscendingIs(Ids(n), Range(0, n));
    assert |Ascending(Ids(n))| == |Ids(n)|;
  }

  /** Iterating a BTreeMap: visits every key once, in ascending order. */
  method SortedKeys<V>(m: map<nat, V>) returns (keys: seq<nat>)
    ensures keys == Ascending(m.Keys)
  {
    keys := Ascending(m.Keys);
  }
}
