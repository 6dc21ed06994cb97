/** The three-chain rule over one block tree: which blocks commit, in which order, and why the order in
    which commits are attempted does not matter. */
module CommitRule {
  import opened Types
  import opened Ordered

  type Tree = map<Hash, Block>

  predicate Keyed(t: Tree) {
    forall h :: h in t ==> t[h].hash == h
  }

  predicate IsFirstChild(t: Tree, p: Hash, c: Hash) {
    && c in t && t[c].parent == Some(p)
    && forall d :: d in t && t[d].parent == Some(p) ==> c <= d
  }

  /** h <- c [certificate] <- g [certificate], where c and g are the first children in hash order. */
  ghost predicate ThreeChain(t: Tree, h: Hash, c: Hash, g: Hash) {
    && h in t
    && IsFirstChild(t, h, c) && t[c].qc.Some?
    && IsFirstChild(t, c, g) && t[g].qc.Some?
  }

  ghost predicate Head(t: Tree, h: Hash) {
    exists c, g :: ThreeChain(t, h, c, g)
  }

  ghost function Heads(t: Tree): (s: set<Hash>)
    ensures forall h :: h in s <==> Head(t, h)
  {
    set h | h in t && Head(t, h)
  }

  function Hashes(log: seq<Block>): (r: seq<Hash>)
    ensures |r| == |log|
    ensures forall i :: 0 <= i < |log| ==> r[i] == log[i].hash
  {
    seq(|log|, i requires 0 <= i < |log| => log[i].hash)
  }

  function Committed(log: seq<Block>): set<Hash> {
    set b | b in log :: b.hash
  }

  function BlocksAt(t: Tree, hashes: seq<Hash>): (r: seq<Block>)
    requires forall i :: 0 <= i < |hashes| ==> hashes[i] in t
    ensures |r| == |hashes|
    ensures forall i :: 0 <= i < |r| ==> r[i] == t[hashes[i]]
  {
    seq(|hashes|, i requires 0 <= i < |hashes| => t[hashes[i]])
  }

  /** The three-chain heads the log does not hold yet. */
  ghost function Pending(t: Tree, log: seq<Block>): set<Hash> {
    Heads(t) - Committed(log)
  }

  /** What committing everything appends: the pending heads, ascending. One pass, no rescan. */
  ghost function Commits(t: Tree, log: seq<Block>): seq<Block> {
    BlocksAt(t, Ascending(Pending(t, log)))
  }

  lemma CommittedOf(t: Tree, hashes: seq<Hash>)
    requires Keyed(t)
    requires forall i :: 0 <= i < |hashes| ==> hashes[i] in t
    ensures Committed(BlocksAt(t, hashes)) == ToSet(hashes)
    ensures Hashes(BlocksAt(t, hashes)) == hashes
  {
    var bs := BlocksAt(t, hashes);
    forall h | h in hashes ensures h in Committed(bs) {
      var i :| 0 <= i < |hashes| && hashes[i] == h;
      assert bs[i] in bs && bs[i].hash == h;
    }
    forall h | h in Committed(bs) ensures h in hashes {
      var i :| 0 <= i < |bs| && bs[i].hash == h;
      assert hashes[i] == h;
    }
  }

  lemma BlocksAtConcat(t: Tree, a: seq<Hash>, b: seq<Hash>)
    requires forall i :: 0 <= i < |a| ==> a[i] in t
    requires forall i :: 0 <= i < |b| ==> b[i] in t
    ensures BlocksAt(t, a + b) == BlocksAt(t, a) + BlocksAt(t, b)
  {
  }

  /** Prefix-related hash lists name prefix-related block lists, in trees that agree. */
  lemma BlocksAtPrefix(s: Tree, t: Tree, a: seq<Hash>, b: seq<Hash>)
    requires a <= b || b <= a
    requires forall i :: 0 <= i < |a| ==> a[i] in s && a[i] in t && s[a[i]] == t[a[i]]
    requires forall i :: 0 <= i < |b| ==> b[i] in t
    ensures BlocksAt(s, a) <= BlocksAt(t, b) || BlocksAt(t, b) <= BlocksAt(s, a)
  {
  }

  lemma PrefixesOfOne<T>(a: seq<T>, b: seq<T>, c: seq<T>)
    requires a <= c && b <= c
    ensures a <= b || b <= a
  {
    if |a| <= |b| { assert b[..|a|] == c[..|a|]; } else { assert a[..|b|] == c[..|b|]; }
  }

  lemma CommittedBlocks(t: Tree, part: set<Hash>)
    requires Keyed(t) && part <= t.Keys
    ensures Committed(BlocksAt(t, Ascending(part))) == part
    ensures Hashes(BlocksAt(t, Ascending(part))) == Ascending(part)
  {
    CommittedOf(t, Ascending(part));
    AscendingElements(part);
  }

  lemma CommittedConcat(a: seq<Block>, b: seq<Block>)
    ensures Committed(a + b) == Committed(a) + Committed(b)
  {
    forall h | h in Committed(a) + Committed(b) ensures h in Committed(a + b) {
      var x :| (x in a || x in b) && x.hash == h;
      assert x in a + b;
    }
  }

  /** Committing the least pending head first and rescanning gives the same list. */
  lemma CommitsStep(t: Tree, log: seq<Block>)
    requires Keyed(t) && Pending(t, log) != {}
    ensures var b := t[Least(Pending(t, log))];
            && Pending(t, log + [b]) == Pending(t, log) - {b.hash}
            && Commits(t, log) == [b] + Commits(t, log + [b])
  {
    hide Head;
    var p := Pending(t, log);
    var b := t[Least(p)];
    CommittedConcat(log, [b]);
    assert Committed([b]) == {b.hash};
    assert Pending(t, log + [b]) == p - {b.hash};
    BlocksAtConcat(t, [Least(p)], Ascending(p - {b.hash}));
    assert BlocksAt(t, [Least(p)]) == [b];
  }

  /** After committing everything no head is pending, and nothing was committed twice. */
  lemma CommitsFixpoint(t: Tree, log: seq<Block>)
    requires Keyed(t)
    ensures Pending(t, log + Commits(t, log)) == {}
    ensures Commits(t, log + Commits(t, log)) == []
    ensures Committed(log) !! Committed(Commits(t, log))
  {
    CommittedBlocks(t, Pending(t, log));
    CommittedConcat(log, Commits(t, log));
  }

  // ----- Schedule independence -----

  /** Blocks arrive one by one; commits are attempted at any point in between. */
  datatype Event = Arrive(block: Block) | CommitNow

  function Insert(t: Tree, b: Block): Tree {
    t[b.hash := b]
  }

  function InsertAll(t: Tree, blocks: seq<Block>): Tree {
    if blocks == [] then t
    else Insert(InsertAll(t, blocks[..|blocks| - 1]), blocks[|blocks| - 1])
  }

  function Arrivals(events: seq<Event>): seq<Block> {
    if events == [] then []
    else
      var init := Arrivals(events[..|events| - 1]);
      match events[|events| - 1]
      case Arrive(b) => init + [b]
      case CommitNow => init
  }

  function TreeAfter(t: Tree, events: seq<Event>): Tree {
    InsertAll(t, Arrivals(events))
  }

  ghost function LogAfter(t: Tree, events: seq<Event>): seq<Block> {
    if events == [] then []
    else
      var init := events[..|events| - 1];
      var log := LogAfter(t, init);
      match events[|events| - 1]
      case Arrive(_) => log
      case CommitNow => log + Commits(TreeAfter(t, init), log)
  }

  /** b may arrive next: its hash is new and the largest, its parent is present and not before an earlier one. */
  predicate Next(t: Tree, b: Block) {
    && (forall h :: h in t ==> h < b.hash)
    && (b.parent.Some? ==>
          && b.parent.value in t
          && forall h :: h in t && t[h].parent.Some? ==> t[h].parent.value <= b.parent.value)
  }

  predicate InOrder(t: Tree, blocks: seq<Block>) {
    blocks == [] ||
    var init := blocks[..|blocks| - 1];
    InOrder(t, init) && Next(InsertAll(t, init), blocks[|blocks| - 1])
  }

  /** Trees built by in-order arrivals. */
  predicate Grown(t: Tree) {
    && Keyed(t)
    && (forall h :: h in t && t[h].parent.Some? ==> t[h].parent.value in t && t[h].parent.value < h)
    && (forall g, h :: g in t && h in t && g < h && t[g].parent.Some? && t[h].parent.Some?
          ==> t[g].parent.value <= t[h].parent.value)
  }

  lemma GrownInsert(t: Tree, b: Block)
    requires Grown(t) && Next(t, b)
    ensures Grown(Insert(t, b))
  {
  }

  /** A first child stays the first child when a larger hash arrives. */
  lemma FirstChildStable(t: Tree, b: Block, p: Hash, c: Hash)
    requires Next(t, b) && IsFirstChild(t, p, c)
    ensures IsFirstChild(Insert(t, b), p, c)
  {
  }

  lemma HeadStable(t: Tree, b: Block, h: Hash)
    requires Next(t, b) && Head(t, h)
    ensures Head(Insert(t, b), h)
  {
    var c, g :| ThreeChain(t, h, c, g);
    FirstChildStable(t, b, h, c);
    FirstChildStable(t, b, c, g);
    assert ThreeChain(Insert(t, b), h, c, g);
  }

  /** A head that an arrival creates is larger than every head there was. */
  lemma NewHeadLarger(t: Tree, b: Block, earlier: Hash, later: Hash)
    requires Grown(t) && Next(t, b)
    requires Head(t, earlier) && Head(Insert(t, b), later) && !Head(t, later)
    ensures earlier < later
  {
    var t' := Insert(t, b);
    var c, g :| ThreeChain(t, earlier, c, g);
    var c', g' :| ThreeChain(t', later, c', g');
    assert forall d :: d in t ==> d in t' && t'[d] == t[d];
    assert c' != b.hash && c' in t;
    assert IsFirstChild(t, later, c');
    if g' in t {
      assert IsFirstChild(t, c', g') && ThreeChain(t, later, c', g');
    }
    assert g' == b.hash;
    FirstChildStable(t, b, c, g);
    assert c <= c' && c != c';
    assert earlier <= later;
  }

  /** Every head of s that is not a head of t lies above all heads of t. */
  ghost predicate HeadsExtend(t: Tree, s: Tree) {
    && Heads(t) <= Heads(s)
    && forall x, y :: x in Heads(t) && y in Heads(s) && y !in Heads(t) ==> x < y
  }

  lemma HeadsExtendInsert(t: Tree, b: Block)
    requires Grown(t) && Next(t, b)
    ensures HeadsExtend(t, Insert(t, b))
  {
    forall h | h in Heads(t) ensures h in Heads(Insert(t, b)) { HeadStable(t, b, h); }
    forall x, y | x in Heads(t) && y in Heads(Insert(t, b)) && y !in Heads(t) ensures x < y {
      NewHeadLarger(t, b, x, y);
    }
  }

  lemma HeadsExtendTrans(r: Tree, s: Tree, t: Tree)
    requires HeadsExtend(r, s) && HeadsExtend(s, t)
    ensures HeadsExtend(r, t)
  {
  }

  /** A part of the heads such that all other heads lie above it lists as a prefix of all of them. */
  lemma LowerPrefix(part: set<Hash>, all: set<Hash>)
    requires part <= all
    requires forall x, y :: x in part && y in all && y !in part ==> x < y
    ensures Ascending(part) <= Ascending(all)
    ensures Ascending(all) == Ascending(part) + Ascending(all - part)
  {
    AscendingConcat(part, all - part);
    assert part + (all - part) == all;
  }

  /** The invariant of any interleaving: the log is the ascending list of a lower part of the heads. */
  ghost predicate LogIsLowerPart(t: Tree, log: seq<Block>, part: set<Hash>) {
    && part <= Heads(t)
    && (forall x, y :: x in part && y in Heads(t) && y !in part ==> x < y)
    && log == BlocksAt(t, Ascending(part))
  }

  lemma LowerPartCommits(t: Tree, log: seq<Block>, part: set<Hash>)
    requires Grown(t) && LogIsLowerPart(t, log, part)
    ensures LogIsLowerPart(t, log + Commits(t, log), Heads(t))
  {
    CommittedBlocks(t, part);
    LowerPrefix(part, Heads(t));
    BlocksAtConcat(t, Ascending(part), Ascending(Heads(t) - part));
  }

  lemma LowerPartArrives(t: Tree, b: Block, log: seq<Block>, part: set<Hash>)
    requires Grown(t) && Next(t, b) && LogIsLowerPart(t, log, part)
    ensures LogIsLowerPart(Insert(t, b), log, part)
  {
    HeadsExtendInsert(t, b);
    InsertKeeps(t, b);
    hide Head, Grown, Ascending, Next, Insert;
    assert forall h :: h in part ==> h in t;
    SameBlocksAt(t, Insert(t, b), Ascending(part));
  }

  lemma InsertKeeps(t: Tree, b: Block)
    requires Next(t, b)
    ensures forall h :: h in t ==> h in Insert(t, b) && Insert(t, b)[h] == t[h]
  {
  }

  lemma SameBlocksAt(s: Tree, t: Tree, hashes: seq<Hash>)
    requires forall h :: h in s ==> h in t && t[h] == s[h]
    requires forall i :: 0 <= i < |hashes| ==> hashes[i] in s
    ensures BlocksAt(t, hashes) == BlocksAt(s, hashes)
  {
  }

  lemma {:induction false} GrownAll(t: Tree, blocks: seq<Block>)
    requires Grown(t) && InOrder(t, blocks)
    ensures Grown(InsertAll(t, blocks))
    decreases |blocks|
  {
    if blocks != [] {
      var init := blocks[..|blocks| - 1];
      GrownAll(t, init);
      GrownInsert(InsertAll(t, init), blocks[|blocks| - 1]);
    }
  }

  /** A longer in-order sequence only adds blocks, and only larger heads. */
  lemma {:induction false} LongerSequence(t: Tree, a: seq<Block>, b: seq<Block>)
    requires Grown(t) && InOrder(t, b) && a <= b
    ensures InOrder(t, a)
    ensures HeadsExtend(InsertAll(t, a), InsertAll(t, b))
    ensures forall h :: h in InsertAll(t, a) ==> h in InsertAll(t, b) && InsertAll(t, b)[h] == InsertAll(t, a)[h]
    decreases |b|
  {
    if a != b {
      var init := b[..|b| - 1];
      var mid := InsertAll(t, init);
      LongerSequence(t, a, init);
      GrownAll(t, init);
      HeadsExtendInsert(mid, b[|b| - 1]);
      HeadsExtendTrans(InsertAll(t, a), mid, InsertAll(t, b));
    }
  }

  lemma {:induction false} RunInvariant(t: Tree, events: seq<Event>) returns (part: set<Hash>)
    requires Grown(t) && InOrder(t, Arrivals(events))
    ensures LogIsLowerPart(TreeAfter(t, events), LogAfter(t, events), part)
    ensures events != [] && events[|events| - 1].CommitNow? ==> part == Heads(TreeAfter(t, events))
    decreases |events|
  {
    if events == [] {
      part := {};
    } else {
      var init := events[..|events| - 1];
      var mid := TreeAfter(t, init);
      match events[|events| - 1]
      case Arrive(b) =>
        assert Arrivals(events)[..|Arrivals(events)| - 1] == Arrivals(init);
        part := RunInvariant(t, init);
        GrownAll(t, Arrivals(init));
        LowerPartArrives(mid, b, LogAfter(t, init), part);
      case CommitNow =>
        var before := RunInvariant(t, init);
        GrownAll(t, Arrivals(init));
        LowerPartCommits(mid, LogAfter(t, init), before);
        part := Heads(mid);
    }
  }

  /** Whatever the interleaving, the log ascends strictly and is a prefix of the list of all heads; a run
      that ends with a commit holds all of them. */
  lemma ScheduleIndependence(t: Tree, events: seq<Event>)
    requires Grown(t) && InOrder(t, Arrivals(events))
    ensures var log, heads := Hashes(LogAfter(t, events)), Ascending(Heads(TreeAfter(t, events)));
            && StrictlyAscending(log)
            && log <= heads
            && (events != [] && events[|events| - 1].CommitNow? ==> log == heads)
  {
    var part := RunInvariant(t, events);
    GrownAll(t, Arrivals(events));
    CommittedBlocks(TreeAfter(t, events), part);
    AscendingSorted(part);
    LowerPrefix(part, Heads(TreeAfter(t, events)));
  }

  lemma LowerParts(s: Tree, x: seq<Block>, p: set<Hash>, t: Tree, y: seq<Block>, q: set<Hash>)
    requires LogIsLowerPart(s, x, p) && LogIsLowerPart(t, y, q)
    requires HeadsExtend(s, t)
    requires forall h :: h in s ==> h in t && t[h] == s[h]
    ensures x <= y || y <= x
  {
    var a, b := Ascending(p), Ascending(q);
    assert a <= Ascending(Heads(t)) by {
      LowerPrefix(p, Heads(s));
      LowerPrefix(Heads(s), Heads(t));
    }
    assert b <= Ascending(Heads(t)) by { LowerPrefix(q, Heads(t)); }
    PrefixesOfOne(a, b, Ascending(Heads(t)));
    BlocksAtPrefix(s, t, a, b);
  }

  /** Two replicas that have received different amounts of one block sequence, and attempted commits at
      whatever moments, hold logs of which one is a prefix of the other. */
  lemma PrefixRelated(t: Tree, a: seq<Event>, b: seq<Event>)
    requires Grown(t) && InOrder(t, Arrivals(b))
    requires Arrivals(a) <= Arrivals(b)
    ensures LogAfter(t, a) <= LogAfter(t, b) || LogAfter(t, b) <= LogAfter(t, a)
  {
    LongerSequence(t, Arrivals(a), Arrivals(b));
    var pa := RunInvariant(t, a);
    var pb := RunInvariant(t, b);
    LowerParts(TreeAfter(t, a), LogAfter(t, a), pa, TreeAfter(t, b), LogAfter(t, b), pb);
  }

  // ----- Which blocks can still commit -----

  predicate Childless(t: Tree, p: Hash) {
    forall d :: d in t ==> t[d].parent != Some(p)
  }

  /** A later block than p has been used as a parent, so no further block in order can extend p. */
  ghost predicate PassedBy(t: Tree, p: Hash) {
    exists x :: x in t && t[x].parent.Some? && p < t[x].parent.value
  }

  /** The first child c does not make its parent commit, and never will: it carries no certificate, or neither does
      its own first child, or it has no child and can get none. */
  ghost predicate DeadEnd(t: Tree, c: Hash)
    requires c in t
  {
    || t[c].qc.None?
    || (Childless(t, c) && PassedBy(t, c))
    || exists g :: IsFirstChild(t, c, g) && t[g].qc.None?
  }

  /** h has no child and can get none, or its first child is a dead end. */
  ghost predicate Stuck(t: Tree, h: Hash) {
    || (Childless(t, h) && PassedBy(t, h))
    || exists c :: IsFirstChild(t, h, c) && DeadEnd(t, c)
  }

  lemma HasFirstChild(t: Tree, p: Hash) returns (c: Hash)
    requires !Childless(t, p)
    ensures IsFirstChild(t, p, c)
  {
    var children := set d | d in t && t[d].parent == Some(p);
    var d :| d in t && t[d].parent == Some(p);
    assert d in children;
    c := Least(children);
    forall e | e in t && t[e].parent == Some(p) ensures c <= e { assert e in children; }
  }

  lemma StaysPassedBy(t: Tree, b: Block, p: Hash)
    requires Next(t, b) && Childless(t, p) && PassedBy(t, p)
    ensures Childless(Insert(t, b), p) && PassedBy(Insert(t, b), p)
  {
    var x :| x in t && t[x].parent.Some? && p < t[x].parent.value;
    assert Insert(t, b)[x] == t[x];
  }

  lemma StaysDeadEnd(t: Tree, b: Block, c: Hash)
    requires Next(t, b) && c in t && DeadEnd(t, c)
    ensures DeadEnd(Insert(t, b), c)
  {
    if Childless(t, c) && PassedBy(t, c) {
      StaysPassedBy(t, b, c);
    } else if t[c].qc.Some? {
      var g :| IsFirstChild(t, c, g) && t[g].qc.None?;
      FirstChildStable(t, b, c, g);
    }
  }

  lemma StaysStuck(t: Tree, b: Block, h: Hash)
    requires Next(t, b) && Stuck(t, h)
    ensures Stuck(Insert(t, b), h)
  {
    if Childless(t, h) && PassedBy(t, h) {
      StaysPassedBy(t, b, h);
    } else {
      var c :| IsFirstChild(t, h, c) && DeadEnd(t, c);
      FirstChildStable(t, b, h, c);
      StaysDeadEnd(t, b, c);
    }
  }

  lemma HeadIsNotStuck(t: Tree, h: Hash)
    requires Head(t, h)
    ensures !Stuck(t, h)
  {
    var c, g :| ThreeChain(t, h, c, g);
    assert t[c].parent == Some(h) && t[g].parent == Some(c);
    forall d | IsFirstChild(t, h, d) ensures !DeadEnd(t, d) {
      assert d == c;
      forall e | IsFirstChild(t, c, e) ensures t[e].qc.Some? { assert e == g; }
    }
  }

  /** A stuck block never commits, whatever arrives later. */
  lemma {:induction false} StuckForever(t: Tree, h: Hash, blocks: seq<Block>)
    requires Stuck(t, h) && InOrder(t, blocks)
    ensures Stuck(InsertAll(t, blocks), h) && !Head(InsertAll(t, blocks), h)
    decreases |blocks|
  {
    if blocks != [] {
      var init := blocks[..|blocks| - 1];
      StuckForever(t, h, init);
      StaysStuck(InsertAll(t, init), blocks[|blocks| - 1], h);
    }
    if Head(InsertAll(t, blocks), h) { HeadIsNotStuck(InsertAll(t, blocks), h); }
  }

  lemma Above(t: Tree) returns (m: Hash)
    ensures forall h :: h in t ==> h < m
  {
    AscendingSorted(t.Keys);
    var ids := Ascending(t.Keys);
    m := if ids == [] then 0 else ids[|ids| - 1] + 1;
    forall h | h in t ensures h < m { assert h in ids; }
  }

  /** A block with a certificate that extends a childless block becomes its first child. */
  lemma ExtendsNext(t: Tree, p: Hash, b: Block)
    requires p in t && Childless(t, p) && !PassedBy(t, p) && forall h :: h in t ==> h < b.hash
    requires b.parent == Some(p)
    ensures Next(t, b) && IsFirstChild(Insert(t, b), p, b.hash)
  {
  }

  /** Once everything pending is committed, the log holds what it held and all heads. */
  lemma CommitsHeads(t: Tree, log: seq<Block>)
    requires Keyed(t)
    ensures Committed(log + Commits(t, log)) == Committed(log) + Heads(t)
  {
    hide Head;
    CommittedBlocks(t, Pending(t, log));
    CommittedConcat(log, Commits(t, log));
  }
}
