/** Properly signed proposals: a committed block whose parent never commits, and exactly which blocks can commit. */
module Gaps {
  import opened Types
  import opened Ordered
  import opened Crypto
  import opened CommitRule
  import opened ReplicaModel
  import opened Durability
  import opened Runs

  /** What validator i signs for a block: only the holder of its key can make it. */
  function SignatureOf(keys: KeyStore, i: nat, hash: Hash, view: nat): Signature
    requires i in keys.publicKeys
  {
    Signature(i, Made(keys.publicKeys[i], hash, view, 0))
  }

  /** A certificate with the signatures of validators 0, 1 and 2. */
  function Cert(keys: KeyStore, hash: Hash, view: nat): QuorumCert
    requires keys.publicKeys.Keys == Ids(4)
  {
    QuorumCert(hash, view, 0, [SignatureOf(keys, 0, hash, view), SignatureOf(keys, 1, hash, view),
                               SignatureOf(keys, 2, hash, view)])
  }

  /** The proposals replica 3 receives: the third block gets no quorum, so the leader of view 4, which has not seen
      a certificate for it, extends the second block once more. */
  function Proposed(keys: KeyStore): seq<Block>
    requires keys.publicKeys.Keys == Ids(4)
  {
    [Block(1, Some(0), 0, 0, 0, None, NoOp),
     Block(2, Some(1), 1, 0, 1, Some(Cert(keys, 1, 0)), NoOp),
     Block(3, Some(2), 2, 0, 2, Some(Cert(keys, 2, 1)), NoOp),
     Block(4, Some(2), 4, 0, 0, Some(Cert(keys, 2, 1)), NoOp),
     Block(5, Some(4), 5, 0, 1, Some(Cert(keys, 4, 4)), NoOp),
     Block(6, Some(5), 6, 0, 2, Some(Cert(keys, 5, 5)), NoOp)]
  }

  function Receives(bs: seq<Block>): (moves: seq<Move>)
    ensures |moves| == |bs|
  {
    seq(|bs|, i requires 0 <= i < |bs| => Do(ReceiveBlock(bs[i])))
  }

  /** What a replica's verdict on a proposal depends on. */
  ghost predicate Holds(s: ReplicaState, keys: KeyStore, t: Tree) {
    && s.blockTree == t && s.committedLog == [] && s.committedUpTo == None
    && s.activeValidators == Ids(4) && s.configEpoch == 0 && s.keystore == keys
  }

  predicate Fitting(t: Tree, keys: KeyStore, b: Block)
    requires keys.publicKeys.Keys == Ids(4)
  {
    && b.proposer == b.view % 4 && b.epoch == 0
    && (b.parent.Some? ==> b.parent.value in t)
    && (b.qc.Some? ==> b.qc.value == Cert(keys, b.qc.value.blockHash, b.qc.value.view) && b.qc.value.blockHash in t)
  }

  lemma CertCertifies(keys: KeyStore, hash: Hash, view: nat)
    requires keys.publicKeys.Keys == Ids(4)
    ensures Certified(keys, Cert(keys, hash, view), 3)
  {
    DistinctValidCount(keys, Cert(keys, hash, view));
  }

  lemma Accepts(s: ReplicaState, keys: KeyStore, t: Tree, b: Block)
    requires keys.publicKeys.Keys == Ids(4) && Holds(s, keys, t) && Fitting(t, keys, b)
    ensures s.ValidProposal(b)
  {
    AscendingIds(4);
    if b.qc.Some? { CertCertifies(keys, b.qc.value.blockHash, b.qc.value.view); }
  }

  lemma ReceiveOne(s: ReplicaState, keys: KeyStore, t: Tree, b: Block)
    requires keys.publicKeys.Keys == Ids(4) && Holds(s, keys, t) && Fitting(t, keys, b)
    ensures var m := Do(ReceiveBlock(b)); GoesOn(s, m) && Holds(Moved(s, m), keys, Insert(t, b))
  {
    Accepts(s, keys, t, b);
    hide ReplicaState.ValidProposal;
  }

  lemma {:induction false} RunLast(s: ReplicaState, moves: seq<Move>, m: Move)
    ensures Run(s, moves + [m]) == Moved(Run(s, moves), m)
    ensures Survives(s, moves + [m]) <==> Survives(s, moves) && GoesOn(Run(s, moves), m)
    decreases |moves|
  {
    hide Moved, GoesOn;
    if moves == [] {
      assert moves + [m] == [m] && [m][1..] == [];
    } else {
      RunLast(Moved(s, moves[0]), moves[1..], m);
      assert (moves + [m])[1..] == moves[1..] + [m];
    }
  }

  lemma InsertLast(t: Tree, bs: seq<Block>)
    requires bs != []
    ensures InsertAll(t, bs) == Insert(InsertAll(t, bs[..|bs| - 1]), bs[|bs| - 1])
  {
  }

  lemma {:induction false} ReceivesAll(s: ReplicaState, keys: KeyStore, t: Tree, bs: seq<Block>)
    requires keys.publicKeys.Keys == Ids(4) && Holds(s, keys, t)
    requires forall i :: 0 <= i < |bs| ==> Fitting(InsertAll(t, bs[..i]), keys, bs[i])
    ensures Survives(s, Receives(bs)) && Holds(Run(s, Receives(bs)), keys, InsertAll(t, bs))
    decreases |bs|
  {
    if bs != [] {
      hide Holds, Fitting, Moved, GoesOn, Run, Survives, InsertAll;
      InsertLast(t, bs);
      var n := |bs| - 1;
      forall i | 0 <= i < n ensures Fitting(InsertAll(t, bs[..n][..i]), keys, bs[..n][i]) {
        assert bs[..n][..i] == bs[..i];
      }
      ReceivesAll(s, keys, t, bs[..n]);
      ReceiveOne(Run(s, Receives(bs[..n])), keys, InsertAll(t, bs[..n]), bs[n]);
      RunLast(s, Receives(bs[..n]), Do(ReceiveBlock(bs[n])));
      assert Receives(bs) == Receives(bs[..n]) + [Do(ReceiveBlock(bs[n]))];
    }
  }

  // ----- The tree these proposals build -----

  function Start(): Tree {
    map[0 := GENESIS]
  }

  /** The tree after the first i proposals. */
  function Built(keys: KeyStore, i: nat): Tree
    requires keys.publicKeys.Keys == Ids(4) && i <= 6
  {
    InsertAll(Start(), Proposed(keys)[..i])
  }

  lemma BuiltStep(keys: KeyStore, i: nat)
    requires keys.publicKeys.Keys == Ids(4) && i < 6
    ensures Built(keys, i + 1) == Built(keys, i)[i + 1 := Proposed(keys)[i]]
  {
    var bs := Proposed(keys);
    assert bs[..i + 1][..i] == bs[..i];
    assert bs[i].hash == i + 1;
  }

  lemma BuiltHolds(keys: KeyStore, i: nat)
    requires keys.publicKeys.Keys == Ids(4) && i <= 6
    ensures Built(keys, i).Keys == Ids(i + 1) && Built(keys, i)[0] == GENESIS
    ensures forall h: nat :: 1 <= h <= i ==> Built(keys, i)[h] == Proposed(keys)[h - 1]
    decreases i
  {
    if i > 0 {
      BuiltHolds(keys, i - 1);
      BuiltStep(keys, i - 1);
    } else {
      assert Proposed(keys)[..0] == [];
    }
  }

  lemma ProposalsFit(keys: KeyStore, i: nat)
    requires keys.publicKeys.Keys == Ids(4) && i < 6
    ensures Fitting(Built(keys, i), keys, Proposed(keys)[i])
    ensures Next(Built(keys, i), Proposed(keys)[i])
  {
    BuiltHolds(keys, i);
    hide Built, Cert;
  }

  lemma BuiltGrown(keys: KeyStore, i: nat)
    requires keys.publicKeys.Keys == Ids(4) && i <= 6
    ensures Grown(Built(keys, i))
  {
    if i > 0 {
      BuiltGrown(keys, i - 1);
      ProposalsFit(keys, i - 1);
      BuiltStep(keys, i - 1);
      assert Proposed(keys)[i - 1].hash == i;
      GrownInsert(Built(keys, i - 1), Proposed(keys)[i - 1]);
    } else {
      assert Proposed(keys)[..0] == [];
    }
  }

  /** The parent of every block, and which blocks carry a certificate. */
  ghost predicate GapShape(t: Tree) {
    && t.Keys == Ids(7) && Keyed(t)
    && t[0].parent == None && t[1].parent == Some(0) && t[2].parent == Some(1) && t[3].parent == Some(2)
    && t[4].parent == Some(2) && t[5].parent == Some(4) && t[6].parent == Some(5)
    && t[1].qc.None? && forall h :: 2 <= h <= 6 ==> t[h].qc.Some?
  }

  lemma BuiltShape(keys: KeyStore)
    requires keys.publicKeys.Keys == Ids(4)
    ensures GapShape(Built(keys, 6))
  {
    BuiltHolds(keys, 6);
    hide Built, Cert;
  }

  lemma GapHeads(t: Tree)
    requires GapShape(t)
    ensures Heads(t) == {1, 4} && Stuck(t, 2)
  {
    assert ThreeChain(t, 1, 2, 3) && ThreeChain(t, 4, 5, 6);
    forall h | Head(t, h) ensures h == 1 || h == 4 {
      var c, g :| ThreeChain(t, h, c, g);
    }
    assert Childless(t, 3) && t[5].parent.value > 3 && PassedBy(t, 3);
    assert IsFirstChild(t, 2, 3) && DeadEnd(t, 3);
  }

  lemma GapCommits(t: Tree)
    requires GapShape(t)
    ensures Commits(t, []) == [t[1], t[4]]
  {
    hide GapShape, Head, Stuck, Ascending;
    GapHeads(t);
    GapParents(t);
    assert Pending(t, []) == {1, 4};
    AscendingIs({1, 4}, [1, 4]);
    assert BlocksAt(t, [1, 4]) == [t[1], t[4]];
  }

  /** On a replica with an empty disk that receives these six properly signed proposals and commits what it can, a
      block commits, its parent does not, and whatever arrives in order later the parent never will. */
  lemma CommittedParentMissing(keys: KeyStore) returns (moves: seq<Move>)
    requires keys.publicKeys.Keys == Ids(4)
    ensures var live := Run(FreshDurable(Config(4, 1, 3, 5000), keys), moves);
            && Survives(FreshDurable(Config(4, 1, 3, 5000), keys), moves)
            && Grown(live.blockTree) && Hashes(live.committedLog) == [1, 4]
            && live.committedLog[1].parent == Some(2) && 2 in live.blockTree && Stuck(live.blockTree, 2)
            && forall blocks :: InOrder(live.blockTree, blocks) ==> !Head(InsertAll(live.blockTree, blocks), 2)
  {
    hide FreshDurable, Run, Survives, Built, GapShape, Grown, Stuck, Head, InOrder, InsertAll, Commits;
    moves := GapRun(keys);
    var t := Built(keys, 6);
    BuiltShape(keys);
    BuiltGrown(keys, 6);
    GapHeads(t);
    GapCommits(t);
    GapParents(t);
    forall blocks | InOrder(t, blocks) ensures !Head(InsertAll(t, blocks), 2) { StuckForever(t, 2, blocks); }
  }

  lemma GapParents(t: Tree)
    requires GapShape(t)
    ensures 1 in t && 4 in t && t[1].hash == 1 && t[4].hash == 4 && t[4].parent == Some(2) && 2 in t
  {
  }

  /** Receiving the six proposals and committing what there is. */
  lemma GapRun(keys: KeyStore) returns (moves: seq<Move>)
    requires keys.publicKeys.Keys == Ids(4)
    ensures var start := FreshDurable(Config(4, 1, 3, 5000), keys);
            var t := Built(keys, 6);
            && Survives(start, moves)
            && Run(start, moves).blockTree == t && Run(start, moves).committedLog == Commits(t, [])
  {
    var start := FreshDurable(Config(4, 1, 3, 5000), keys);
    var bs := Proposed(keys);
    assert |bs| == 6 && bs[..6] == bs;
    FreshHolds(keys);
    hide Proposed, FreshDurable, Commits, Fitting;
    forall i | 0 <= i < 6 ensures Fitting(InsertAll(Start(), bs[..i]), keys, bs[i]) { ProposalsFit(keys, i); }
    ReceivesAll(start, keys, Start(), bs);
    moves := Receives(bs) + [Do(CommitReady)];
    RunLast(start, Receives(bs), Do(CommitReady));
    hide Run, Survives, Receives, InsertAll;
    var full := Run(start, Receives(bs));
    CommitsAll(full);
  }

  lemma FreshHolds(keys: KeyStore)
    ensures Holds(FreshDurable(Config(4, 1, 3, 5000), keys), keys, Start())
  {
  }

  lemma CommitsAll(s: ReplicaState)
    ensures GoesOn(s, Do(CommitReady))
    ensures var t := Moved(s, Do(CommitReady));
            t.blockTree == s.blockTree && t.committedLog == s.committedLog + Commits(s.blockTree, s.committedLog)
  {
    hide Commits;
    CommitEachAppends(s, Commits(s.blockTree, s.committedLog));
  }

  // ----- Exactly which blocks can still commit -----

  /** The replica accepts these proposals one after another; their hashes and parents ascend, and their views are at
      least this one. */
  ghost predicate Acceptable(s: ReplicaState, blocks: seq<Block>, from: nat)
    decreases |blocks|
  {
    blocks == [] ||
    (&& blocks[0].view >= from && Next(s.blockTree, blocks[0]) && s.ValidProposal(blocks[0])
     && Acceptable(Moved(s, Do(ReceiveBlock(blocks[0]))), blocks[1..], from))
  }

  /** The replica has committed h once it has received these proposals and commits what it can. */
  ghost predicate CommitsAfter(s: ReplicaState, blocks: seq<Block>, h: Hash) {
    h in Committed(Run(s, Receives(blocks) + [Do(CommitReady)]).committedLog)
  }

  lemma {:induction false} FrontInOrder(t: Tree, b: Block, rest: seq<Block>)
    requires Next(t, b) && InOrder(Insert(t, b), rest)
    ensures InOrder(t, [b] + rest) && InsertAll(t, [b] + rest) == InsertAll(Insert(t, b), rest)
    decreases |rest|
  {
    hide Next, Insert;
    if rest == [] {
      assert [b] + rest == [b] && [b][..0] == [];
    } else {
      var n := |rest| - 1;
      FrontInOrder(t, b, rest[..n]);
      assert ([b] + rest)[..|[b] + rest| - 1] == [b] + rest[..n];
    }
  }

  lemma AcceptedOne(s: ReplicaState, b: Block)
    requires s.ValidProposal(b)
    ensures var t := Moved(s, Do(ReceiveBlock(b)));
            t.blockTree == Insert(s.blockTree, b) && t.committedLog == s.committedLog && SameVerdicts(s, t)
  {
    hide ReplicaState.ValidProposal;
  }

  lemma {:induction false} AcceptableRun(s: ReplicaState, blocks: seq<Block>, from: nat)
    requires Acceptable(s, blocks, from)
    ensures InOrder(s.blockTree, blocks)
    ensures Run(s, Receives(blocks)).blockTree == InsertAll(s.blockTree, blocks)
    ensures Run(s, Receives(blocks)).committedLog == s.committedLog
    decreases |blocks|
  {
    if blocks != [] {
      hide Moved, Next, ReplicaState.ValidProposal, Insert, SameVerdicts;
      var b, rest := blocks[0], blocks[1..];
      AcceptedOne(s, b);
      AcceptableRun(Moved(s, Do(ReceiveBlock(b))), rest, from);
      FrontInOrder(s.blockTree, b, rest);
      assert Receives(blocks)[0] == Do(ReceiveBlock(b)) && Receives(blocks)[1..] == Receives(rest);
      assert blocks == [b] + rest;
    }
  }

  /** After these proposals h is committed if it was before or heads a three-chain now. */
  lemma CommitsWhenHead(s: ReplicaState, blocks: seq<Block>, h: Hash, from: nat)
    requires Grown(s.blockTree) && Acceptable(s, blocks, from)
    ensures CommitsAfter(s, blocks, h) <==>
            h in Committed(s.committedLog) || Head(InsertAll(s.blockTree, blocks), h)
  {
    hide Acceptable, Run, Moved, InsertAll, Head, Committed, Commits, InOrder;
    AcceptableRun(s, blocks, from);
    GrownAll(s.blockTree, blocks);
    var r := Run(s, Receives(blocks));
    RunLast(s, Receives(blocks), Do(CommitReady));
    CommitsAll(r);
    CommitsHeads(r.blockTree, r.committedLog);
  }

  /** The fields, the tree aside, that decide whether a proposal is accepted. */
  ghost predicate SameVerdicts(s: ReplicaState, t: ReplicaState) {
    && t.activeValidators == s.activeValidators && t.configEpoch == s.configEpoch && t.keystore == s.keystore
    && t.config == s.config
  }

  /** A certificate signed by everyone whose key the replica holds. */
  function FullCert(s: ReplicaState, p: Hash, view: nat): QuorumCert {
    var ids := Ascending(s.keystore.publicKeys.Keys);
    QuorumCert(p, view, s.configEpoch,
               seq(|ids|, i requires 0 <= i < |ids| =>
                     Signature(ids[i], Made(s.keystore.publicKeys[ids[i]], p, view, s.configEpoch))))
  }

  /** What the leader of the view proposes on top of p, whose certificate it holds. */
  function Extending(s: ReplicaState, p: Block, hash: Hash, view: nat): Block {
    Block(hash, Some(p.hash), view, s.configEpoch, s.LeaderFor(view), Some(FullCert(s, p.hash, p.view)), NoOp)
  }

  lemma FullCertCertifies(s: ReplicaState, p: Hash, view: nat)
    requires s.QuorumSize() <= |s.keystore.publicKeys|
    ensures Certified(s.keystore, FullCert(s, p, view), s.QuorumSize())
  {
    AscendingSorted(s.keystore.publicKeys.Keys);
    DistinctValidCount(s.keystore, FullCert(s, p, view));
    assert |s.keystore.publicKeys.Keys| == |s.keystore.publicKeys|;
  }

  lemma ExtendingValid(s: ReplicaState, t: ReplicaState, p: Block, hash: Hash, view: nat)
    requires s.QuorumSize() <= |s.keystore.publicKeys| && SameVerdicts(s, t) && p.hash in t.blockTree
    ensures t.ValidProposal(Extending(s, p, hash, view))
  {
    hide Certified, FullCert, KeyStore.Verify;
    FullCertCertifies(s, p.hash, p.view);
    FullCertFor(s, p.hash, p.view);
  }

  lemma FullCertFor(s: ReplicaState, p: Hash, view: nat)
    ensures FullCert(s, p, view).blockHash == p && FullCert(s, p, view).epoch == s.configEpoch
  {
  }

  lemma AcceptsOne(s: ReplicaState, b: Block, from: nat)
    requires b.view >= from && Next(s.blockTree, b) && s.ValidProposal(b)
    ensures Acceptable(s, [b], from)
  {
    hide ReplicaState.ValidProposal, Next, Moved;
    assert [b][1..] == [];
  }

  lemma AcceptsTwo(s: ReplicaState, a: Block, b: Block, from: nat)
    requires a.view >= from && Next(s.blockTree, a) && s.ValidProposal(a)
    requires Acceptable(Moved(s, Do(ReceiveBlock(a))), [b], from)
    ensures Acceptable(s, [a, b], from)
  {
    hide ReplicaState.ValidProposal, Next, Moved;
    assert [a, b][1..] == [b];
  }

  /** A childless block that can be extended heads a three-chain after two more proposals. */
  lemma ExtendTwice(s: ReplicaState, h: Hash, m: Hash, from: nat) returns (blocks: seq<Block>)
    requires Grown(s.blockTree) && h in s.blockTree && Childless(s.blockTree, h) && !PassedBy(s.blockTree, h)
    requires s.QuorumSize() <= |s.keystore.publicKeys| && forall g :: g in s.blockTree ==> g < m
    ensures |blocks| == 2 && Acceptable(s, blocks, from) && Head(InsertAll(s.blockTree, blocks), h)
  {
    hide ReplicaState.ValidProposal, Moved, FullCert, Acceptable, SameVerdicts, ReplicaState.QuorumSize,
      ReplicaState.LeaderFor, InsertAll;
    var t := s.blockTree;
    var a := Extending(s, t[h], m, from);
    var b := Extending(s, a, m + 1, from + 1);
    SameVerdictsSelf(s);
    ExtendsNext(t, h, a);
    ExtendingValid(s, s, t[h], m, from);
    AcceptedOne(s, a);
    var r := Moved(s, Do(ReceiveBlock(a)));
    GrownInsert(t, a);
    ExtendsNext(r.blockTree, m, b);
    ExtendingValid(s, r, a, m + 1, from + 1);
    AcceptsOne(r, b, from);
    AcceptsTwo(s, a, b, from);
    FirstChildStable(r.blockTree, b, h, m);
    TwoBlocks(t, a, b);
    blocks := [a, b];
    assert ThreeChain(Insert(r.blockTree, b), h, m, m + 1);
  }

  /** So does one whose certified first child can be extended, after one more. */
  lemma ExtendOnce(s: ReplicaState, h: Hash, c: Hash, m: Hash, from: nat) returns (blocks: seq<Block>)
    requires Grown(s.blockTree) && h in s.blockTree && IsFirstChild(s.blockTree, h, c) && s.blockTree[c].qc.Some?
    requires Childless(s.blockTree, c) && !PassedBy(s.blockTree, c)
    requires s.QuorumSize() <= |s.keystore.publicKeys| && forall g :: g in s.blockTree ==> g < m
    ensures |blocks| == 1 && Acceptable(s, blocks, from) && Head(InsertAll(s.blockTree, blocks), h)
  {
    hide ReplicaState.ValidProposal, Moved, FullCert, Acceptable, SameVerdicts, ReplicaState.QuorumSize,
      ReplicaState.LeaderFor, InsertAll;
    var t := s.blockTree;
    var b := Extending(s, t[c], m, from);
    SameVerdictsSelf(s);
    ExtendsNext(t, c, b);
    ExtendingValid(s, s, t[c], m, from);
    AcceptsOne(s, b, from);
    FirstChildStable(t, b, h, c);
    OneBlock(t, b);
    blocks := [b];
    assert ThreeChain(Insert(t, b), h, c, m);
  }

  /** A block that is not stuck heads a three-chain once at most two more proposals were accepted. */
  lemma Unstick(s: ReplicaState, h: Hash, from: nat) returns (blocks: seq<Block>)
    requires Grown(s.blockTree) && h in s.blockTree && !Stuck(s.blockTree, h)
    requires s.QuorumSize() <= |s.keystore.publicKeys|
    ensures |blocks| <= 2 && Acceptable(s, blocks, from) && Head(InsertAll(s.blockTree, blocks), h)
  {
    hide Acceptable, ReplicaState.QuorumSize, Grown;
    var t := s.blockTree;
    var m := Above(t);
    if Childless(t, h) {
      blocks := ExtendTwice(s, h, m, from);
    } else {
      var c := HasFirstChild(t, h);
      assert !DeadEnd(t, c);
      if Childless(t, c) {
        blocks := ExtendOnce(s, h, c, m, from);
      } else {
        var g := HasFirstChild(t, c);
        assert ThreeChain(t, h, c, g);
        blocks := [];
        AcceptsNone(s, from);
      }
    }
  }

  lemma SameVerdictsSelf(s: ReplicaState)
    ensures SameVerdicts(s, s)
  {
  }

  lemma AcceptsNone(s: ReplicaState, from: nat)
    ensures Acceptable(s, [], from)
  {
  }

  lemma OneBlock(t: Tree, b: Block)
    ensures InsertAll(t, [b]) == Insert(t, b)
  {
    assert [b][..0] == [];
  }

  lemma TwoBlocks(t: Tree, a: Block, b: Block)
    ensures InsertAll(t, [a, b]) == Insert(Insert(t, a), b)
  {
    OneBlock(t, a);
    assert [a, b][..1] == [a];
  }

  /** Exactly which blocks can still commit on a replica that holds a quorum of keys: from any view on there are
      properly signed proposals of the right leaders after which h commits, if and only if h is not stuck, which the
      tree alone decides. */
  lemma CommitsEventuallyIff(s: ReplicaState, h: Hash, from: nat)
    requires Grown(s.blockTree) && h in s.blockTree && h !in Committed(s.committedLog)
    requires s.QuorumSize() <= |s.keystore.publicKeys|
    ensures (exists blocks :: Acceptable(s, blocks, from) && CommitsAfter(s, blocks, h)) <==> !Stuck(s.blockTree, h)
  {
    hide Head, InOrder, InsertAll, Stuck, Grown, Acceptable, CommitsAfter, Committed, Receives;
    if Stuck(s.blockTree, h) {
      forall blocks | Acceptable(s, blocks, from) ensures !CommitsAfter(s, blocks, h) {
        AcceptableRun(s, blocks, from);
        StuckForever(s.blockTree, h, blocks);
        CommitsWhenHead(s, blocks, h, from);
      }
    } else {
      var blocks := Unstick(s, h, from);
      CommitsWhenHead(s, blocks, h, from);
      assert Acceptable(s, blocks, from) && CommitsAfter(s, blocks, h);
    }
  }
}
