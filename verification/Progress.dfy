/** Progress while replicas leave: a proposed block is certified exactly when enough others are up, and exactly which
    of the proposed blocks are committed, before and after there are too few. */
module Progress {
  import opened Types
  import opened Ordered
  import opened Crypto
  import opened CommitRule
  import opened Storage
  import opened ReplicaModel
  import opened SimModel
  import opened Agreement
  import opened FaultFree
  import opened OneProposal
  import Quorum

  /** The replicas that are up. */
  function Up(s: SimState): set<nat> {
    Ids(s.N()) - s.Down()
  }

  // ----- Everybody keeps the keys of the start -----

  predicate Wired(r: ReplicaState, n: nat, keys: KeyStore) {
    r.keystore == keys && r.activeValidators == Ids(n) && r.config.n == n
  }

  ghost predicate InPlace(s: SimState) {
    && KeysDistributed(s.keystores) && |s.keystores| == s.N()
    && forall i :: 0 <= i < s.N() ==> Wired(s.replicas[i], s.N(), s.keystores[i])
  }

  lemma InPlaceKeys(s: SimState)
    requires InPlace(s)
    ensures KeysInPlace(s.replicas)
  {
    forall i, j | 0 <= i < s.N() && 0 <= j < s.N()
      ensures s.replicas[i].keystore.publicKeys == s.replicas[j].keystore.publicKeys && SignerOk(s.replicas[i], s.N())
    {
      assert Wired(s.replicas[i], s.N(), s.keystores[i]) && Wired(s.replicas[j], s.N(), s.keystores[j]);
    }
    forall i, j | 0 <= i < j < s.N() ensures s.replicas[i].keystore.myId != s.replicas[j].keystore.myId {
      assert Wired(s.replicas[i], s.N(), s.keystores[i]) && Wired(s.replicas[j], s.N(), s.keystores[j]);
    }
  }

  predicate SameConfig(c: Core, d: Core) {
    c.validators == d.validators && c.publicKeys == d.publicKeys && c.n == d.n
  }

  lemma WiredFrom(r: ReplicaState, q: ReplicaState, n: nat, keys: KeyStore)
    requires Wired(r, n, keys) && SameSigner(q, r) && SameConfig(CoreOf(r), CoreOf(q))
    ensures Wired(q, n, keys)
  {
  }

  lemma RoundSameConfig(c: Core, b: Block, qc: Option<QuorumCert>)
    ensures SameConfig(c, CoreRound(c, b, qc))
  {
    hide Commits;
  }

  /** Nobody's keys change in a round that proposes. */
  lemma RoundSigner(s: SimState, leader: nat, p: ReplicaState, b: Block, i: nat)
    requires s.Shaped() && s.Live(leader) && s.Live(i) && SameSigner(p, s.replicas[leader])
    ensures SameSigner(RoundReplicas(s, leader, p, b)[i], s.replicas[i])
  {
    var votes := VotesFor(s.replicas, s.Down(), leader, b, s.N());
    var (l, qc) := Collect(p, votes);
    hide VotesFor, Collect, Finish, FollowerRound;
    if i == leader {
      CollectSigner(p, votes);
      FinishSigner(l, s.persistence);
      SignerTrans(Finish(l, s.persistence), l, p, s.replicas[leader]);
    } else {
      FollowerSigner(s.replicas[i], b, qc, s.persistence);
    }
  }

  lemma ProposedInPlace(s: SimState, kind: RoundKind, now: nat, p: ReplicaState, b: Block)
    requires s.Shaped() && s.N() > 0 && Agreed(s) && InPlace(s)
    requires CurrentLeader(s) !in s.Down() && Proposal(s, kind, now) == (p, Some(b))
    ensures InPlace(ProposedRound(s, CurrentLeader(s), p, b))
  {
    hide Agreed, AllAt, ProposedRound, RoundReplicas, Healthy, Acceptable, CoreInsert, CurrentLeader, CoreRound, CoreOf,
      VotesFor, Collect, StaticQueue, ReplicaState.LeaderFor, SameSigner, Wired, SameConfig, KeysDistributed,
      SimState.Shaped, ProposeKind;
    var leader := CurrentLeader(s);
    var c := CoreOf(s.replicas[leader]);
    ProposalFacts(s, kind, now, p, b, c);
    ProposalSigner(s.replicas[leader], kind, s.nextGlobalHash, now);
    hide Proposal;
    var u := ProposedRound(s, leader, p, b);
    ProposedRoundParts(s, leader, p, b, u);
    SettingKept(s, leader, p, b);
    var d := ProposedRoundCore(s, leader, p, b, c);
    forall i | 0 <= i < s.N() ensures Wired(u.replicas[i], s.N(), s.keystores[i]) {
      if s.Live(i) {
        CoreAt(s, c, i);
        RoundSigner(s, leader, p, b, i);
        RoundSameConfig(c, b, Collect(p, VotesFor(s.replicas, s.Down(), leader, b, s.N())).1);
        WiredFrom(s.replicas[i], u.replicas[i], s.N(), s.keystores[i]);
      }
    }
  }

  lemma CoreAt(s: SimState, c: Core, i: nat)
    requires AllAt(s, c) && s.Live(i)
    ensures CoreOf(s.replicas[i]) == c
  {
  }

  lemma SettingKept(s: SimState, leader: nat, p: ReplicaState, b: Block)
    requires s.Shaped() && leader < s.N()
    ensures ProposedRound(s, leader, p, b).keystores == s.keystores
  {
    hide RoundReplicas, VotesFor, Collect, Mark, Sent;
  }

  lemma CrashInPlace(s: SimState, ids: set<nat>)
    requires s.Shaped() && InPlace(s)
    ensures InPlace(CrashSet(s, ids))
  {
    var t := CrashSet(s, ids);
    hide KeysDistributed;
    forall i | 0 <= i < s.N() ensures Wired(t.replicas[i], s.N(), s.keystores[i]) {
      assert Wired(s.replicas[i], s.N(), s.keystores[i]);
    }
  }

  lemma SkipInPlace(s: SimState, reason: Reason, mark: bool, next: Hash)
    requires s.Shaped() && InPlace(s)
    ensures InPlace(Skip(s, reason, mark)) && InPlace(Skip(s, reason, mark).(nextGlobalHash := next))
  {
    var t := Skip(s, reason, mark);
    hide KeysDistributed, ReplicaState.AdvanceView, Wired;
    forall i | 0 <= i < s.N() ensures Wired(t.replicas[i], s.N(), s.keystores[i]) {
      assert Wired(s.replicas[i], s.N(), s.keystores[i]);
      AdvanceWired(s.replicas[i], s.N(), s.keystores[i], reason);
    }
  }

  lemma AdvanceWired(r: ReplicaState, n: nat, keys: KeyStore, reason: Reason)
    requires Wired(r, n, keys)
    ensures Wired(r.AdvanceView(reason), n, keys)
  {
  }

  lemma BodyInPlace(s: SimState, kind: RoundKind, now: nat)
    requires s.Shaped() && s.N() > 0 && Agreed(s) && InPlace(s)
    ensures InPlace(RoundBody(s, kind, now))
  {
    hide Agreed, Skip, ProposedRound, Proposal, CurrentLeader, SimState.Shaped, SimState.Down, InPlace;
    var (p, b) := Proposal(s, kind, now);
    SkipInPlace(s, Timeout, kind.Plain?, s.nextGlobalHash + 1);
    SkipInPlace(s, Commit, kind.Plain?, s.nextGlobalHash + 1);
    if CurrentLeader(s) !in s.Down() && b.Some? { ProposedInPlace(s, kind, now, p, b.value); }
  }

  lemma StartedInPlace(s: SimState)
    requires s.Shaped() && InPlace(s)
    ensures InPlace(Started(s))
  {
    hide CrashSet, TimedOut, SimState.Shaped, Wired, KeysDistributed;
    var t := s.(time := s.time + s.roundTime);
    ClockOnly(s);
    assert InPlace(t);
    CrashInPlace(t, TimedOut(t));
  }

  lemma RoundInPlace(s: SimState, kind: RoundKind, now: nat)
    requires s.Shaped() && Agreed(s) && InPlace(s)
    ensures InPlace(Round(s, kind, now))
  {
    hide RoundBody, Agreed, CrashSet, TimedOut, SimState.Shaped, Started, InPlace;
    var t := Started(s);
    StartedAgreed(s);
    StartedInPlace(s);
    if !Refused(t) {
      RefusedEmpty(t);
      BodyInPlace(t, kind, now);
      RoundBodyShaped(t, kind, now);
      var u := RoundBody(t, kind, now);
      CrashInPlace(u, TimedOut(u));
    }
  }

  /** A step that only touches queues, dummies or who is unresponsive. */
  lemma QuietInPlace(s: SimState, t: SimState)
    requires InPlace(s) && t.N() == s.N() && t.keystores == s.keystores
    requires forall i :: 0 <= i < s.N() ==>
               t.replicas[i].keystore == s.replicas[i].keystore &&
               t.replicas[i].activeValidators == s.replicas[i].activeValidators &&
               t.replicas[i].config == s.replicas[i].config
    ensures InPlace(t)
  {
    hide KeysDistributed;
    forall i | 0 <= i < s.N() ensures Wired(t.replicas[i], s.N(), s.keystores[i]) {
      assert Wired(s.replicas[i], s.N(), s.keystores[i]);
    }
  }

  lemma StepInPlace(s: SimState, a: Action)
    requires s.Shaped() && Agreed(s) && InPlace(s) && Departure(a)
    ensures InPlace(Step(s, a))
  {
    hide Agreed, Round, InPlace, CurrentLeader, CrashSet;
    match a
    case RunRound(kind, now) => RoundInPlace(s, kind, now);
    case SetUnresponsive(id, _) => QuietInPlace(s, MarkUnresponsive(s, id, true));
    case Crash(id) => CrashInPlace(s, {id});
    case EnqueueCommand(command) => QuietInPlace(s, EnqueueOnLeader(s, command));
    case SetDummies(enabled, timeoutMs) => QuietInPlace(s, SetAllDummies(s, enabled, timeoutMs));
  }

  lemma StartInPlace(f: nat, maxSteps: nat, persistence: bool, keystores: seq<KeyStore>)
    requires KeysDistributed(keystores)
    ensures InPlace(NewSim(f, maxSteps, persistence, keystores))
  {
    var s := NewSim(f, maxSteps, persistence, keystores);
    forall i | 0 <= i < s.N() ensures Wired(s.replicas[i], s.N(), s.keystores[i]) {
      NewReplicaWired(Config(s.N(), f, i, 5000), keystores[i], persistence);
      hide NewReplica;
    }
  }

  lemma NewReplicaWired(config: Config, keys: KeyStore, persistence: bool)
    ensures Wired(NewReplica(config, keys, persistence), config.n, keys)
  {
  }

  // ----- Everybody who is up votes -----

  function OthersUpTo(down: set<nat>, leader: nat, k: nat): set<nat> {
    Ids(k) - down - {leader}
  }

  lemma IdsStep(k: nat)
    ensures Ids(k + 1) == Ids(k) + {k} && k !in Ids(k)
  {
  }

  lemma OneMoreOther(down: set<nat>, leader: nat, k: nat)
    ensures |OthersUpTo(down, leader, k + 1)| ==
            |OthersUpTo(down, leader, k)| + if k != leader && k !in down then 1 else 0
  {
    IdsStep(k);
    hide Ids;
    OneMoreOf(Ids(k), down + {leader}, k);
    assert OthersUpTo(down, leader, k) == Ids(k) - (down + {leader});
    assert OthersUpTo(down, leader, k + 1) == Ids(k + 1) - (down + {leader});
  }

  lemma OneMoreOf(ids: set<nat>, out: set<nat>, k: nat)
    requires k !in ids
    ensures |ids + {k} - out| == |ids - out| + if k !in out then 1 else 0
  {
    if k in out {
      assert ids + {k} - out == ids - out;
    } else {
      assert ids + {k} - out == ids - out + {k};
    }
  }

  lemma {:induction false} OthersVote(rs: seq<ReplicaState>, down: set<nat>, leader: nat, b: Block, k: nat)
    requires k <= |rs|
    requires forall i :: 0 <= i < |rs| && i !in down && i != leader ==> rs[i].ValidProposal(b)
    ensures |VotesFor(rs, down, leader, b, k)| == |OthersUpTo(down, leader, k)|
    decreases k
  {
    hide ReplicaState.ValidProposal, OthersUpTo, VoteOf;
    if k > 0 {
      OthersVote(rs, down, leader, b, k - 1);
      OneMoreOther(down, leader, k - 1);
    } else {
      NoOthers(down, leader);
    }
  }

  lemma NoOthers(down: set<nat>, leader: nat)
    ensures OthersUpTo(down, leader, 0) == {}
  {
  }

  /** The number of votes for a proposal: everybody who is up, but the leader. */
  lemma VotesCount(s: SimState, leader: nat, c: Core, b: Block)
    requires s.Live(leader) && AllAt(s, c) && b.hash == s.nextGlobalHash && Acceptable(c, b)
    requires b.proposer == s.replicas[leader].LeaderFor(b.view)
    ensures |VotesFor(s.replicas, s.Down(), leader, b, s.N())| == |Up(s)| - 1
  {
    hide Healthy, Acceptable, ReplicaState.LeaderFor, ReplicaState.ValidProposal, VotesFor;
    forall i: nat | s.Live(i) ensures s.replicas[i].ValidProposal(b) {
      HealthyValidators(c, b.hash);
      SameLeader(s.replicas[i], s.replicas[leader], b.view);
      AcceptedByAll(s.replicas[i], b, b.proposer);
    }
    OthersVote(s.replicas, s.Down(), leader, b, s.N());
    assert Up(s) == OthersUpTo(s.Down(), leader, s.N()) + {leader};
  }

  lemma HealthyValidators(c: Core, next: Hash)
    requires Healthy(c, next)
    ensures c.validators != {}
  {
  }

  /** A proposing round certifies its block exactly when the replicas that are up, the leader aside, are a quorum. */
  lemma CertifiesIff(s: SimState, kind: RoundKind, now: nat, p: ReplicaState, b: Block)
    requires s.Shaped() && s.N() > 0 && Agreed(s) && InPlace(s)
    requires CurrentLeader(s) !in s.Down() && Proposal(s, kind, now) == (p, Some(b))
    ensures Collect(p, VotesFor(s.replicas, s.Down(), CurrentLeader(s), b, s.N())).1.Some?
            <==> |Up(s)| - 1 >= Quorum.Size(s.N())
  {
    hide Agreed, AllAt, Healthy, Acceptable, CurrentLeader, CoreOf, VotesFor, Collect, StaticQueue,
      ReplicaState.LeaderFor, SimState.Shaped, InPlace, KeysInPlace, Up;
    var leader := CurrentLeader(s);
    var c := CoreOf(s.replicas[leader]);
    ProposalFacts(s, kind, now, p, b, c);
    ProposerFacts(s, kind, now, p, b);
    InPlaceKeys(s);
    VotesCount(s, leader, c, b);
    QcIffQuorumVotes(s, leader, p, b);
  }

  lemma ProposerFacts(s: SimState, kind: RoundKind, now: nat, p: ReplicaState, b: Block)
    requires s.Shaped() && s.N() > 0 && InPlace(s)
    requires CurrentLeader(s) !in s.Down() && Proposal(s, kind, now) == (p, Some(b))
    ensures var r := s.replicas[CurrentLeader(s)];
            && SignerOk(p, s.N()) && p.keystore == r.keystore
            && b.hash in p.blockTree && p.blockTree[b.hash] == b && b.epoch == p.configEpoch
            && p.QuorumSize() == Quorum.Size(s.N())
  {
    hide KeysDistributed, SimState.Shaped, CurrentLeader;
    var leader := CurrentLeader(s);
    var r := s.replicas[leader];
    assert Wired(r, s.N(), s.keystores[leader]);
    ProposalMakes(r, kind, r.currentView, s.nextGlobalHash, now);
    InPlaceKeys(s);
    AscendingIds(s.N());
    hide ProposeKind;
  }

  lemma ProposalMakes(r: ReplicaState, kind: RoundKind, view: nat, hash: Hash, now: nat)
    ensures var (p, b) := ProposeKind(r, kind, view, hash, now);
            b.Some? ==>
              && b.value.hash in p.blockTree && p.blockTree[b.value.hash] == b.value
              && b.value.epoch == p.configEpoch
              && p.keystore == r.keystore && p.activeValidators == r.activeValidators && p.config == r.config
              && b.value.parent == (if r.highQc.Some? then Some(r.highQc.value.blockHash) else LatestHash(r.blockTree))
              && b.value.qc == r.highQc
  {
    hide ReplicaState.ShouldProposeDummy, ReplicaState.IsLeader, LatestHash;
  }

  // ----- One chain of certified blocks, with the others on top of its last one -----

  /** Genesis and then the proposed blocks, by hash. */
  function Spine(bs: seq<Block>): (hs: seq<Hash>)
    ensures |hs| == |bs| + 1 && hs[0] == 0
    ensures forall k :: 0 <= k < |bs| ==> hs[k + 1] == bs[k].hash
  {
    [0] + Hashes(bs)
  }

  function Least2(a: nat, b: nat): nat {
    if a <= b then a else b
  }

  /** The k-th of these blocks stands in the tree, on top of the one before it or, if that is not among the first m, on
      top of the m-th; all but the first carry a certificate. */
  predicate Linked(t: Tree, bs: seq<Block>, m: nat, k: nat)
    requires k < |bs|
  {
    && bs[k].hash in t && t[bs[k].hash] == bs[k]
    && bs[k].parent == Some(Spine(bs)[Least2(k, m)]) && (bs[k].qc.Some? <==> k >= 1)
  }

  /** The tree is genesis, a chain of the first m of these blocks, and the others on top of the last of them. */
  ghost predicate LinearTree(t: Tree, bs: seq<Block>, m: nat) {
    && m <= |bs| && StrictlyAscending(Spine(bs))
    && t.Keys == ToSet(Spine(bs)) && t[0] == GENESIS
    && forall k :: 0 <= k < |bs| ==> Linked(t, bs, m, k)
  }

  ghost predicate Linear(c: Core, bs: seq<Block>, m: nat) {
    && LinearTree(c.tree, bs, m)
    && (c.highQc.Some? <==> m > 0)
    && (m > 0 ==> c.highQc.value.blockHash == bs[m - 1].hash)
    && LogIsLowerPart(c.tree, c.log, Heads(c.tree))
  }

  /** The block at position k of the spine. */
  lemma SpineBlock(t: Tree, bs: seq<Block>, m: nat, k: nat)
    requires LinearTree(t, bs, m) && k <= |bs|
    ensures var h := Spine(bs)[k];
            && h in t && t[h].hash == h
            && t[h].parent == (if k == 0 then None else Some(Spine(bs)[Least2(k - 1, m)]))
            && (t[h].qc.Some? <==> k >= 2)
  {
    assert Spine(bs)[k] in Spine(bs);
    if k > 0 { assert Linked(t, bs, m, k - 1); }
  }

  lemma SpineIndex(t: Tree, bs: seq<Block>, m: nat, h: Hash) returns (k: nat)
    requires LinearTree(t, bs, m) && h in t
    ensures k <= |bs| && Spine(bs)[k] == h
  {
    k :| 0 <= k < |Spine(bs)| && Spine(bs)[k] == h;
  }

  lemma SpineOrder(t: Tree, bs: seq<Block>, m: nat, i: nat, j: nat)
    requires LinearTree(t, bs, m) && i <= |bs| && j <= |bs|
    ensures Spine(bs)[i] < Spine(bs)[j] <==> i < j
    ensures Spine(bs)[i] == Spine(bs)[j] <==> i == j
  {
    if i < j { assert Spine(bs)[i] < Spine(bs)[j]; }
    if j < i { assert Spine(bs)[j] < Spine(bs)[i]; }
  }

  lemma CertifiedCount(t: Tree, bs: seq<Block>, m: nat)
    requires LinearTree(t, bs, m)
    ensures m <= |bs|
  {
  }

  lemma SpineParent(t: Tree, bs: seq<Block>, m: nat, h: Hash)
    requires LinearTree(t, bs, m) && h in t
    ensures t[h].hash == h && (t[h].parent.Some? ==> t[h].parent.value in t && t[h].parent.value < h)
  {
    hide LinearTree, Spine;
    var k := SpineIndex(t, bs, m, h);
    SpineBlock(t, bs, m, k);
    if k > 0 {
      SpineBlock(t, bs, m, Least2(k - 1, m));
      SpineOrder(t, bs, m, Least2(k - 1, m), k);
    }
  }

  lemma SpineParents(t: Tree, bs: seq<Block>, m: nat, g: Hash, h: Hash)
    requires LinearTree(t, bs, m) && g in t && h in t && g < h && t[g].parent.Some? && t[h].parent.Some?
    ensures t[g].parent.value <= t[h].parent.value
  {
    hide LinearTree, Spine;
    var i := SpineIndex(t, bs, m, g);
    var j := SpineIndex(t, bs, m, h);
    SpineBlock(t, bs, m, i);
    SpineBlock(t, bs, m, j);
    SpineOrder(t, bs, m, i, j);
    SpineOrder(t, bs, m, Least2(i - 1, m), Least2(j - 1, m));
  }

  lemma LinearGrown(t: Tree, bs: seq<Block>, m: nat)
    requires LinearTree(t, bs, m)
    ensures Grown(t)
  {
    hide LinearTree;
    forall h | h in t
      ensures t[h].hash == h
      ensures t[h].parent.Some? ==> t[h].parent.value in t && t[h].parent.value < h
    {
      SpineParent(t, bs, m, h);
    }
    forall g, h | g in t && h in t && g < h && t[g].parent.Some? && t[h].parent.Some?
      ensures t[g].parent.value <= t[h].parent.value
    {
      SpineParents(t, bs, m, g, h);
    }
  }

  /** The children of a block of the chain: the next one, and later ones on top of its end. */
  lemma SpineChild(t: Tree, bs: seq<Block>, m: nat, k: nat, d: Hash)
    requires LinearTree(t, bs, m) && k <= |bs| && d in t && t[d].parent == Some(Spine(bs)[k])
    ensures k <= m && k < |bs| && Spine(bs)[k + 1] <= d
  {
    hide LinearTree, Spine;
    var j := SpineIndex(t, bs, m, d);
    SpineBlock(t, bs, m, j);
    SpineOrder(t, bs, m, Least2(j - 1, m), k);
    SpineOrder(t, bs, m, j, k + 1);
  }

  /** The first child of a block of the chain is the next one; blocks on top of the chain have none. */
  lemma NextIsFirstChild(t: Tree, bs: seq<Block>, m: nat, k: nat, c: Hash)
    requires LinearTree(t, bs, m) && k <= |bs|
    ensures IsFirstChild(t, Spine(bs)[k], c) <==> k <= m && k < |bs| && c == Spine(bs)[k + 1]
  {
    hide LinearTree, Spine;
    forall d | d in t && t[d].parent == Some(Spine(bs)[k]) ensures k <= m && k < |bs| && Spine(bs)[k + 1] <= d {
      SpineChild(t, bs, m, k, d);
    }
    if k <= m && k < |bs| { SpineBlock(t, bs, m, k + 1); }
  }

  lemma LinearHead(t: Tree, bs: seq<Block>, m: nat, k: nat)
    requires LinearTree(t, bs, m) && k <= |bs|
    ensures Head(t, Spine(bs)[k]) <==> 1 <= k < m && k + 2 <= |bs|
  {
    hide LinearTree, Spine, IsFirstChild;
    var h := Spine(bs)[k];
    SpineBlock(t, bs, m, k);
    if 1 <= k < m && k + 2 <= |bs| {
      var c, g := Spine(bs)[k + 1], Spine(bs)[k + 2];
      NextIsFirstChild(t, bs, m, k, c);
      NextIsFirstChild(t, bs, m, k + 1, g);
      SpineBlock(t, bs, m, k + 1);
      SpineBlock(t, bs, m, k + 2);
      assert ThreeChain(t, h, c, g);
    }
    if Head(t, h) {
      var c, g :| ThreeChain(t, h, c, g);
      NextIsFirstChild(t, bs, m, k, c);
      NextIsFirstChild(t, bs, m, k + 1, g);
      SpineBlock(t, bs, m, k + 1);
    }
  }

  /** How many of n proposed blocks, the first m of them certified, get committed: all certified ones but the last two,
      or but the last one as soon as another block stands on top of that. */
  function Settled(n: nat, m: nat): nat {
    if n > m >= 1 then m - 1 else if m >= 2 then m - 2 else 0
  }

  lemma SettledBelow(n: nat, m: nat, k: nat)
    requires m <= n
    ensures Settled(n, m) <= n && (k < Settled(n, m) <==> k + 1 < m && k + 3 <= n)
  {
  }

  /** The hashes of the settled blocks. */
  function SettledHashes(bs: seq<Block>, m: nat): (l: seq<Hash>)
    requires m <= |bs|
    ensures |l| == Settled(|bs|, m) <= |bs|
    ensures forall i :: 0 <= i < |l| ==> l[i] == Spine(bs)[i + 1]
  {
    Hashes(bs[..Settled(|bs|, m)])
  }

  lemma SettledAscend(t: Tree, bs: seq<Block>, m: nat)
    requires LinearTree(t, bs, m)
    ensures m <= |bs| && StrictlyAscending(SettledHashes(bs, m))
  {
    CertifiedCount(t, bs, m);
    hide LinearTree, Spine;
    var l := SettledHashes(bs, m);
    forall i, j | 0 <= i < j < |l| ensures l[i] < l[j] { SpineOrder(t, bs, m, i + 1, j + 1); }
  }

  lemma SettledIsHead(t: Tree, bs: seq<Block>, m: nat, i: nat)
    requires LinearTree(t, bs, m) && m <= |bs| && i < Settled(|bs|, m)
    ensures Settled(|bs|, m) <= |bs| && SettledHashes(bs, m)[i] in Heads(t)
  {
    hide LinearTree, Spine, Head, Settled, SettledHashes;
    SettledBelow(|bs|, m, i);
    LinearHead(t, bs, m, i + 1);
  }

  lemma HeadIsSettled(t: Tree, bs: seq<Block>, m: nat, x: Hash) returns (i: nat)
    requires LinearTree(t, bs, m) && m <= |bs| && x in Heads(t)
    ensures i < Settled(|bs|, m) <= |bs| && SettledHashes(bs, m)[i] == x
  {
    hide LinearTree, Spine, Head, Settled, SettledHashes;
    var k := SpineIndex(t, bs, m, x);
    LinearHead(t, bs, m, k);
    SettledBelow(|bs|, m, k - 1);
    i := k - 1;
  }

  lemma SettledIff(t: Tree, bs: seq<Block>, m: nat, x: Hash)
    requires LinearTree(t, bs, m)
    ensures m <= |bs| && (x in SettledHashes(bs, m) <==> x in Heads(t))
  {
    CertifiedCount(t, bs, m);
    hide LinearTree, Spine, Heads, Settled, SettledHashes;
    var l := SettledHashes(bs, m);
    if x in l {
      var i :| 0 <= i < |l| && l[i] == x;
      SettledIsHead(t, bs, m, i);
    }
    if x in Heads(t) { var i := HeadIsSettled(t, bs, m, x); }
  }

  lemma LinearHeads(t: Tree, bs: seq<Block>, m: nat)
    requires LinearTree(t, bs, m)
    ensures m <= |bs| && Ascending(Heads(t)) == SettledHashes(bs, m)
  {
    CertifiedCount(t, bs, m);
    SettledAscend(t, bs, m);
    hide LinearTree, Heads, SettledHashes, StrictlyAscending;
    forall x ensures x in SettledHashes(bs, m) <==> x in Heads(t) { SettledIff(t, bs, m, x); }
    AscendingIs(Heads(t), SettledHashes(bs, m));
  }

  lemma SettledBlocks(t: Tree, bs: seq<Block>, m: nat)
    requires LinearTree(t, bs, m)
    ensures m <= |bs| && Settled(|bs|, m) <= |bs|
    ensures forall i :: 0 <= i < |SettledHashes(bs, m)| ==> SettledHashes(bs, m)[i] in t
    ensures BlocksAt(t, SettledHashes(bs, m)) == bs[..Settled(|bs|, m)]
  {
    CertifiedCount(t, bs, m);
    hide Spine, Settled;
    var l := SettledHashes(bs, m);
    forall i | 0 <= i < |l| ensures l[i] in t && t[l[i]] == bs[i] { assert Linked(t, bs, m, i); }
    hide LinearTree, Linked, SettledHashes;
    assert BlocksAt(t, l) == bs[..Settled(|bs|, m)];
  }

  /** The log of such a tree. */
  lemma LinearLog(c: Core, bs: seq<Block>, m: nat)
    requires Linear(c, bs, m)
    ensures m <= |bs| && Settled(|bs|, m) <= |bs|
    ensures c.log == bs[..Settled(|bs|, m)]
  {
    hide LinearTree, Heads, SettledHashes, BlocksAt, Ascending;
    LinearHeads(c.tree, bs, m);
    SettledBlocks(c.tree, bs, m);
  }

  lemma SpineGrows(bs: seq<Block>, b: Block)
    ensures Spine(bs + [b]) == Spine(bs) + [b.hash]
    ensures ToSet(Spine(bs + [b])) == ToSet(Spine(bs)) + {b.hash}
  {
    assert Hashes(bs + [b]) == Hashes(bs) + [b.hash];
  }

  lemma LinearNext(t: Tree, bs: seq<Block>, m: nat, b: Block)
    requires LinearTree(t, bs, m) && m <= |bs| && (forall h :: h in t ==> h < b.hash)
    requires b.parent == Some(Spine(bs)[m])
    ensures Next(t, b)
  {
    hide LinearTree, Spine;
    SpineBlock(t, bs, m, m);
    forall h | h in t && t[h].parent.Some? ensures t[h].parent.value <= b.parent.value {
      var k := SpineIndex(t, bs, m, h);
      SpineBlock(t, bs, m, k);
      SpineOrder(t, bs, m, Least2(k - 1, m), m);
    }
  }

  /** The count of certified blocks after one more was proposed. */
  predicate OneMore(n: nat, m: nat, next: nat) {
    next == m || (next == m + 1 && m == n)
  }

  lemma StaysLinked(t: Tree, bs: seq<Block>, m: nat, next: nat, b: Block, k: nat)
    requires k < |bs| && Linked(t, bs, m, k) && b.hash !in t && OneMore(|bs|, m, next)
    ensures Linked(Insert(t, b), bs + [b], next, k)
  {
    hide Spine;
    SpineGrows(bs, b);
    assert Least2(k, next) == Least2(k, m) <= |bs|;
    assert Spine(bs + [b])[Least2(k, m)] == Spine(bs)[Least2(k, m)];
    assert (bs + [b])[k] == bs[k];
  }

  /** A block on top of the last certified one, certified itself or not. */
  lemma LinearInsert(t: Tree, bs: seq<Block>, m: nat, next: nat, b: Block)
    requires LinearTree(t, bs, m) && m <= |bs| && OneMore(|bs|, m, next) && (forall h :: h in t ==> h < b.hash)
    requires b.parent == Some(Spine(bs)[m]) && (b.qc.Some? <==> bs != [])
    ensures LinearTree(Insert(t, b), bs + [b], next)
  {
    hide Linked, StrictlyAscending, Spine, ToSet;
    var u, all := Insert(t, b), bs + [b];
    SpineGrows(bs, b);
    SpineAscends(t, bs, m, b);
    SpineBlock(t, bs, m, 0);
    assert u.Keys == t.Keys + {b.hash};
    forall k | 0 <= k < |all| ensures Linked(u, all, next, k) {
      if k < |bs| {
        assert Linked(t, bs, m, k);
        StaysLinked(t, bs, m, next, b, k);
      } else {
        LastLinked(t, bs, m, next, b);
      }
    }
  }

  lemma LastLinked(t: Tree, bs: seq<Block>, m: nat, next: nat, b: Block)
    requires m <= |bs| && b.parent == Some(Spine(bs)[m]) && (b.qc.Some? <==> bs != []) && OneMore(|bs|, m, next)
    ensures Linked(Insert(t, b), bs + [b], next, |bs|)
  {
    hide Spine;
    SpineGrows(bs, b);
    assert Least2(|bs|, next) == m;
    assert Spine(bs + [b])[m] == Spine(bs)[m];
    assert (bs + [b])[|bs|] == b;
  }

  lemma SpineAscends(t: Tree, bs: seq<Block>, m: nat, b: Block)
    requires LinearTree(t, bs, m) && forall h :: h in t ==> h < b.hash
    ensures StrictlyAscending(Spine(bs) + [b.hash])
  {
    hide Spine;
    var all := Spine(bs) + [b.hash];
    forall i, j | 0 <= i < j < |all| ensures all[i] < all[j] {
      if j < |Spine(bs)| {
        SpineOrder(t, bs, m, i, j);
      } else {
        SpineBlock(t, bs, m, i);
      }
    }
  }

  lemma RoundParts(c: Core, b: Block, qc: Option<QuorumCert>)
    ensures var d := CoreRound(c, b, qc);
            && d.tree == Insert(c.tree, b) && d.log == c.log + Commits(d.tree, c.log)
            && d.highQc == if qc.Some? then qc else c.highQc
  {
    hide Commits;
  }

  /** A round that proposes keeps the tree in this shape; the certificate, if there is one, is for the new block. */
  lemma LinearRound(c: Core, bs: seq<Block>, m: nat, b: Block, qc: Option<QuorumCert>)
    requires Linear(c, bs, m) && m <= |bs| && (forall h :: h in c.tree ==> h < b.hash)
    requires b.parent == Some(Spine(bs)[m]) && (b.qc.Some? <==> bs != [])
    requires if qc.Some? then m == |bs| && qc.value.blockHash == b.hash else m > 0
    ensures Linear(CoreRound(c, b, qc), bs + [b], if qc.Some? then m + 1 else m)
  {
    hide LinearTree, Heads, Commits, Grown, Next, LogIsLowerPart, CoreRound, Insert, Spine;
    var t := Insert(c.tree, b);
    LinearInsert(c.tree, bs, m, if qc.Some? then m + 1 else m, b);
    LinearNext(c.tree, bs, m, b);
    LinearGrown(c.tree, bs, m);
    LowerPartArrives(c.tree, b, c.log, Heads(c.tree));
    GrownInsert(c.tree, b);
    LowerPartCommits(t, c.log, Heads(c.tree));
    RoundParts(c, b, qc);
  }

  // ----- What a round makes of the core that everybody who is up shares -----

  /** The certificate of a proposing round, if any, is for the proposed block. */
  lemma FormedFor(s: SimState, kind: RoundKind, now: nat, p: ReplicaState, b: Block)
    requires s.Shaped() && s.N() > 0 && Agreed(s)
    requires CurrentLeader(s) !in s.Down() && Proposal(s, kind, now) == (p, Some(b))
    ensures var qc := Collect(p, VotesFor(s.replicas, s.Down(), CurrentLeader(s), b, s.N())).1;
            qc.Some? ==> qc.value.blockHash == b.hash
  {
    hide Agreed, Healthy, Acceptable, CurrentLeader, CoreOf, VotesFor, Collect, StaticQueue, ReplicaState.LeaderFor,
      SimState.Shaped, PoolValid, Certified;
    var leader := CurrentLeader(s);
    ProposalFacts(s, kind, now, p, b, CoreOf(s.replicas[leader]));
    VotesForBlock(s.replicas, s.Down(), leader, b, s.N());
    CollectCore(p, b, VotesFor(s.replicas, s.Down(), leader, b, s.N()));
  }

  /** The core of everybody who is up after a round body: one view further, and with the proposed block in it if there
      is one, certified exactly when a quorum of others is up. */
  ghost predicate BodyEffect(s: SimState, c: Core, b: Option<Block>, d: Core) {
    if b.None? then d == CoreAdvance(c)
    else exists qc: Option<QuorumCert> ::
           && d == CoreRound(c, b.value, qc)
           && (qc.Some? <==> |Up(s)| - 1 >= Quorum.Size(s.N()))
           && (qc.Some? ==> qc.value.blockHash == b.value.hash)
  }

  /** What the leader proposes, given what everybody shares. */
  ghost predicate Extends(c: Core, b: Block) {
    && (forall h :: h in c.tree ==> h < b.hash)
    && b.qc == c.highQc
    && b.parent == if c.highQc.Some? then Some(c.highQc.value.blockHash) else LatestHash(c.tree)
  }

  lemma ProposedExtends(s: SimState, kind: RoundKind, now: nat, p: ReplicaState, b: Block, c: Core)
    requires s.Shaped() && s.N() > 0 && Agreed(s)
    requires CurrentLeader(s) !in s.Down() && Proposal(s, kind, now) == (p, Some(b))
    requires c == CoreOf(s.replicas[CurrentLeader(s)])
    ensures Extends(c, b)
  {
    hide Agreed, CurrentLeader, StaticQueue, ReplicaState.LeaderFor, SimState.Shaped, LatestHash, ProposeKind;
    var r := s.replicas[CurrentLeader(s)];
    ProposalFacts(s, kind, now, p, b, c);
    ProposalMakes(r, kind, r.currentView, s.nextGlobalHash, now);
  }

  /** The block a round body proposes, if any. */
  ghost function BodyProposal(s: SimState, kind: RoundKind, now: nat): Option<Block>
    requires s.N() > 0
  {
    if CurrentLeader(s) in s.Down() then None else Proposal(s, kind, now).1
  }

  lemma SkipCore(s: SimState, reason: Reason, mark: bool, next: Hash, i: nat)
    requires s.Shaped() && s.Live(i)
    ensures CoreOf(Skip(s, reason, mark).replicas[i]) == CoreAdvance(CoreOf(s.replicas[i]))
    ensures Skip(s, reason, mark).(nextGlobalHash := next).replicas == Skip(s, reason, mark).replicas
  {
    AdvanceCore(s.replicas[i], reason);
    hide ReplicaState.AdvanceView;
  }

  lemma SharedCore(s: SimState, i: nat, j: nat)
    requires Agreed(s) && s.Live(i) && s.Live(j)
    ensures CoreOf(s.replicas[i]) == CoreOf(s.replicas[j])
  {
    assert AllAt(s, CoreOf(s.replicas[j]));
  }

  lemma BodyCore(s: SimState, kind: RoundKind, now: nat, i: nat)
    requires s.Shaped() && s.N() > 0 && Agreed(s) && InPlace(s) && s.Live(i)
    ensures RoundBody(s, kind, now).N() == s.N()
    ensures BodyEffect(s, CoreOf(s.replicas[i]), BodyProposal(s, kind, now),
                       CoreOf(RoundBody(s, kind, now).replicas[i]))
    ensures BodyProposal(s, kind, now).Some? ==> Extends(CoreOf(s.replicas[i]), BodyProposal(s, kind, now).value)
  {
    hide Agreed, AllAt, Skip, ProposedRound, RoundReplicas, Healthy, Acceptable, CurrentLeader, CoreOf, VotesFor,
      Collect, StaticQueue, ReplicaState.LeaderFor, SimState.Shaped, InPlace, Up, Proposal, CoreRound, CoreAdvance,
      CoreInsert, Extends;
    var leader := CurrentLeader(s);
    var (p, b) := Proposal(s, kind, now);
    RoundBodyShaped(s, kind, now);
    SkipCore(s, Timeout, kind.Plain?, s.nextGlobalHash + 1, i);
    SkipCore(s, Commit, kind.Plain?, s.nextGlobalHash + 1, i);
    if leader !in s.Down() && b.Some? {
      var c := CoreOf(s.replicas[leader]);
      ProposalFacts(s, kind, now, p, b.value, c);
      SharedCore(s, i, leader);
      ProposedExtends(s, kind, now, p, b.value, c);
      var u := ProposedRound(s, leader, p, b.value);
      ProposedRoundParts(s, leader, p, b.value, u);
      var d := ProposedRoundCore(s, leader, p, b.value, c);
      CertifiesIff(s, kind, now, p, b.value);
      FormedFor(s, kind, now, p, b.value);
      assert CoreOf(u.replicas[i]) == d;
    }
  }

  // ----- What a step makes of it -----

  /** The replicas that are up when a round has moved the clock; in any other step, those that are up. */
  function UpIn(s: SimState, a: Action): set<nat>
    requires s.Shaped()
  {
    if a.RunRound? then Up(Started(s)) else Up(s)
  }

  /** Nothing but the view may change without a proposal; with one, the round is that of BodyEffect. */
  ghost predicate StepEffect(c: Core, added: seq<Block>, d: Core, enough: bool) {
    if added == [] then d == c || d == CoreAdvance(c)
    else
      && Extends(c, added[0])
      && exists qc: Option<QuorumCert> ::
           && d == CoreRound(c, added[0], qc)
           && (qc.Some? <==> enough)
           && (qc.Some? ==> qc.value.blockHash == added[0].hash)
  }

  lemma CrashKeeps(s: SimState, ids: set<nat>, i: nat)
    requires s.Shaped() && CrashSet(s, ids).Live(i)
    ensures s.Live(i) && CrashSet(s, ids).replicas[i] == s.replicas[i] && Up(CrashSet(s, ids)) <= Up(s)
  {
    hide Blank;
  }

  lemma CrashUp(s: SimState, ids: set<nat>)
    requires s.Shaped()
    ensures Up(CrashSet(s, ids)) <= Up(s)
  {
    hide Blank;
  }

  lemma StartedKeeps(s: SimState, i: nat)
    requires s.Shaped() && Started(s).Live(i)
    ensures s.Live(i) && Started(s).replicas[i] == s.replicas[i]
  {
    hide CrashSet, TimedOut, SimState.Shaped;
    var t := s.(time := s.time + s.roundTime);
    ClockOnly(s);
    if s.persistence { CrashKeeps(t, TimedOut(t), i); }
    ClockLive(s, i);
  }

  lemma ClockLive(s: SimState, i: nat)
    ensures var t := s.(time := s.time + s.roundTime);
            t.Live(i) == s.Live(i) && t.replicas == s.replicas && Up(t) == Up(s)
  {
  }

  lemma StartedUp(s: SimState)
    requires s.Shaped()
    ensures Up(Started(s)) <= Up(s)
  {
    hide CrashSet, TimedOut, SimState.Shaped, Up;
    var t := s.(time := s.time + s.roundTime);
    ClockOnly(s);
    ClockLive(s, 0);
    CrashUp(t, TimedOut(t));
  }

  lemma BodyUp(s: SimState, kind: RoundKind, now: nat)
    requires s.Shaped() && s.N() > 0
    ensures Up(RoundBody(s, kind, now)) == Up(s) && RoundBody(s, kind, now).Down() == s.Down()
  {
    hide Proposal, CurrentLeader, AdvanceUp, RoundReplicas, VotesFor, Collect, Sent, Mark;
    RoundBodyShaped(s, kind, now);
    hide SimState.Shaped;
  }

  lemma RoundUp(s: SimState, kind: RoundKind, now: nat)
    requires s.Shaped()
    ensures Up(Round(s, kind, now)) <= Up(Started(s)) <= Up(s)
  {
    hide RoundBody, CrashSet, TimedOut, SimState.Shaped, Started, Up;
    StartedUp(s);
    var t := Started(s);
    if !Refused(t) {
      RefusedEmpty(t);
      BodyUp(t, kind, now);
      RoundBodyShaped(t, kind, now);
      CrashUp(RoundBody(t, kind, now), TimedOut(RoundBody(t, kind, now)));
    }
  }

  lemma RoundCore(s: SimState, kind: RoundKind, now: nat, i: nat)
    requires s.Shaped() && Agreed(s) && InPlace(s) && Round(s, kind, now).Live(i)
    ensures s.Live(i)
    ensures StepEffect(CoreOf(s.replicas[i]), ProposedIn(s, RunRound(kind, now)),
                       CoreOf(Round(s, kind, now).replicas[i]), |Up(Started(s))| - 1 >= Quorum.Size(s.N()))
  {
    hide RoundBody, Agreed, CrashSet, TimedOut, SimState.Shaped, Started, InPlace, Proposal, CurrentLeader, Up, CoreOf,
      Extends, CoreRound, CoreAdvance, SimState.Down;
    var t := Started(s);
    StartedAgreed(s);
    StartedInPlace(s);
    if Refused(t) {
      StartedKeeps(s, i);
    } else {
      RefusedEmpty(t);
      RoundBodyShaped(t, kind, now);
      var u := RoundBody(t, kind, now);
      BodyUp(t, kind, now);
      if kind.Plain? && u.persistence { CrashKeeps(u, TimedOut(u), i); }
      assert u.Live(i) && t.Live(i);
      StartedKeeps(s, i);
      BodyCore(t, kind, now, i);
    }
  }

  /** A step that leaves cores and who is up alone. */
  lemma QuietCore(s: SimState, a: Action, t: SimState, i: nat)
    requires !a.RunRound? && s.Shaped() && t.Live(i) && t.N() == s.N() && s.Down() <= t.Down()
    requires CoreOf(t.replicas[i]) == CoreOf(s.replicas[i])
    ensures Up(t) <= UpIn(s, a) <= Up(s) && s.Live(i) && ProposedIn(s, a) == []
    ensures StepEffect(CoreOf(s.replicas[i]), ProposedIn(s, a), CoreOf(t.replicas[i]),
                       |UpIn(s, a)| - 1 >= Quorum.Size(s.N()))
  {
    hide CoreOf, StepEffect, Ids;
    SameCoreEffect(CoreOf(s.replicas[i]), |UpIn(s, a)| - 1 >= Quorum.Size(s.N()));
  }

  lemma CrashCore(s: SimState, id: nat, i: nat)
    requires s.Shaped() && CrashReplica(s, id).Live(i)
    ensures var t := CrashReplica(s, id);
            t.N() == s.N() && s.Down() <= t.Down() && CoreOf(t.replicas[i]) == CoreOf(s.replicas[i])
  {
    hide Blank, CoreOf;
  }

  lemma EnqueueCore(s: SimState, command: Command, i: nat)
    requires s.Shaped() && i < s.N()
    ensures var t := EnqueueOnLeader(s, command);
            t.N() == s.N() && t.Down() == s.Down() && CoreOf(t.replicas[i]) == CoreOf(s.replicas[i])
  {
    hide CurrentLeader;
  }

  lemma DummiesKeepCore(s: SimState, enabled: bool, timeoutMs: nat, i: nat)
    requires s.Shaped() && i < s.N()
    ensures var t := SetAllDummies(s, enabled, timeoutMs);
            t.N() == s.N() && t.Down() == s.Down() && CoreOf(t.replicas[i]) == CoreOf(s.replicas[i])
  {
  }

  lemma StepCore(s: SimState, a: Action, i: nat)
    requires s.Shaped() && Agreed(s) && InPlace(s) && Departure(a) && Step(s, a).Live(i)
    ensures Up(Step(s, a)) <= UpIn(s, a) <= Up(s)
    ensures s.Live(i)
    ensures StepEffect(CoreOf(s.replicas[i]), ProposedIn(s, a), CoreOf(Step(s, a).replicas[i]),
                       |UpIn(s, a)| - 1 >= Quorum.Size(s.N()))
  {
    hide Agreed, Round, CrashReplica, InPlace, EnqueueOnLeader, SetAllDummies, Started, StepEffect, CoreOf, Up, UpIn,
      ProposedIn, SimState.Shaped;
    StepShaped(s, a);
    match a
    case RunRound(kind, now) => StepRoundCore(s, kind, now, i);
    case SetUnresponsive(id, _) => QuietCore(s, a, Step(s, a), i);
    case Crash(id) =>
      CrashCore(s, id, i);
      QuietCore(s, a, Step(s, a), i);
    case EnqueueCommand(command) =>
      EnqueueCore(s, command, i);
      QuietCore(s, a, Step(s, a), i);
    case SetDummies(enabled, timeoutMs) =>
      DummiesKeepCore(s, enabled, timeoutMs, i);
      QuietCore(s, a, Step(s, a), i);
  }

  lemma StepRoundCore(s: SimState, kind: RoundKind, now: nat, i: nat)
    requires s.Shaped() && Agreed(s) && InPlace(s) && Round(s, kind, now).Live(i)
    ensures var a := RunRound(kind, now);
            && Up(Round(s, kind, now)) <= UpIn(s, a) <= Up(s) && s.Live(i)
            && StepEffect(CoreOf(s.replicas[i]), ProposedIn(s, a), CoreOf(Round(s, kind, now).replicas[i]),
                          |UpIn(s, a)| - 1 >= Quorum.Size(s.N()))
  {
    hide Agreed, Round, InPlace, Started, StepEffect, CoreOf, Up, ProposedIn, SimState.Shaped;
    RoundUp(s, kind, now);
    RoundCore(s, kind, now, i);
  }

  lemma SameCoreEffect(c: Core, enough: bool)
    ensures StepEffect(c, [], c, enough)
  {
  }

  lemma HealthyAt(s: SimState, i: nat)
    requires Agreed(s) && s.Live(i)
    ensures Healthy(CoreOf(s.replicas[i]), s.nextGlobalHash)
  {
    assert AllAt(s, CoreOf(s.replicas[i]));
  }

  lemma EffectCertified(c: Core, next: Hash, added: seq<Block>, d: Core, enough: bool)
    requires Healthy(c, next) && StepEffect(c, added, d, enough) && added != []
    ensures d.highQc.Some? && d.highQc.value.blockHash == added[0].hash <==> enough
  {
    hide CoreRound, LatestHash;
    var qc: Option<QuorumCert> :| d == CoreRound(c, added[0], qc) && (qc.Some? <==> enough)
                                  && (qc.Some? ==> qc.value.blockHash == added[0].hash);
    RoundParts(c, added[0], qc);
  }

  /** However replicas leave: a step that proposes a block ends with everybody who is up holding a certificate for it
      exactly when, leader aside, the replicas that were up in it are a quorum. */
  lemma CertifiedExactly(f: nat, maxSteps: nat, persistence: bool, keystores: seq<KeyStore>, actions: seq<Action>,
                         a: Action, i: nat)
    requires KeysDistributed(keystores)
    requires Departure(a) && forall k :: 0 <= k < |actions| ==> Departure(actions[k])
    requires var s := Drive(NewSim(f, maxSteps, persistence, keystores), actions);
             ProposedIn(s, a) != [] && Step(s, a).Live(i)
    ensures var s := Drive(NewSim(f, maxSteps, persistence, keystores), actions);
            var qc := Step(s, a).replicas[i].highQc;
            qc.Some? && qc.value.blockHash == ProposedIn(s, a)[0].hash <==> |UpIn(s, a)| - 1 >= Quorum.Size(|keystores|)
  {
    hide NewSim, Drive, Agreed, InPlace, UpIn, Step, ProposedIn, StepEffect, Healthy;
    var start := NewSim(f, maxSteps, persistence, keystores);
    StartAgreed(f, maxSteps, persistence, keystores);
    StartInPlace(f, maxSteps, persistence, keystores);
    UpShrinks(start, actions);
    var s := Drive(start, actions);
    StepCore(s, a, i);
    HealthyAt(s, i);
    EffectCertified(CoreOf(s.replicas[i]), s.nextGlobalHash, ProposedIn(s, a), CoreOf(Step(s, a).replicas[i]),
                    |UpIn(s, a)| - 1 >= Quorum.Size(|keystores|));
  }

  // ----- Exactly which proposed blocks are committed -----

  /** No block carries a certificate, and nothing is committed. */
  ghost predicate Uncertified(c: Core) {
    c.highQc.None? && c.log == [] && forall h :: h in c.tree ==> c.tree[h].qc.None?
  }

  /** What everybody who is up shares once these blocks were proposed, the first m of them with a quorum of others. */
  ghost predicate Progressed(c: Core, bs: seq<Block>, m: nat) {
    if m > 0 || bs == [] then Linear(c, bs, m) else Uncertified(c)
  }

  ghost predicate ProgressedAll(s: SimState, bs: seq<Block>, m: nat) {
    forall i: nat :: s.Live(i) ==> Progressed(CoreOf(s.replicas[i]), bs, m)
  }

  lemma ProgressedLater(c: Core, bs: seq<Block>, m: nat)
    requires Progressed(c, bs, m)
    ensures Progressed(CoreAdvance(c), bs, m)
  {
  }

  lemma LinearParent(c: Core, bs: seq<Block>, m: nat, b: Block)
    requires Linear(c, bs, m) && Extends(c, b) && (m > 0 || bs == [])
    ensures m <= |bs| && b.parent == Some(Spine(bs)[m]) && (b.qc.Some? <==> bs != [])
    ensures forall h :: h in c.tree ==> h < b.hash
  {
    hide LogIsLowerPart, Heads, Linked, LatestHash, StrictlyAscending, ToSet, Spine;
    if bs == [] {
      EmptySpine();
      OnlyGenesis(c.tree);
    }
  }

  lemma EmptySpine()
    ensures ToSet(Spine([])) == {0}
  {
    assert Spine([]) == [0];
  }

  lemma OnlyGenesis(t: Tree)
    requires t.Keys == {0}
    ensures LatestHash(t) == Some(0)
  {
  }

  lemma NoHeads(t: Tree)
    requires forall h :: h in t ==> t[h].qc.None?
    ensures Heads(t) == {} && Commits(t, []) == []
  {
    assert BlocksAt(t, []) == [];
  }

  /** Without any certificate nothing commits. */
  lemma UncertifiedRound(c: Core, b: Block)
    requires Uncertified(c) && b.qc.None?
    ensures Uncertified(CoreRound(c, b, None))
  {
    hide CoreRound, Commits;
    RoundParts(c, b, None);
    NoHeads(Insert(c.tree, b));
  }

  lemma NothingProposed(c: Core, m: nat)
    requires Linear(c, [], m)
    ensures Uncertified(c)
  {
    LinearLog(c, [], m);
    LinearGenesis(c.tree, m);
    hide LinearTree, LogIsLowerPart, Heads;
  }

  lemma LinearGenesis(t: Tree, m: nat)
    requires LinearTree(t, [], m)
    ensures m == 0 && t.Keys == {0} && t[0] == GENESIS
  {
    EmptySpine();
  }

  lemma ProgressedRound(c: Core, bs: seq<Block>, m: nat, b: Block, qc: Option<QuorumCert>)
    requires Progressed(c, bs, m) && Extends(c, b) && (qc.Some? ==> m == |bs| && qc.value.blockHash == b.hash)
    ensures Progressed(CoreRound(c, b, qc), bs + [b], if qc.Some? then m + 1 else m)
  {
    hide Linear, Extends, CoreRound, Uncertified;
    if m > 0 || (bs == [] && qc.Some?) {
      LinearParent(c, bs, m, b);
      LinearRound(c, bs, m, b, qc);
    } else {
      if bs == [] { NothingProposed(c, m); }
      ExtendsQc(c, b);
      UncertifiedRound(c, b);
    }
  }

  lemma ProgressedEffect(c: Core, bs: seq<Block>, m: nat, added: seq<Block>, d: Core, enough: bool)
    requires Progressed(c, bs, m) && StepEffect(c, added, d, enough) && |added| <= 1 && (enough ==> m == |bs|)
    ensures Progressed(d, bs + added, if enough then m + |added| else m)
  {
    hide Progressed, Extends, CoreRound, CoreAdvance;
    if added == [] {
      ProgressedLater(c, bs, m);
      assert bs + added == bs;
    } else {
      var b := added[0];
      var qc: Option<QuorumCert> :| d == CoreRound(c, b, qc) && (qc.Some? <==> enough)
                                    && (qc.Some? ==> qc.value.blockHash == b.hash);
      assert added == [b];
      ProgressedRound(c, bs, m, b, qc);
    }
  }

  lemma ExtendsQc(c: Core, b: Block)
    requires Extends(c, b) && Uncertified(c)
    ensures b.qc.None?
  {
  }

  lemma {:induction false} UpShrinks(s: SimState, actions: seq<Action>)
    requires s.Shaped() && Agreed(s) && InPlace(s)
    requires forall i :: 0 <= i < |actions| ==> Departure(actions[i])
    ensures var t := Drive(s, actions); Agreed(t) && InPlace(t) && t.N() == s.N() && Up(t) <= Up(s)
    decreases |actions|
  {
    hide Agreed, InPlace, Step, SimState.Shaped, Up, StepEffect, UpIn;
    if actions != [] {
      var init, last := actions[..|actions| - 1], actions[|actions| - 1];
      UpShrinks(s, init);
      var mid := Drive(s, init);
      StepAgreed(mid, last);
      StepInPlace(mid, last);
      StepUp(mid, last);
    }
  }

  lemma StepUp(s: SimState, a: Action)
    requires s.Shaped() && Agreed(s) && InPlace(s) && Departure(a)
    ensures Up(Step(s, a)) <= UpIn(s, a) <= Up(s)
  {
    StepShaped(s, a);
    var t := Step(s, a);
    hide Agreed, InPlace, Step, SimState.Shaped, UpIn, StepEffect;
    UpInShrinks(s, a);
    forall i | i in Up(t) ensures i in UpIn(s, a) {
      assert t.Live(i);
      StepCore(s, a, i);
    }
  }

  lemma UpInShrinks(s: SimState, a: Action)
    requires s.Shaped()
    ensures UpIn(s, a) <= Up(s)
  {
    hide Started, Up;
    StartedUp(s);
  }

  /** How many of the proposals of a run were made while a quorum besides the leader was up. */
  ghost function WithQuorum(s: SimState, actions: seq<Action>): nat
    requires s.Shaped()
    decreases |actions|
  {
    if actions == [] then 0
    else
      var init, last := actions[..|actions| - 1], actions[|actions| - 1];
      var mid := Drive(s, init);
      WithQuorum(s, init) +
      if |UpIn(mid, last)| > Quorum.Size(s.N()) then |ProposedIn(mid, last)| else 0
  }

  /** Once there are too few to be a quorum besides the leader there are never enough again. */
  lemma QuorumFalls(s: SimState, a: Action)
    requires s.Shaped() && Agreed(s) && InPlace(s) && Departure(a)
    ensures |Up(Step(s, a))| <= |UpIn(s, a)| <= |Up(s)|
  {
    hide Agreed, InPlace, Step, SimState.Shaped, Up, UpIn;
    StepUp(s, a);
    Quorum.Subset(Up(Step(s, a)), UpIn(s, a));
    Quorum.Subset(UpIn(s, a), Up(s));
  }

  /** All of these proposals are certified as long as a quorum of others is up. */
  ghost predicate CertifiedSoFar(s: SimState, bs: seq<Block>, m: nat) {
    |Up(s)| > Quorum.Size(s.N()) ==> m == |bs|
  }

  lemma ProgressedStep(s: SimState, a: Action, bs: seq<Block>, m: nat)
    requires s.Shaped() && Agreed(s) && InPlace(s) && Departure(a)
    requires ProgressedAll(s, bs, m) && CertifiedSoFar(s, bs, m)
    ensures var next := if |UpIn(s, a)| > Quorum.Size(s.N()) then m + |ProposedIn(s, a)| else m;
            && ProgressedAll(Step(s, a), bs + ProposedIn(s, a), next)
            && Step(s, a).N() == s.N() && CertifiedSoFar(Step(s, a), bs + ProposedIn(s, a), next)
  {
    hide Agreed, InPlace, Step, SimState.Shaped, Up, StepEffect, UpIn, Progressed, CoreOf, ProposedIn;
    StepShaped(s, a);
    QuorumFalls(s, a);
    AtMostOne(s, a);
    var added, enough := ProposedIn(s, a), |UpIn(s, a)| - 1 >= Quorum.Size(s.N());
    forall i: nat | Step(s, a).Live(i)
      ensures Progressed(CoreOf(Step(s, a).replicas[i]), bs + added, if enough then m + |added| else m)
    {
      StepCore(s, a, i);
      ProgressedEffect(CoreOf(s.replicas[i]), bs, m, added, CoreOf(Step(s, a).replicas[i]), enough);
    }
  }

  lemma {:induction false} ProgressedRun(s: SimState, actions: seq<Action>, bs: seq<Block>, m: nat)
    requires s.Shaped() && Agreed(s) && InPlace(s) && ProgressedAll(s, bs, m) && CertifiedSoFar(s, bs, m)
    requires forall i :: 0 <= i < |actions| ==> Departure(actions[i])
    ensures var all, next := bs + Proposals(s, actions), m + WithQuorum(s, actions);
            ProgressedAll(Drive(s, actions), all, next) && CertifiedSoFar(Drive(s, actions), all, next)
    decreases |actions|
  {
    hide Agreed, InPlace, Step, SimState.Shaped, UpIn, ProposedIn, ProgressedAll, CertifiedSoFar;
    if actions == [] {
      assert bs + Proposals(s, actions) == bs;
    } else {
      var init, last := actions[..|actions| - 1], actions[|actions| - 1];
      ProgressedRun(s, init, bs, m);
      UpShrinks(s, init);
      var mid := Drive(s, init);
      ProgressedStep(mid, last, bs + Proposals(s, init), m + WithQuorum(s, init));
      assert bs + Proposals(s, init) + ProposedIn(mid, last) == bs + Proposals(s, actions);
    }
  }

  lemma StartProgressed(f: nat, maxSteps: nat, persistence: bool, keystores: seq<KeyStore>)
    ensures ProgressedAll(NewSim(f, maxSteps, persistence, keystores), [], 0)
    ensures CertifiedSoFar(NewSim(f, maxSteps, persistence, keystores), [], 0)
  {
    var s := NewSim(f, maxSteps, persistence, keystores);
    var n := |keystores|;
    forall i: nat | s.Live(i) ensures Progressed(CoreOf(s.replicas[i]), [], 0) {
      NewReplicaCore(Config(n, f, i, 5000), keystores[i], persistence);
      hide NewReplica;
      StartCoreLinear(n, keystores[i].publicKeys);
    }
  }

  lemma StartCoreLinear(n: nat, publicKeys: map<ReplicaId, Key>)
    ensures Linear(StartCore(n, publicKeys), [], 0)
  {
    var t := map[0 := GENESIS];
    assert Spine([]) == [0];
    assert Heads(t) == {};
    assert BlocksAt(t, Ascending({})) == [];
  }

  /** Every departure schedule, from the start. */
  lemma RunProgressed(f: nat, maxSteps: nat, persistence: bool, keystores: seq<KeyStore>, actions: seq<Action>)
    requires KeysDistributed(keystores)
    requires forall i :: 0 <= i < |actions| ==> Departure(actions[i])
    ensures var start := NewSim(f, maxSteps, persistence, keystores);
            var s, bs, m := Drive(start, actions), Proposals(start, actions), WithQuorum(start, actions);
            Agreed(s) && InPlace(s) && s.N() == |keystores| && ProgressedAll(s, bs, m) && CertifiedSoFar(s, bs, m)
  {
    hide NewSim, Drive, Agreed, InPlace, Up, Proposals, WithQuorum, ProgressedAll, CertifiedSoFar, KeysDistributed,
      Departure, SimState.Shaped;
    var start := NewSim(f, maxSteps, persistence, keystores);
    StartAgreed(f, maxSteps, persistence, keystores);
    StartInPlace(f, maxSteps, persistence, keystores);
    StartProgressed(f, maxSteps, persistence, keystores);
    UpShrinks(start, actions);
    ProgressedRun(start, actions, [], 0);
    assert [] + Proposals(start, actions) == Proposals(start, actions);
  }

  /** What is committed, and what the certificate is for, in such a state. */
  ghost predicate CommittedThese(c: Core, bs: seq<Block>, m: nat) {
    && m <= |bs| && Settled(|bs|, m) <= |bs|
    && c.log == bs[..Settled(|bs|, m)]
    && (c.highQc.Some? <==> m > 0)
    && (m > 0 ==> c.highQc.value.blockHash == bs[m - 1].hash)
  }

  lemma ProgressedMeans(c: Core, bs: seq<Block>, m: nat)
    requires Progressed(c, bs, m)
    ensures CommittedThese(c, bs, m)
  {
    if m > 0 || bs == [] { LinearLog(c, bs, m); }
    hide LinearTree, LogIsLowerPart, Heads;
  }

  /** However replicas leave: of the proposed blocks exactly those made while a quorum besides the leader was up are
      certified, m of them, and everybody who is up has committed exactly the first m - 2, in the order of proposal, or
      the first m - 1 if another block was proposed after those. */
  lemma CommittedExactly(f: nat, maxSteps: nat, persistence: bool, keystores: seq<KeyStore>, actions: seq<Action>,
                         i: nat)
    requires KeysDistributed(keystores)
    requires forall k :: 0 <= k < |actions| ==> Departure(actions[k])
    requires Drive(NewSim(f, maxSteps, persistence, keystores), actions).Live(i)
    ensures var start := NewSim(f, maxSteps, persistence, keystores);
            var bs, m := Proposals(start, actions), WithQuorum(start, actions);
            CommittedThese(CoreOf(Drive(start, actions).replicas[i]), bs, m)
  {
    hide NewSim, Drive, Agreed, InPlace, CoreOf, Proposals, WithQuorum, CertifiedSoFar, Progressed, CommittedThese;
    var start := NewSim(f, maxSteps, persistence, keystores);
    RunProgressed(f, maxSteps, persistence, keystores, actions);
    ProgressedMeans(CoreOf(Drive(start, actions).replicas[i]), Proposals(start, actions), WithQuorum(start, actions));
  }

  /** As long as a quorum besides the leader is still up at the end, that is everything but the last two blocks, and
      the tree is a single chain of them all. */
  lemma CommittedWhileQuorum(f: nat, maxSteps: nat, persistence: bool, keystores: seq<KeyStore>, actions: seq<Action>)
    requires KeysDistributed(keystores)
    requires forall i :: 0 <= i < |actions| ==> Departure(actions[i])
    requires |Up(Drive(NewSim(f, maxSteps, persistence, keystores), actions))| > Quorum.Size(|keystores|)
    ensures var start := NewSim(f, maxSteps, persistence, keystores);
            var proposed := Proposals(start, actions);
            forall i: nat :: Drive(start, actions).Live(i) ==>
              && Drive(start, actions).replicas[i].committedLog ==
                 proposed[..if |proposed| >= 2 then |proposed| - 2 else 0]
              && LinearTree(Drive(start, actions).replicas[i].blockTree, proposed, |proposed|)
  {
    hide NewSim, Drive, Agreed, InPlace, Up, Proposals, WithQuorum, LinearTree;
    var start := NewSim(f, maxSteps, persistence, keystores);
    RunProgressed(f, maxSteps, persistence, keystores, actions);
    var s, bs := Drive(start, actions), Proposals(start, actions);
    forall i: nat | s.Live(i)
      ensures s.replicas[i].committedLog == bs[..if |bs| >= 2 then |bs| - 2 else 0]
      ensures LinearTree(s.replicas[i].blockTree, bs, |bs|)
    {
      LinearLog(CoreOf(s.replicas[i]), bs, |bs|);
    }
  }

  // ----- Once there is no quorum of others any more -----

  /** Without a quorum of others no step counts. */
  lemma {:induction false} NoneCount(s: SimState, actions: seq<Action>)
    requires s.Shaped() && Agreed(s) && InPlace(s) && |Up(s)| <= Quorum.Size(s.N())
    requires forall i :: 0 <= i < |actions| ==> Departure(actions[i])
    ensures WithQuorum(s, actions) == 0
    decreases |actions|
  {
    hide Agreed, InPlace, Step, SimState.Shaped, Up, UpIn, ProposedIn;
    if actions != [] {
      var init, last := actions[..|actions| - 1], actions[|actions| - 1];
      NoneCount(s, init);
      UpShrinks(s, init);
      QuorumFalls(Drive(s, init), last);
      Quorum.Subset(Up(Drive(s, init)), Up(s));
    }
  }

  lemma SameQcEffect(c: Core, added: seq<Block>, d: Core)
    requires StepEffect(c, added, d, false)
    ensures d.highQc == c.highQc
  {
    hide CoreRound, Extends;
    if added != [] { RoundParts(c, added[0], None); }
  }

  lemma {:induction false} SameQcRun(s: SimState, actions: seq<Action>, i: nat)
    requires s.Shaped() && Agreed(s) && InPlace(s) && |Up(s)| <= Quorum.Size(s.N())
    requires forall k :: 0 <= k < |actions| ==> Departure(actions[k])
    requires Drive(s, actions).Live(i)
    ensures s.Live(i) && Drive(s, actions).replicas[i].highQc == s.replicas[i].highQc
    decreases |actions|
  {
    hide Agreed, InPlace, Step, SimState.Shaped, Up, UpIn, ProposedIn, StepEffect;
    if actions != [] {
      var init, last := actions[..|actions| - 1], actions[|actions| - 1];
      UpShrinks(s, init);
      var mid := Drive(s, init);
      QuorumFalls(mid, last);
      Quorum.Subset(Up(mid), Up(s));
      StepCore(mid, last, i);
      SameQcEffect(CoreOf(mid.replicas[i]), ProposedIn(mid, last), CoreOf(Step(mid, last).replicas[i]));
      SameQcRun(s, init, i);
    }
  }

  /** Once the replicas that are up are too few, the leader aside, to be a quorum, the high certificate never changes
      again, and with m blocks certified exactly one more block is ever committed: the one before the certified one, as
      soon as any block is proposed on top of that, and if there are two certified ones at all. */
  lemma NothingNewWithoutQuorum(f: nat, maxSteps: nat, persistence: bool, keystores: seq<KeyStore>,
                                before: seq<Action>, after: seq<Action>, i: nat)
    requires KeysDistributed(keystores)
    requires forall k :: 0 <= k < |before| ==> Departure(before[k])
    requires forall k :: 0 <= k < |after| ==> Departure(after[k])
    requires var s := Drive(NewSim(f, maxSteps, persistence, keystores), before);
             |Up(s)| <= Quorum.Size(|keystores|) && Drive(s, after).Live(i)
    ensures var start := NewSim(f, maxSteps, persistence, keystores);
            var s := Drive(start, before);
            && s.Live(i)
            && var r, q := s.replicas[i], Drive(s, after).replicas[i];
               var bs, m := Proposals(start, before), WithQuorum(start, before);
               && q.highQc == r.highQc && m <= |bs|
               && q.committedLog ==
                  r.committedLog + if |bs| == m >= 2 && Proposals(s, after) != [] then [bs[m - 2]] else []
  {
    hide NewSim, Drive, Agreed, InPlace, Up, Proposals, WithQuorum, ProgressedAll, CertifiedSoFar, SimState.Shaped;
    var start := NewSim(f, maxSteps, persistence, keystores);
    RunProgressed(f, maxSteps, persistence, keystores, before);
    LaterOn(Drive(start, before), after, Proposals(start, before), WithQuorum(start, before), i);
  }

  lemma LaterOn(s: SimState, after: seq<Action>, bs: seq<Block>, m: nat, i: nat)
    requires s.Shaped() && Agreed(s) && InPlace(s) && ProgressedAll(s, bs, m) && CertifiedSoFar(s, bs, m)
    requires |Up(s)| <= Quorum.Size(s.N()) && forall k :: 0 <= k < |after| ==> Departure(after[k])
    requires Drive(s, after).Live(i)
    ensures s.Live(i) && m <= |bs|
    ensures var r, q, more := s.replicas[i], Drive(s, after).replicas[i], Proposals(s, after);
            && q.highQc == r.highQc
            && q.committedLog == r.committedLog + if |bs| == m >= 2 && more != [] then [bs[m - 2]] else []
  {
    hide Drive, Agreed, InPlace, Up, Proposals, WithQuorum, Progressed, CertifiedSoFar, SimState.Shaped, CoreOf,
      CommittedThese;
    SameQcRun(s, after, i);
    NoneCount(s, after);
    ProgressedRun(s, after, bs, m);
    var r, q, more := s.replicas[i], Drive(s, after).replicas[i], Proposals(s, after);
    ProgressedMeans(CoreOf(r), bs, m);
    ProgressedMeans(CoreOf(q), bs + more, m);
    OneLater(r, q, bs, more, m);
  }

  lemma OneLater(r: ReplicaState, q: ReplicaState, bs: seq<Block>, more: seq<Block>, m: nat)
    requires CommittedThese(CoreOf(r), bs, m) && CommittedThese(CoreOf(q), bs + more, m)
    ensures m <= |bs|
    ensures q.committedLog == r.committedLog + if |bs| == m >= 2 && more != [] then [bs[m - 2]] else []
  {
    var k := Settled(|bs + more|, m);
    assert k <= |bs| && (bs + more)[..k] == bs[..k];
    if |bs| == m >= 2 && more != [] { assert bs[..m - 1] == bs[..m - 2] + [bs[m - 2]]; }
  }
}
