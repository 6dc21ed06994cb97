/** Agreement with departures: replicas may become unresponsive or crash, and do not return. */
module Agreement {
  import opened Types
  import opened Ordered
  import opened Crypto
  import opened CommitRule
  import opened Storage
  import opened ReplicaModel
  import opened SimModel
  import Quorum

  /** What live replicas must agree on. */
  datatype Core = Core(
    view: nat, tree: Tree, highQc: Option<QuorumCert>, log: seq<Block>, upTo: Option<Hash>,
    validators: set<ReplicaId>, epoch: nat, publicKeys: map<ReplicaId, Key>,
    pool: map<Hash, seq<Signature>>, n: nat)

  function CoreOf(r: ReplicaState): Core {
    Core(r.currentView, r.blockTree, r.highQc, r.committedLog, r.committedUpTo, r.activeValidators,
         r.configEpoch, r.keystore.publicKeys, r.votePool, r.config.n)
  }

  function CoreInsert(c: Core, b: Block): Core {
    c.(tree := c.tree[b.hash := b])
  }

  function CoreLearn(c: Core, qc: Option<QuorumCert>): Core {
    if qc.Some? then c.(highQc := qc) else c
  }

  function CoreAppend(c: Core, bs: seq<Block>): Core {
    if bs == [] then c else c.(log := c.log + bs, upTo := Some(bs[|bs| - 1].hash))
  }

  ghost function CoreCommit(c: Core): Core {
    CoreAppend(c, Commits(c.tree, c.log))
  }

  function CoreAdvance(c: Core): Core {
    c.(view := c.view + 1, pool := map[])
  }

  ghost function CoreRound(c: Core, b: Block, qc: Option<QuorumCert>): Core {
    CoreAdvance(CoreCommit(CoreLearn(CoreInsert(c, b), qc)))
  }

  /** A certificate that every holder of these keys accepts, for a block of the tree and an earlier view. */
  ghost predicate GoodQc(c: Core, qc: QuorumCert) {
    && qc.blockHash in c.tree && qc.epoch == c.epoch && qc.view < c.view
    && Certified(KeyStore(0, 0, c.publicKeys), qc, Quorum.Size(|c.validators|))
  }

  /** A live replica between rounds, in a run whose commands never change the membership. */
  ghost predicate Healthy(c: Core, nextHash: Hash) {
    && c.validators != {}
    && c.pool == map[]
    && Keyed(c.tree) && c.tree != map[]
    && (forall h :: h in c.tree ==> h < nextHash && c.tree[h].epoch == c.epoch && Static(c.tree[h].command))
    && (c.highQc.Some? ==> GoodQc(c, c.highQc.value))
  }

  lemma CertifiedByKeys(a: KeyStore, b: KeyStore, qc: QuorumCert, quorum: nat)
    requires a.publicKeys == b.publicKeys
    ensures Certified(a, qc, quorum) == Certified(b, qc, quorum)
  {
    assert ValidSigners(a, qc) == ValidSigners(b, qc);
  }

  // ----- What each part of a round does to the core -----

  lemma StaticCommitKeepsConfig(r: ReplicaState, b: Block)
    requires Static(b.command)
    ensures CoreOf(r.ExecuteAndCommit(b)) == CoreAppend(CoreOf(r), [b])
  {
  }

  lemma {:induction false} CommitEachCore(r: ReplicaState, bs: seq<Block>)
    requires forall i :: 0 <= i < |bs| ==> Static(bs[i].command)
    ensures CoreOf(r.CommitEach(bs)) == CoreAppend(CoreOf(r), bs)
    decreases |bs|
  {
    if bs != [] {
      StaticCommitKeepsConfig(r, bs[0]);
      var q := r.ExecuteAndCommit(bs[0]);
      CommitEachCore(q, bs[1..]);
      hide ReplicaState.ExecuteAndCommit;
      assert r.committedLog + bs == (r.committedLog + [bs[0]]) + bs[1..];
    } else {
      assert r.committedLog + bs == r.committedLog;
    }
  }

  lemma CommitsStatic(t: Tree, log: seq<Block>)
    requires forall h :: h in t ==> Static(t[h].command)
    ensures forall i :: 0 <= i < |Commits(t, log)| ==> Static(Commits(t, log)[i].command)
  {
  }

  lemma FinishCore(r: ReplicaState, persistence: bool)
    requires forall h :: h in r.blockTree ==> Static(r.blockTree[h].command)
    ensures CoreOf(Finish(r, persistence)) == CoreAdvance(CoreCommit(CoreOf(r)))
  {
    hide ReplicaState.CommitEach, Commits, ReplicaState.SnapshotWrites, CoreAppend, ReplicaState.ShouldSnapshot;
    var bs := Commits(r.blockTree, r.committedLog);
    CommitsStatic(r.blockTree, r.committedLog);
    CommitEachCore(r, bs);
  }

  lemma FollowerCore(r: ReplicaState, b: Block, qc: Option<QuorumCert>, persistence: bool)
    requires forall h :: h in r.blockTree ==> Static(r.blockTree[h].command)
    requires Static(b.command) && r.ValidProposal(b)
    requires qc.Some? ==> r.Newer(qc.value)
    ensures CoreOf(FollowerRound(r, b, qc, persistence)) == CoreRound(CoreOf(r), b, qc)
  {
    var i := r.InsertProposal(b);
    assert CoreOf(i) == CoreInsert(CoreOf(r), b) && i.highQc == r.highQc;
    var l := Learn(i, qc);
    assert CoreOf(l) == CoreLearn(CoreOf(i), qc);
    FinishCore(l, persistence);
    hide Finish, CoreCommit, ReplicaState.ValidProposal;
  }

  predicate AllFor(votes: seq<Vote>, b: Block) {
    forall i :: 0 <= i < |votes| ==>
      votes[i].blockHash == b.hash && votes[i].view == b.view && votes[i].epoch == b.epoch
  }

  /** The pool a leader builds for its block, all of one view, and the certificate it leads to. */
  ghost predicate PoolValid(r: ReplicaState, b: Block) {
    && DistinctSigners(r.Pool(b.hash))
    && forall i :: 0 <= i < |r.Pool(b.hash)| ==> r.keystore.Verify(r.Pool(b.hash)[i], b.hash, b.view, b.epoch)
  }

  lemma {:induction false} CollectCore(r: ReplicaState, b: Block, votes: seq<Vote>)
    requires r.Pool(b.hash) == []
    requires AllFor(votes, b)
    ensures var (q, qc) := Collect(r, votes);
            && PoolValid(q, b)
            && q.keystore == r.keystore && q.configEpoch == r.configEpoch
            && CoreOf(q).(pool := r.votePool) == CoreLearn(CoreOf(r), qc)
            && (qc.Some? ==> && qc.value.blockHash == b.hash && qc.value.view == b.view
                             && qc.value.epoch == b.epoch == r.configEpoch
                             && Certified(r.keystore, qc.value, r.QuorumSize()))
    decreases |votes|
  {
    if votes != [] {
      var m := |votes| - 1;
      CollectCore(r, b, votes[..m]);
      var (q, qc) := Collect(r, votes[..m]);
      CollectOne(q, b, votes[m]);
      hide ReplicaState.HandleVote;
    }
  }

  lemma CollectOne(r: ReplicaState, b: Block, vote: Vote)
    requires PoolValid(r, b)
    requires vote.blockHash == b.hash && vote.view == b.view && vote.epoch == b.epoch
    ensures var (q, qc) := r.HandleVote(vote);
            && PoolValid(q, b)
            && q.keystore == r.keystore
            && CoreOf(q).(pool := r.votePool) == CoreLearn(CoreOf(r), qc)
            && (qc.Some? ==> && qc.value.blockHash == b.hash && qc.value.view == b.view
                             && qc.value.epoch == b.epoch == r.configEpoch
                             && Certified(r.keystore, qc.value, r.QuorumSize()))
  {
    if r.Accepts(vote) {
      var p := r.Pooled(vote);
      assert PoolValid(p, b);
      DistinctValidCount(r.keystore, QuorumCert(b.hash, b.view, b.epoch, p.Pool(b.hash)));
    }
  }

  lemma {:induction false} VotesForBlock(rs: seq<ReplicaState>, down: set<nat>, leader: nat, b: Block, k: nat)
    requires k <= |rs|
    ensures AllFor(VotesFor(rs, down, leader, b, k), b)
    decreases k
  {
    if k > 0 {
      VotesForBlock(rs, down, leader, b, k - 1);
    }
  }

  // ----- A whole round -----

  ghost predicate QueuesStatic(s: SimState) {
    forall i, k :: 0 <= i < s.N() && 0 <= k < |s.replicas[i].clientQueue| ==> Static(s.replicas[i].clientQueue[k])
  }

  /** Every live replica has core c, and no log is longer than c's or differs from it. */
  ghost predicate AllAt(s: SimState, c: Core) {
    && (forall i: nat :: s.Live(i) ==> CoreOf(s.replicas[i]) == c)
    && (forall i :: 0 <= i < s.N() ==> s.replicas[i].committedLog <= c.log)
    && Healthy(c, s.nextGlobalHash)
  }

  ghost predicate LogsComparable(s: SimState) {
    forall i, j :: 0 <= i < s.N() && 0 <= j < s.N() ==>
      s.replicas[i].committedLog <= s.replicas[j].committedLog ||
      s.replicas[j].committedLog <= s.replicas[i].committedLog
  }

  /** The live replicas agree on everything that matters, and all logs, theirs and those of departed
      replicas, are prefixes of one another. */
  ghost predicate Agreed(s: SimState) {
    && QueuesStatic(s)
    && LogsComparable(s)
    && forall i: nat :: s.Live(i) ==> AllAt(s, CoreOf(s.replicas[i]))
  }

  lemma AllAtComparable(s: SimState, c: Core)
    requires AllAt(s, c)
    ensures LogsComparable(s)
  {
    forall i, j | 0 <= i < s.N() && 0 <= j < s.N()
      ensures s.replicas[i].committedLog <= s.replicas[j].committedLog ||
              s.replicas[j].committedLog <= s.replicas[i].committedLog
    {
      PrefixesOfOne(s.replicas[i].committedLog, s.replicas[j].committedLog, c.log);
    }
  }

  /** A block that every replica with core c accepts when it comes from the leader of its view. */
  ghost predicate Acceptable(c: Core, b: Block) {
    && b.epoch == c.epoch && b.qc == c.highQc && Static(b.command) && b.view == c.view
    && b.parent.Some? && b.parent.value in c.tree
  }

  lemma ProposalCore(r: ReplicaState, kind: RoundKind, hash: Hash, now: nat)
    requires Healthy(CoreOf(r), hash)
    requires forall k :: 0 <= k < |r.clientQueue| ==> Static(r.clientQueue[k])
    ensures var (p, b) := ProposeKind(r, kind, r.currentView, hash, now);
            b.Some? ==>
              && CoreOf(p) == CoreInsert(CoreOf(r), b.value)
              && b.value.hash == hash && b.value.proposer == r.LeaderFor(r.currentView)
              && Acceptable(CoreOf(r), b.value)
              && p.Pool(hash) == []
  {
  }

  lemma AcceptedByAll(r: ReplicaState, b: Block, proposer: ReplicaId)
    requires Healthy(CoreOf(r), b.hash) && Acceptable(CoreOf(r), b)
    requires b.proposer == proposer == r.LeaderFor(b.view)
    ensures r.ValidProposal(b)
  {
    if b.qc.Some? {
      CertifiedByKeys(r.keystore, KeyStore(0, 0, r.keystore.publicKeys), b.qc.value, r.QuorumSize());
    }
  }

  lemma HealthyRound(c: Core, b: Block, qc: Option<QuorumCert>)
    requires Healthy(c, b.hash) && Acceptable(c, b)
    requires qc.Some? ==>
               && qc.value.blockHash == b.hash && qc.value.view == b.view && qc.value.epoch == c.epoch
               && Certified(KeyStore(0, 0, c.publicKeys), qc.value, Quorum.Size(|c.validators|))
    ensures Healthy(CoreRound(c, b, qc), b.hash + 1)
    ensures c.log <= CoreRound(c, b, qc).log
  {
    hide Commits, Certified;
  }

  lemma SameLeader(r: ReplicaState, q: ReplicaState, view: nat)
    requires r.activeValidators == q.activeValidators && r.activeValidators != {}
    ensures r.LeaderFor(view) == q.LeaderFor(view)
  {
  }

  /** The core every live replica has after the round. */
  lemma ProposedRoundCore(s: SimState, leader: nat, p: ReplicaState, b: Block, c: Core) returns (d: Core)
    requires s.Shaped() && s.Live(leader)
    requires AllAt(s, c) && b.hash == s.nextGlobalHash && Acceptable(c, b)
    requires CoreOf(p) == CoreInsert(c, b) && p.Pool(b.hash) == []
    requires b.proposer == s.replicas[leader].LeaderFor(b.view)
    ensures Healthy(d, b.hash + 1) && c.log <= d.log
    ensures forall i: nat :: s.Live(i) ==> CoreOf(RoundReplicas(s, leader, p, b)[i]) == d
    ensures d == CoreRound(c, b, Collect(p, VotesFor(s.replicas, s.Down(), leader, b, s.N())).1)
  {
    var votes := VotesFor(s.replicas, s.Down(), leader, b, s.N());
    var (l, qc) := Collect(p, votes);
    VotesForBlock(s.replicas, s.Down(), leader, b, s.N());
    CollectCore(p, b, votes);
    assert CoreOf(l).(pool := map[]) == CoreLearn(CoreInsert(c, b), qc);
    if qc.Some? {
      CertifiedByKeys(p.keystore, KeyStore(0, 0, c.publicKeys), qc.value, p.QuorumSize());
    }
    HealthyRound(c, b, qc);
    d := CoreRound(c, b, qc);
    var rs := RoundReplicas(s, leader, p, b);
    hide VotesFor, Collect, Finish, FollowerRound, CoreRound, Certified, CoreInsert, CoreLearn;
    forall i: nat | s.Live(i) ensures CoreOf(rs[i]) == d {
      if i == leader {
        LeaderFinish(l, c, b, qc, s.persistence);
      } else {
        FollowerFinish(s.replicas[i], s.replicas[leader], c, b, qc, s.persistence);
      }
    }
  }

  lemma FollowerFinish(r: ReplicaState, leader: ReplicaState, c: Core, b: Block, qc: Option<QuorumCert>,
                       persistence: bool)
    requires CoreOf(r) == c == CoreOf(leader)
    requires Healthy(c, b.hash) && Acceptable(c, b) && b.proposer == leader.LeaderFor(b.view)
    requires qc.Some? ==> qc.value.view == b.view && qc.value.epoch == c.epoch
    ensures CoreOf(FollowerRound(r, b, qc, persistence)) == CoreRound(c, b, qc)
  {
    SameLeader(r, leader, b.view);
    AcceptedByAll(r, b, b.proposer);
    FollowerCore(r, b, qc, persistence);
    hide FollowerRound, CoreRound;
  }

  lemma LeaderFinish(l: ReplicaState, c: Core, b: Block, qc: Option<QuorumCert>, persistence: bool)
    requires Healthy(c, b.hash) && Static(b.command)
    requires CoreOf(l).(pool := map[]) == CoreLearn(CoreInsert(c, b), qc)
    ensures CoreOf(Finish(l, persistence)) == CoreRound(c, b, qc)
  {
    hide Finish, Commits, GoodQc, Keyed;
    assert l.blockTree == c.tree[b.hash := b];
    FinishCore(l, persistence);
  }

  // ----- The invariant over every departure schedule -----

  predicate StaticQueue(queue: seq<Command>) {
    forall k :: 0 <= k < |queue| ==> Static(queue[k])
  }

  lemma FinishQueue(r: ReplicaState, persistence: bool)
    ensures Finish(r, persistence).clientQueue == r.clientQueue
  {
    hide ReplicaState.SnapshotWrites, Commits;
  }

  lemma FollowerQueue(r: ReplicaState, b: Block, qc: Option<QuorumCert>, persistence: bool)
    ensures FollowerRound(r, b, qc, persistence).clientQueue == r.clientQueue
  {
    FinishQueue(Learn(r.InsertProposal(b), qc), persistence);
    hide Finish, ReplicaState.ValidProposal;
  }

  lemma ProposalQueue(r: ReplicaState, kind: RoundKind, view: nat, hash: Hash, now: nat)
    requires StaticQueue(r.clientQueue)
    ensures StaticQueue(ProposeKind(r, kind, view, hash, now).0.clientQueue)
  {
  }

  lemma RoundQueues(s: SimState, leader: nat, p: ReplicaState, b: Block)
    requires s.Shaped() && leader < s.N() && StaticQueue(p.clientQueue)
    requires forall i :: 0 <= i < s.N() ==> StaticQueue(s.replicas[i].clientQueue)
    ensures forall i :: 0 <= i < s.N() ==> StaticQueue(RoundReplicas(s, leader, p, b)[i].clientQueue)
  {
    var (l, qc) := Collect(p, VotesFor(s.replicas, s.Down(), leader, b, s.N()));
    var rs := RoundReplicas(s, leader, p, b);
    hide VotesFor, Collect, Finish, FollowerRound;
    FinishQueue(l, s.persistence);
    forall i | 0 <= i < s.N() ensures StaticQueue(rs[i].clientQueue) {
      FollowerQueue(s.replicas[i], b, qc, s.persistence);
    }
  }

  lemma CrashAgreed(s: SimState, ids: set<nat>)
    requires s.Shaped() && Agreed(s)
    ensures Agreed(CrashSet(s, ids))
  {
    var t := CrashSet(s, ids);
    hide Healthy;
    forall i: nat | t.Live(i) ensures AllAt(t, CoreOf(t.replicas[i])) {
      assert s.Live(i) && t.replicas[i] == s.replicas[i];
    }
  }

  lemma SkipAgreed(s: SimState, reason: Reason, mark: bool)
    requires s.Shaped() && Agreed(s)
    ensures Agreed(Skip(s, reason, mark))
  {
    var t := Skip(s, reason, mark);
    forall i: nat | s.Live(i) ensures AllAt(t, CoreOf(t.replicas[i])) {
      AllAtSkip(s, t, CoreOf(s.replicas[i]), reason);
    }
    forall i | 0 <= i < s.N()
      ensures t.replicas[i].committedLog == s.replicas[i].committedLog
      ensures t.replicas[i].clientQueue == s.replicas[i].clientQueue
    {
      assert t.replicas[i] == s.replicas[i] || t.replicas[i] == s.replicas[i].AdvanceView(reason);
    }
  }

  lemma AdvanceCore(r: ReplicaState, reason: Reason)
    ensures CoreOf(r.AdvanceView(reason)) == CoreAdvance(CoreOf(r))
  {
  }

  lemma AllAtSkip(s: SimState, t: SimState, c: Core, reason: Reason)
    requires AllAt(s, c) && t.N() == s.N() && t.Down() == s.Down() && t.nextGlobalHash == s.nextGlobalHash
    requires t.replicas == AdvanceUp(s.replicas, s.Down(), reason)
    ensures AllAt(t, CoreAdvance(c))
    ensures forall i: nat :: t.Live(i) ==> CoreOf(t.replicas[i]) == CoreAdvance(c)
  {
    forall i: nat | t.Live(i) ensures CoreOf(t.replicas[i]) == CoreAdvance(c) {
      AdvanceCore(s.replicas[i], reason);
      assert s.Live(i);
    }
    forall i | 0 <= i < t.N() ensures t.replicas[i].committedLog <= c.log {
      AdvanceCore(s.replicas[i], reason);
    }
  }

  /** Clocks, counters and a hash counter that is further on do no harm. */
  lemma SameReplicasAgreed(s: SimState, t: SimState)
    requires Agreed(s)
    requires t.replicas == s.replicas && t.Down() == s.Down() && t.nextGlobalHash >= s.nextGlobalHash
    ensures Agreed(t)
  {
    forall i: nat | t.Live(i) ensures AllAt(t, CoreOf(t.replicas[i])) {
      assert s.Live(i) && AllAt(s, CoreOf(s.replicas[i]));
      HealthyLater(CoreOf(s.replicas[i]), s.nextGlobalHash, t.nextGlobalHash);
      hide Healthy, Agreed, LogsComparable, QueuesStatic;
      assert forall j: nat :: t.Live(j) ==> s.Live(j);
    }
  }

  lemma HealthyLater(c: Core, hash: Hash, later: Hash)
    requires Healthy(c, hash) && hash <= later
    ensures Healthy(c, later)
  {
  }

  /** What agreement says of the leader's proposal. */
  lemma ProposalFacts(s: SimState, kind: RoundKind, now: nat, p: ReplicaState, b: Block, c: Core)
    requires s.Shaped() && s.N() > 0 && Agreed(s)
    requires CurrentLeader(s) !in s.Down() && Proposal(s, kind, now) == (p, Some(b))
    requires c == CoreOf(s.replicas[CurrentLeader(s)])
    ensures AllAt(s, c) && s.Live(CurrentLeader(s))
    ensures b.hash == s.nextGlobalHash && Acceptable(c, b)
    ensures CoreOf(p) == CoreInsert(c, b) && p.Pool(b.hash) == []
    ensures b.proposer == s.replicas[CurrentLeader(s)].LeaderFor(b.view)
    ensures StaticQueue(p.clientQueue)
  {
    var r := s.replicas[CurrentLeader(s)];
    assert s.Live(CurrentLeader(s)) && AllAt(s, c) && StaticQueue(r.clientQueue);
    hide CurrentLeader, SimState.Shaped, ProposeKind, Agreed, Acceptable;
    ProposalCore(r, kind, s.nextGlobalHash, now);
    ProposalQueue(r, kind, r.currentView, s.nextGlobalHash, now);
    assert b.view == c.view by { assert Acceptable(c, b); AcceptableView(c, b); }
  }

  lemma AcceptableView(c: Core, b: Block)
    requires Acceptable(c, b)
    ensures b.view == c.view
  {
  }

  lemma ProposedRoundParts(s: SimState, leader: nat, p: ReplicaState, b: Block, u: SimState)
    requires s.Shaped() && leader < s.N() && u == ProposedRound(s, leader, p, b)
    ensures u.replicas == RoundReplicas(s, leader, p, b)
    ensures u.N() == s.N() && u.Down() == s.Down() && u.nextGlobalHash == s.nextGlobalHash + 1
    ensures forall i :: 0 <= i < s.N() && i in s.Down() ==> u.replicas[i] == s.replicas[i]
  {
    hide VotesFor, Collect, Finish, FollowerRound, Mark, Sent;
  }

  lemma StaticQueues(s: SimState)
    requires Agreed(s)
    ensures forall i :: 0 <= i < s.N() ==> StaticQueue(s.replicas[i].clientQueue)
  {
  }

  lemma ProposedAgreed(s: SimState, kind: RoundKind, now: nat, p: ReplicaState, b: Block)
    requires s.Shaped() && s.N() > 0 && Agreed(s)
    requires CurrentLeader(s) !in s.Down() && Proposal(s, kind, now) == (p, Some(b))
    ensures Agreed(ProposedRound(s, CurrentLeader(s), p, b))
  {
    hide Agreed, AllAt, ProposedRound, RoundReplicas, Healthy, Acceptable, CoreInsert, Proposal, CurrentLeader,
      SimState.Shaped, CoreRound, CoreOf, VotesFor, Collect, StaticQueue, ReplicaState.LeaderFor;
    var leader := CurrentLeader(s);
    var c := CoreOf(s.replicas[leader]);
    ProposalFacts(s, kind, now, p, b, c);
    var u := ProposedRound(s, leader, p, b);
    ProposedRoundParts(s, leader, p, b, u);
    StaticQueues(s);
    RoundQueues(s, leader, p, b);
    var d := ProposedRoundCore(s, leader, p, b, c);
    AgreedAt(s, c, u, d);
  }

  lemma AgreedAt(s: SimState, c: Core, u: SimState, d: Core)
    requires AllAt(s, c) && Healthy(d, u.nextGlobalHash) && c.log <= d.log
    requires u.N() == s.N() && u.Down() == s.Down()
    requires exists l: nat :: s.Live(l)
    requires forall i: nat :: s.Live(i) ==> CoreOf(u.replicas[i]) == d
    requires forall i :: 0 <= i < s.N() && i in s.Down() ==> u.replicas[i] == s.replicas[i]
    requires forall i :: 0 <= i < s.N() ==> StaticQueue(u.replicas[i].clientQueue)
    ensures Agreed(u)
  {
    hide Healthy;
    assert AllAt(u, d) by {
      forall i: nat | i < u.N() ensures u.replicas[i].committedLog <= d.log {
        if !s.Live(i) { assert u.replicas[i] == s.replicas[i]; }
      }
      assert forall i: nat :: u.Live(i) ==> s.Live(i);
    }
    AllAtComparable(u, d);
    forall i, k | 0 <= i < u.N() && 0 <= k < |u.replicas[i].clientQueue|
      ensures Static(u.replicas[i].clientQueue[k])
    {
      assert StaticQueue(u.replicas[i].clientQueue);
    }
  }

  lemma StartedAgreed(s: SimState)
    requires s.Shaped() && Agreed(s)
    ensures Agreed(Started(s))
  {
    hide Agreed, CrashSet, TimedOut, SimState.Shaped, SimState.Down;
    var s0 := s.(time := s.time + s.roundTime);
    ClockOnly(s);
    SameReplicasAgreed(s, s0);
    CrashAgreed(s0, TimedOut(s0));
  }

  lemma ClockOnly(s: SimState)
    requires s.Shaped()
    ensures var t := s.(time := s.time + s.roundTime); t.Shaped() && t.Down() == s.Down()
  {
  }

  lemma RoundAgreed(s: SimState, kind: RoundKind, now: nat)
    requires s.Shaped() && Agreed(s)
    ensures Agreed(Round(s, kind, now))
  {
    hide RoundBody, Agreed, CrashSet, TimedOut, SimState.Shaped, Started;
    var t := Started(s);
    StartedAgreed(s);
    if !Refused(t) {
      RefusedEmpty(t);
      RoundBodyAgreed(t, kind, now);
      RoundBodyShaped(t, kind, now);
      var u := RoundBody(t, kind, now);
      CrashAgreed(u, TimedOut(u));
    }
  }

  lemma SkipKeepsDown(s: SimState, reason: Reason, mark: bool)
    requires s.Shaped()
    ensures Skip(s, reason, mark).Down() == s.Down()
    ensures Skip(s, reason, mark).nextGlobalHash == s.nextGlobalHash
  {
  }

  lemma RoundBodyAgreed(s: SimState, kind: RoundKind, now: nat)
    requires s.Shaped() && s.N() > 0 && Agreed(s)
    ensures Agreed(RoundBody(s, kind, now))
  {
    hide Agreed, Skip, ProposedRound, Proposal, CurrentLeader, SimState.Shaped, SimState.Down;
    var (p, b) := Proposal(s, kind, now);
    if CurrentLeader(s) in s.Down() {
      SkipAgreed(s, Timeout, kind.Plain?);
    } else if b.None? {
      var reason := if kind.Plain? then Timeout else Commit;
      var t := Skip(s, reason, kind.Plain?);
      SkipAgreed(s, reason, kind.Plain?);
      SkipKeepsDown(s, reason, kind.Plain?);
      DownSame(t, s.nextGlobalHash + 1);
      SameReplicasAgreed(t, t.(nextGlobalHash := s.nextGlobalHash + 1));
    } else {
      ProposedAgreed(s, kind, now, p, b.value);
    }
  }

  lemma DownSame(s: SimState, next: Hash)
    ensures s.(nextGlobalHash := next).Down() == s.Down()
  {
  }

  /** Rounds of both kinds, replicas turning unresponsive or crashing for good, client commands that do not
      change the membership, and changes of the dummy settings. */
  predicate Departure(a: Action) {
    match a
    case RunRound(_, _) => true
    case SetUnresponsive(_, unresponsive) => unresponsive
    case Crash(_) => true
    case RejoinReplica(_) => false
    case EnqueueCommand(command) => Static(command)
    case SetDummies(_, _) => true
  }

  lemma UnresponsiveAgreed(s: SimState, id: nat)
    requires s.Shaped() && Agreed(s)
    ensures Agreed(MarkUnresponsive(s, id, true))
  {
    var t := MarkUnresponsive(s, id, true);
    hide Healthy;
    forall i: nat | t.Live(i) ensures AllAt(t, CoreOf(t.replicas[i])) {
      assert s.Live(i) && AllAt(s, CoreOf(s.replicas[i]));
      assert forall j: nat :: t.Live(j) ==> s.Live(j);
    }
  }

  lemma SameCoresAgreed(s: SimState, t: SimState)
    requires Agreed(s) && t.N() == s.N() && t.Down() == s.Down() && t.nextGlobalHash == s.nextGlobalHash
    requires forall i :: 0 <= i < s.N() ==> CoreOf(t.replicas[i]) == CoreOf(s.replicas[i])
    requires forall i :: 0 <= i < s.N() ==> StaticQueue(t.replicas[i].clientQueue)
    ensures Agreed(t)
  {
    hide Healthy;
    forall i | 0 <= i < s.N() ensures t.replicas[i].committedLog == s.replicas[i].committedLog {
      assert CoreOf(t.replicas[i]).log == CoreOf(s.replicas[i]).log;
    }
    forall i: nat | t.Live(i) ensures AllAt(t, CoreOf(t.replicas[i])) {
      assert s.Live(i) && AllAt(s, CoreOf(s.replicas[i]));
      assert forall j: nat :: t.Live(j) ==> s.Live(j);
    }
    forall i, k | 0 <= i < t.N() && 0 <= k < |t.replicas[i].clientQueue|
      ensures Static(t.replicas[i].clientQueue[k])
    {
      assert StaticQueue(t.replicas[i].clientQueue);
    }
  }

  lemma EnqueueAgreed(s: SimState, command: Command)
    requires s.Shaped() && Agreed(s) && Static(command)
    ensures Agreed(EnqueueOnLeader(s, command))
  {
    assert forall i :: 0 <= i < s.N() ==> StaticQueue(s.replicas[i].clientQueue);
    SameCoresAgreed(s, EnqueueOnLeader(s, command));
  }

  lemma DummiesAgreed(s: SimState, enabled: bool, timeoutMs: nat)
    requires s.Shaped() && Agreed(s)
    ensures Agreed(SetAllDummies(s, enabled, timeoutMs))
  {
    assert forall i :: 0 <= i < s.N() ==> StaticQueue(s.replicas[i].clientQueue);
    SameCoresAgreed(s, SetAllDummies(s, enabled, timeoutMs));
  }

  lemma StepAgreed(s: SimState, a: Action)
    requires s.Shaped() && Agreed(s) && Departure(a)
    ensures Agreed(Step(s, a))
  {
    hide Agreed, Round, MarkUnresponsive, EnqueueOnLeader, SetAllDummies, CrashSet;
    match a
    case RunRound(kind, now) => RoundAgreed(s, kind, now);
    case SetUnresponsive(id, _) => UnresponsiveAgreed(s, id);
    case Crash(id) => CrashAgreed(s, {id});
    case EnqueueCommand(command) => EnqueueAgreed(s, command);
    case SetDummies(enabled, timeoutMs) => DummiesAgreed(s, enabled, timeoutMs);
  }

  lemma {:induction false} RunAgreed(s: SimState, actions: seq<Action>)
    requires s.Shaped() && Agreed(s)
    requires forall i :: 0 <= i < |actions| ==> Departure(actions[i])
    ensures Agreed(Drive(s, actions))
    decreases |actions|
  {
    if actions != [] {
      hide Agreed, Step, SimState.Shaped;
      RunAgreed(s, actions[..|actions| - 1]);
      StepAgreed(Drive(s, actions[..|actions| - 1]), actions[|actions| - 1]);
    }
  }

  function StartCore(n: nat, publicKeys: map<ReplicaId, Key>): Core {
    Core(0, map[0 := GENESIS], None, [], None, Ids(n), 0, publicKeys, map[], n)
  }

  lemma NewReplicaCore(config: Config, keys: KeyStore, persistence: bool)
    ensures CoreOf(NewReplica(config, keys, persistence)) == StartCore(config.n, keys.publicKeys)
    ensures NewReplica(config, keys, persistence).clientQueue == []
  {
  }

  lemma StartAgreed(f: nat, maxSteps: nat, persistence: bool, keystores: seq<KeyStore>)
    requires KeysDistributed(keystores)
    ensures Agreed(NewSim(f, maxSteps, persistence, keystores))
  {
    var s := NewSim(f, maxSteps, persistence, keystores);
    var n := |keystores|;
    if n > 0 {
      var c := StartCore(n, keystores[0].publicKeys);
      assert 0 in Ids(n);
      forall i | 0 <= i < n ensures CoreOf(s.replicas[i]) == c && s.replicas[i].clientQueue == [] {
        NewReplicaCore(Config(n, f, i, 5000), keystores[i], persistence);
      }
      assert s.N() == n && s.nextGlobalHash == 1 && s.Down() == {};
      hide NewSim, NewReplica;
      forall i | 0 <= i < n ensures s.replicas[i].committedLog == [] {
        assert CoreOf(s.replicas[i]).log == [];
      }
      assert 0 in c.tree && Keyed(c.tree);
      assert Healthy(c, 1);
      assert AllAt(s, c);
    }
  }

  /** Live replicas hold the same tree, certificate, view and log; every other log is a prefix of theirs; and
      any two logs are prefixes of one another. */
  ghost predicate LiveAgree(s: SimState) {
    && (forall i: nat, j: nat :: s.Live(i) && s.Live(j) ==>
          && s.replicas[i].blockTree == s.replicas[j].blockTree
          && s.replicas[i].highQc == s.replicas[j].highQc
          && s.replicas[i].currentView == s.replicas[j].currentView
          && s.replicas[i].committedLog == s.replicas[j].committedLog)
    && (forall i: nat, j: nat :: i < s.N() && s.Live(j) ==>
          s.replicas[i].committedLog <= s.replicas[j].committedLog)
    && LogsComparable(s)
  }

  lemma AgreedMeans(s: SimState)
    requires Agreed(s)
    ensures LiveAgree(s)
  {
    hide Healthy;
    forall i: nat, j: nat | s.Live(i) && s.Live(j)
      ensures CoreOf(s.replicas[i]) == CoreOf(s.replicas[j])
    {
      assert AllAt(s, CoreOf(s.replicas[j]));
    }
    forall i: nat, j: nat | i < s.N() && s.Live(j)
      ensures s.replicas[i].committedLog <= s.replicas[j].committedLog
    {
      assert AllAt(s, CoreOf(s.replicas[j]));
    }
  }

  /** For every departure schedule from a fresh start, after every step, the live replicas agree. */
  lemma AgreementWithDepartures(f: nat, maxSteps: nat, persistence: bool, keystores: seq<KeyStore>,
                                actions: seq<Action>)
    requires KeysDistributed(keystores)
    requires forall i :: 0 <= i < |actions| ==> Departure(actions[i])
    ensures LiveAgree(Drive(NewSim(f, maxSteps, persistence, keystores), actions))
  {
    hide NewSim, Drive, Agreed, LiveAgree;
    StartAgreed(f, maxSteps, persistence, keystores);
    RunAgreed(NewSim(f, maxSteps, persistence, keystores), actions);
    AgreedMeans(Drive(NewSim(f, maxSteps, persistence, keystores), actions));
  }

  // ----- The driver's own safety check -----

  function FirstUncrashed(s: SimState, k: nat): (i: Option<nat>)
    ensures i.Some? ==> k <= i.value < s.N() && i.value !in s.crashed
    decreases s.N() - k
  {
    if k >= s.N() then None else if k !in s.crashed then Some(k) else FirstUncrashed(s, k + 1)
  }

  /** Compares every uncrashed log but that of replica 0 with the first uncrashed one, hash by hash. */
  predicate VerifySafety(s: SimState) {
    var reference := FirstUncrashed(s, 0);
    reference.None? ||
    forall i, k :: 1 <= i < s.N() && i != reference.value && i !in s.crashed
                   && 0 <= k < |s.replicas[i].committedLog| && k < |s.replicas[reference.value].committedLog|
                   ==> s.replicas[reference.value].committedLog[k].hash == s.replicas[i].committedLog[k].hash
  }

  /** The check never fails in a departure schedule. */
  lemma SafetyCheckPasses(f: nat, maxSteps: nat, persistence: bool, keystores: seq<KeyStore>,
                          actions: seq<Action>)
    requires KeysDistributed(keystores)
    requires forall i :: 0 <= i < |actions| ==> Departure(actions[i])
    ensures VerifySafety(Drive(NewSim(f, maxSteps, persistence, keystores), actions))
  {
    AgreementWithDepartures(f, maxSteps, persistence, keystores, actions);
    hide NewSim, Drive;
    LogsMatch(Drive(NewSim(f, maxSteps, persistence, keystores), actions));
  }

  lemma LogsMatch(s: SimState)
    requires LogsComparable(s)
    ensures VerifySafety(s)
  {
  }
}
