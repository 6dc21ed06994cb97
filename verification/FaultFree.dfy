/** Runs without faults: the chain after r rounds in closed form, and how many messages it took. Also: when
    exactly a round forms a certificate. */
module FaultFree {
  import opened Types
  import opened Ordered
  import opened Crypto
  import opened CommitRule
  import opened Storage
  import opened ReplicaModel
  import opened SimModel
  import opened Agreement
  import Quorum

  // ----- Votes and certificates of one round -----

  /** The replicas among the first k that vote for b. */
  function Voters(rs: seq<ReplicaState>, down: set<nat>, leader: nat, b: Block, k: nat): (v: seq<nat>)
    requires k <= |rs|
    decreases k
  {
    if k == 0 then []
    else
      var init := Voters(rs, down, leader, b, k - 1);
      if k - 1 != leader && k - 1 !in down && rs[k - 1].ValidProposal(b) then init + [k - 1] else init
  }

  lemma {:induction false} VotersVote(rs: seq<ReplicaState>, down: set<nat>, leader: nat, b: Block, k: nat)
    requires k <= |rs|
    ensures var v, votes := Voters(rs, down, leader, b, k), VotesFor(rs, down, leader, b, k);
            && |v| == |votes| && StrictlyAscending(v)
            && (forall j :: 0 <= j < |v| ==> v[j] < k)
            && (forall j :: 0 <= j < |v| ==> votes[j] == VoteOf(rs[v[j]], b))
    decreases k
  {
    if k > 0 {
      VotersVote(rs, down, leader, b, k - 1);
      hide ReplicaState.ValidProposal;
    }
  }

  /** Keys as distributed at the start: all public keys everywhere, a different private key for each replica. */
  ghost predicate KeysInPlace(rs: seq<ReplicaState>) {
    && (forall i :: 0 <= i < |rs| ==> SignerOk(rs[i], |rs|))
    && (forall i, j :: 0 <= i < |rs| && 0 <= j < |rs| ==>
          rs[i].keystore.publicKeys == rs[j].keystore.publicKeys)
    && (forall i, j :: 0 <= i < j < |rs| ==> rs[i].keystore.myId != rs[j].keystore.myId)
  }

  predicate SignerOk(r: ReplicaState, n: nat) {
    var k := r.keystore;
    && k.myId < n && k.myId in k.publicKeys && k.publicKeys[k.myId] == k.myKey
    && r.activeValidators == Ids(n) && r.config.n == n
  }

  /** A vote the leader will accept: signed by a registered validator for a block it has. */
  predicate GoodVote(p: ReplicaState, b: Block, vote: Vote) {
    && vote.blockHash == b.hash && vote.view == b.view && vote.epoch == b.epoch == p.configEpoch
    && vote.signature.signer in p.activeValidators && vote.signature.signer < p.config.n
    && p.keystore.Verify(vote.signature, b.hash, b.view, b.epoch)
    && b.hash in p.blockTree && p.blockTree[b.hash].epoch == b.epoch
  }

  /** Good votes by different signers are all pooled, and give a certificate exactly when they reach quorum. */
  lemma {:induction false} CollectAll(p: ReplicaState, b: Block, votes: seq<Vote>)
    requires p.Pool(b.hash) == []
    requires forall j :: 0 <= j < |votes| ==> GoodVote(p, b, votes[j])
    requires forall i, j :: 0 <= i < j < |votes| ==> votes[i].signature.signer != votes[j].signature.signer
    ensures var (q, qc) := Collect(p, votes);
            && |q.Pool(b.hash)| == |votes|
            && (forall j :: 0 <= j < |votes| ==> q.Pool(b.hash)[j] == votes[j].signature)
            && q.activeValidators == p.activeValidators && q.configEpoch == p.configEpoch
            && q.keystore == p.keystore && q.config == p.config && q.blockTree == p.blockTree
            && (qc.Some? <==> |votes| >= p.QuorumSize())
    decreases |votes|
  {
    if votes != [] {
      var m := |votes| - 1;
      CollectAll(p, b, votes[..m]);
      var (q, qc) := Collect(p, votes[..m]);
      assert GoodVote(p, b, votes[m]) && GoodVote(q, b, votes[m]);
      CollectGood(q, b, votes[m]);
      hide ReplicaState.HandleVote, GoodVote, ReplicaState.Pool;
    }
  }

  /** A good vote by a new signer is pooled. */
  lemma CollectGood(p: ReplicaState, b: Block, vote: Vote)
    requires GoodVote(p, b, vote)
    requires forall j :: 0 <= j < |p.Pool(b.hash)| ==> p.Pool(b.hash)[j].signer != vote.signature.signer
    ensures var (q, qc) := p.HandleVote(vote);
            && q.Pool(b.hash) == p.Pool(b.hash) + [vote.signature]
            && q.activeValidators == p.activeValidators && q.configEpoch == p.configEpoch
            && q.keystore == p.keystore && q.config == p.config && q.blockTree == p.blockTree
            && (qc.Some? <==> |p.Pool(b.hash)| + 1 >= p.QuorumSize())
  {
    assert p.Accepts(vote);
  }

  /** Whoever has the same core as the proposer sends a good vote. */
  lemma VoteIsGood(p: ReplicaState, r: ReplicaState, b: Block, n: nat)
    requires SignerOk(r, n) && SignerOk(p, n) && p.keystore.publicKeys == r.keystore.publicKeys
    requires b.hash in p.blockTree && p.blockTree[b.hash] == b && b.epoch == p.configEpoch
    ensures GoodVote(p, b, VoteOf(r, b))
  {
  }

  /** A round's certificate: it forms exactly when the votes, one from every replica that accepts the block,
      reach quorum. */
  lemma QcIffQuorumVotes(s: SimState, leader: nat, p: ReplicaState, b: Block)
    requires s.Shaped() && leader < s.N() && KeysInPlace(s.replicas) && SignerOk(p, s.N())
    requires p.keystore == s.replicas[leader].keystore
    requires b.hash in p.blockTree && p.blockTree[b.hash] == b && b.epoch == p.configEpoch
    requires p.Pool(b.hash) == []
    ensures var votes := VotesFor(s.replicas, s.Down(), leader, b, s.N());
            Collect(p, votes).1.Some? <==> |votes| >= p.QuorumSize()
  {
    var votes := VotesFor(s.replicas, s.Down(), leader, b, s.N());
    var v := Voters(s.replicas, s.Down(), leader, b, s.N());
    VotersVote(s.replicas, s.Down(), leader, b, s.N());
    hide VotesFor, Voters;
    forall j | 0 <= j < |votes| ensures GoodVote(p, b, votes[j]) {
      VoteIsGood(p, s.replicas[v[j]], b, s.N());
    }
    hide GoodVote, SignerOk;
    forall i, j | 0 <= i < j < |votes| ensures votes[i].signature.signer != votes[j].signature.signer {
      assert v[i] < v[j];
    }
    CollectAll(p, b, votes);
  }

  /** When everybody is up and accepts, everybody but the leader votes. */
  lemma {:induction false} EverybodyVotes(rs: seq<ReplicaState>, leader: nat, b: Block, k: nat)
    requires leader < |rs| && k <= |rs|
    requires forall i :: 0 <= i < |rs| && i != leader ==> rs[i].ValidProposal(b)
    ensures |VotesFor(rs, {}, leader, b, k)| == if leader < k then k - 1 else k
    decreases k
  {
    if k > 0 {
      EverybodyVotes(rs, leader, b, k - 1);
      hide ReplicaState.ValidProposal;
    }
  }

  // ----- The chain -----

  /** Blocks 0 <- 1 <- ... <- r, proposed in views 0 .. r-1 in turn; from block 2 on each certifies its parent. */
  ghost predicate ChainTree(t: Tree, r: nat, n: nat)
    requires n > 0
  {
    && (forall h :: h in t <==> 0 <= h <= r)
    && t[0] == GENESIS
    && forall h :: 1 <= h <= r ==> ChainBlock(t[h], h, n)
  }

  predicate ChainBlock(b: Block, h: Hash, n: nat)
    requires n > 0 && h > 0
  {
    && b.hash == h && b.parent == Some(h - 1) && b.view == h - 1 && b.proposer == (h - 1) % n
    && (b.qc.Some? <==> h >= 2)
    && (h >= 2 ==> b.qc.value.blockHash == h - 1 && b.qc.value.view == h - 2)
  }

  lemma ChainLinks(t: Tree, r: nat, n: nat)
    requires n > 0 && ChainTree(t, r, n)
    ensures forall h :: h in t ==>
              && t[h].hash == h && t[h].parent == (if h == 0 then None else Some(h - 1))
              && (t[h].qc.Some? <==> h >= 2)
  {
    forall h | h in t
      ensures t[h].hash == h && t[h].parent == (if h == 0 then None else Some(h - 1)) && (t[h].qc.Some? <==> h >= 2)
    {
      if h > 0 { assert ChainBlock(t[h], h, n); }
    }
  }

  lemma ChainGrown(t: Tree, r: nat, n: nat)
    requires n > 0 && ChainTree(t, r, n)
    ensures Grown(t)
  {
    ChainLinks(t, r, n);
    hide ChainBlock;
  }

  /** Block h is a head exactly when two more blocks follow it; block 1 carries no certificate, so genesis
      is none. */
  lemma ChainHead(t: Tree, r: nat, n: nat, h: Hash)
    requires n > 0 && ChainTree(t, r, n)
    ensures Head(t, h) <==> 1 <= h && h + 2 <= r
  {
    ChainLinks(t, r, n);
    hide ChainBlock;
    if 1 <= h && h + 2 <= r {
      assert ThreeChain(t, h, h + 1, h + 2);
    }
    if Head(t, h) {
      var c, g :| ThreeChain(t, h, c, g);
      assert c == h + 1 && g == h + 2;
    }
  }

  lemma ChainHeads(t: Tree, r: nat, n: nat)
    requires n > 0 && ChainTree(t, r, n)
    ensures Ascending(Heads(t)) == Range(1, if r >= 2 then r - 1 else 1)
  {
    var l := Range(1, if r >= 2 then r - 1 else 1);
    forall x: nat ensures x in l <==> x in Heads(t) {
      ChainHead(t, r, n, x);
      if 1 <= x && x + 2 <= r { assert l[x - 1] == x; }
    }
    hide ChainTree, Heads;
    AscendingIs(Heads(t), l);
  }

  /** The core of every replica after r proposals, all certified and none skipped. */
  ghost predicate ChainCore(c: Core, r: nat, n: nat)
    requires n > 0
  {
    && c.view == r && c.epoch == 0 && c.n == n && c.validators == Ids(n)
    && ChainTree(c.tree, r, n)
    && (c.highQc.Some? <==> r >= 1)
    && (r >= 1 ==> c.highQc.value.blockHash == r && c.highQc.value.view == r - 1)
    && LogIsLowerPart(c.tree, c.log, Heads(c.tree))
  }

  /** Every replica has core c, the keys it was given, and only static commands in its queue. */
  ghost predicate AllHave(rs: seq<ReplicaState>, c: Core) {
    && KeysInPlace(rs)
    && forall i :: 0 <= i < |rs| ==> CoreOf(rs[i]) == c && StaticQueue(rs[i].clientQueue)
  }

  predicate NoFaults(s: SimState) {
    s.Shaped() && s.N() >= 2 && s.crashed == {} && s.unresponsive == {}
  }

  /** No faults, r rounds that all proposed. */
  ghost predicate Chain(s: SimState, c: Core, r: nat) {
    && NoFaults(s)
    && s.nextGlobalHash == r + 1
    && AllHave(s.replicas, c)
    && Healthy(c, r + 1) && ChainCore(c, r, s.N())
  }

  lemma ChainInsert(t: Tree, b: Block, r: nat, n: nat)
    requires n > 0 && ChainTree(t, r, n) && ChainBlock(b, r + 1, n)
    ensures ChainTree(Insert(t, b), r + 1, n) && Next(t, b)
  {
    forall h | h in t && t[h].parent.Some? ensures t[h].parent.value <= r {
      assert h > 0 && ChainBlock(t[h], h, n);
    }
    forall h | 1 <= h <= r ensures ChainBlock(Insert(t, b)[h], h, n) {
      assert ChainBlock(t[h], h, n);
    }
  }

  lemma ChainGrows(c: Core, b: Block, qc: QuorumCert, r: nat, n: nat)
    requires n > 0 && ChainCore(c, r, n) && ChainBlock(b, r + 1, n)
    requires qc.blockHash == r + 1 && qc.view == r
    ensures ChainCore(CoreRound(c, b, Some(qc)), r + 1, n)
  {
    hide ChainTree, ChainBlock, Heads, Commits, Grown, Next, LogIsLowerPart, CoreRound, Ids, Insert;
    var t := Insert(c.tree, b);
    ChainInsert(c.tree, b, r, n);
    ChainGrown(c.tree, r, n);
    LowerPartArrives(c.tree, b, c.log, Heads(c.tree));
    GrownInsert(c.tree, b);
    LowerPartCommits(t, c.log, Heads(c.tree));
    CoreRoundParts(c, b, qc);
  }

  lemma CoreRoundParts(c: Core, b: Block, qc: QuorumCert)
    ensures var d := CoreRound(c, b, Some(qc));
            && d.tree == Insert(c.tree, b) && d.log == c.log + Commits(d.tree, c.log)
            && d.highQc == Some(qc) && d.view == c.view + 1
            && d.epoch == c.epoch && d.n == c.n && d.validators == c.validators && d.publicKeys == c.publicKeys
  {
    hide Commits;
  }

  // ----- What a round keeps -----

  /** A certificate of n-1 votes is always enough: the leader's own vote is not needed. */
  lemma OthersAreQuorum(n: nat)
    requires n >= 2
    ensures Quorum.Size(n) <= n - 1
  {
  }

  predicate SameSigner(a: ReplicaState, b: ReplicaState) {
    && a.keystore.myId == b.keystore.myId && a.keystore.myKey == b.keystore.myKey
    && a.dummyEnabled == b.dummyEnabled && a.dummyTimeoutMs == b.dummyTimeoutMs
  }

  lemma SignerTrans(a: ReplicaState, b: ReplicaState, c: ReplicaState, d: ReplicaState)
    requires SameSigner(a, b) && SameSigner(b, c) && SameSigner(c, d)
    ensures SameSigner(a, d)
  {
  }

  lemma MembershipSigner(r: ReplicaState, command: Command)
    ensures SameSigner(r.ApplyMembership(command), r)
  {
  }

  lemma {:induction false} CommitEachSigner(r: ReplicaState, bs: seq<Block>)
    ensures SameSigner(r.CommitEach(bs), r)
    decreases |bs|
  {
    if bs != [] {
      var q := r.ExecuteAndCommit(bs[0]);
      MembershipSigner(r.Logged(CommittedEntry(bs[0], |r.committedLog|))
                        .(committedLog := r.committedLog + [bs[0]], committedUpTo := Some(bs[0].hash)),
                       bs[0].command);
      CommitEachSigner(q, bs[1..]);
    }
  }

  lemma FinishSigner(r: ReplicaState, persistence: bool)
    ensures SameSigner(Finish(r, persistence), r)
  {
    CommitEachSigner(r, Commits(r.blockTree, r.committedLog));
    hide ReplicaState.CommitEach, ReplicaState.SnapshotWrites, Commits;
  }

  lemma FollowerSigner(r: ReplicaState, b: Block, qc: Option<QuorumCert>, persistence: bool)
    ensures SameSigner(FollowerRound(r, b, qc, persistence), r)
  {
    FinishSigner(Learn(r.InsertProposal(b), qc), persistence);
    hide Finish, ReplicaState.ValidProposal;
  }

  lemma {:induction false} CollectSigner(r: ReplicaState, votes: seq<Vote>)
    ensures SameSigner(Collect(r, votes).0, r)
    decreases |votes|
  {
    if votes != [] {
      CollectSigner(r, votes[..|votes| - 1]);
      hide ReplicaState.Accepts;
    }
  }

  lemma ProposalSigner(r: ReplicaState, kind: RoundKind, hash: Hash, now: nat)
    ensures SameSigner(ProposeKind(r, kind, r.currentView, hash, now).0, r)
  {
    hide ReplicaState.IsLeader, Pending;
  }

  // ----- Without faults nothing times out -----

  lemma NobodyTimesOut(s: SimState)
    requires s.Shaped() && s.unresponsive == {} && s.crashed == {}
    ensures ProcessTimeouts(s) == s
  {
    assert TimedOut(s) == {};
    assert CrashSet(s, {}) == s by {
      assert CrashSet(s, {}).replicas == s.replicas;
      assert CrashSet(s, {}).crashed == {} && CrashSet(s, {}).unresponsive == {};
    }
  }

  lemma ChainStarted(s: SimState, c: Core, r: nat)
    requires Chain(s, c, r)
    ensures Started(s) == s.(time := s.time + s.roundTime)
    ensures Chain(Started(s), c, r)
  {
    hide Healthy, ChainCore, AllHave, ProcessTimeouts;
    NobodyTimesOut(s.(time := s.time + s.roundTime));
  }

  // ----- The leader and its proposal -----

  lemma ChainLeader(s: SimState, c: Core, r: nat)
    requires Chain(s, c, r)
    ensures CurrentLeader(s) == r % s.N()
    ensures forall i :: 0 <= i < s.N() ==> s.replicas[i].LeaderFor(r) == r % s.N()
  {
    hide Healthy, KeysInPlace, ChainTree, LogIsLowerPart, StaticQueue, Ids;
    var n := s.N();
    assert c.view == r && c.validators == Ids(n);
    AscendingIds(n);
    forall i | 0 <= i < n ensures s.replicas[i].LeaderFor(r) == r % n && s.replicas[i].currentView == r {
      assert CoreOf(s.replicas[i]) == c;
      LeaderInTurn(s.replicas[i], n, r);
    }
    hide ReplicaState.LeaderFor, CoreOf;
    assert MaxView(s.replicas, {}) == r by { assert s.replicas[0].currentView == r; }
  }

  lemma LeaderInTurn(r: ReplicaState, n: nat, view: nat)
    requires r.activeValidators == Ids(n) && n > 0
    ensures r.LeaderFor(view) == view % n
  {
    AscendingIds(n);
    assert 0 in Ids(n);
  }

  /** Whatever the leader proposes is the next block of the chain. */
  lemma ChainProposal(r: ReplicaState, c: Core, k: nat, n: nat, kind: RoundKind, now: nat,
                      p: ReplicaState, b: Block)
    requires n >= 2 && CoreOf(r) == c && ChainCore(c, k, n) && r.config.id == r.LeaderFor(k) == k % n
    requires ProposeKind(r, kind, k, k + 1, now) == (p, Some(b))
    ensures ChainBlock(b, k + 1, n)
    ensures p.keystore == r.keystore && p.activeValidators == r.activeValidators && p.config == r.config
    ensures p.blockTree == r.blockTree[b.hash := b] && b.epoch == r.configEpoch == p.configEpoch
  {
    hide ReplicaState.ShouldProposeDummy, ChainBlock, LogIsLowerPart, ReplicaState.LeaderFor, LatestHash;
    var nb := if r.clientQueue != [] && kind.Pacemaker? then r.NewBlock(k, k + 1, r.clientQueue[|r.clientQueue| - 1])
              else r.NewBlock(k, k + 1, NoOp);
    assert b == nb;
    NewChainBlock(r, c, k, n, nb);
  }

  lemma NewChainBlock(r: ReplicaState, c: Core, k: nat, n: nat, b: Block)
    requires n >= 2 && CoreOf(r) == c && ChainCore(c, k, n) && r.config.id == k % n
    requires b == r.NewBlock(k, k + 1, b.command)
    ensures ChainBlock(b, k + 1, n)
  {
    if k == 0 {
      GenesisIsLatest(r.blockTree, n);
    }
  }

  lemma GenesisIsLatest(t: Tree, n: nat)
    requires n > 0 && ChainTree(t, 0, n)
    ensures LatestHash(t) == Some(0)
  {
    assert 0 in t;
    assert LatestHash(t).value in t;
  }

  /** In the pacemaker, dummies enabled without an idle threshold always give the leader something to propose. */
  predicate DummiesOn(r: ReplicaState) {
    r.dummyEnabled && r.dummyTimeoutMs == 0
  }

  lemma NothingPending(c: Core, k: nat, n: nat)
    requires n > 0 && ChainCore(c, k, n)
    ensures Pending(c.tree, c.log) == {}
  {
    ChainLinks(c.tree, k, n);
    CommittedBlocks(c.tree, Heads(c.tree));
  }

  lemma AlwaysProposes(r: ReplicaState, c: Core, k: nat, n: nat, kind: RoundKind, now: nat)
    requires n > 0 && CoreOf(r) == c && ChainCore(c, k, n) && r.LeaderFor(k) == r.config.id
    requires kind.Pacemaker? ==> DummiesOn(r) || r.clientQueue != []
    ensures ProposeKind(r, kind, k, k + 1, now).1.Some?
    ensures kind.Pacemaker? && r.clientQueue != [] ==>
              ProposeKind(r, kind, k, k + 1, now).1.value.command == r.clientQueue[|r.clientQueue| - 1]
  {
    NothingPending(c, k, n);
    hide ReplicaState.LeaderFor, ReplicaState.NewBlock, ChainTree, LogIsLowerPart, Pending;
    assert r.IsLeader(k) && r.currentView == k;
  }

  // ----- One round -----

  /** The leader's proposal in a fault-free state. */
  ghost predicate Proposes(s: SimState, c: Core, r: nat, leader: nat, p: ReplicaState, b: Block, kind: RoundKind,
                           now: nat)
  {
    && Chain(s, c, r) && leader == r % s.N()
    && ProposeKind(s.replicas[leader], kind, r, r + 1, now) == (p, Some(b))
  }

  lemma ProposesFacts(s: SimState, c: Core, r: nat, leader: nat, p: ReplicaState, b: Block, kind: RoundKind,
                      now: nat)
    requires Proposes(s, c, r, leader, p, b, kind, now)
    ensures ChainBlock(b, r + 1, s.N()) && Acceptable(c, b) && CoreOf(p) == CoreInsert(c, b)
    ensures p.keystore == s.replicas[leader].keystore && SignerOk(p, s.N()) && p.Pool(b.hash) == []
    ensures p.blockTree == s.replicas[leader].blockTree[b.hash := b] && b.epoch == p.configEpoch
    ensures forall i :: 0 <= i < s.N() ==> s.replicas[i].LeaderFor(r) == b.proposer == leader
    ensures StaticQueue(p.clientQueue) && SameSigner(p, s.replicas[leader]) && p.config.id == leader < s.N()
  {
    hide Healthy, ProposeKind, ChainTree, LogIsLowerPart, Acceptable, ReplicaState.LeaderFor, StaticQueue,
      CurrentLeader, ChainBlock;
    var q := s.replicas[leader];
    ChainLeader(s, c, r);
    assert CoreOf(q) == c && SignerOk(q, s.N()) && StaticQueue(q.clientQueue);
    assert q.config.id == leader && c.view == r;
    ChainProposal(q, c, r, s.N(), kind, now, p, b);
    assert forall k :: 0 <= k < |q.clientQueue| ==> Static(q.clientQueue[k]) by { QueueElements(q.clientQueue); }
    ProposalCore(q, kind, r + 1, now);
    ProposalQueue(q, kind, r, r + 1, now);
    ProposalSigner(q, kind, r + 1, now);
  }

  lemma QueueElements(queue: seq<Command>)
    requires StaticQueue(queue)
    ensures forall k :: 0 <= k < |queue| ==> Static(queue[k])
  {
  }

  /** Everybody else votes. */
  lemma ChainVotes(s: SimState, c: Core, leader: nat, b: Block)
    requires NoFaults(s) && leader < s.N() && AllHave(s.replicas, c)
    requires Healthy(c, b.hash) && Acceptable(c, b)
    requires forall i :: 0 <= i < s.N() ==> s.replicas[i].LeaderFor(b.view) == b.proposer
    ensures |VotesFor(s.replicas, s.Down(), leader, b, s.N())| == s.N() - 1
  {
    assert s.Down() == {};
    hide VotesFor, Healthy, Acceptable, ReplicaState.ValidProposal, KeysInPlace, ReplicaState.LeaderFor;
    forall i | 0 <= i < s.N() && i != leader ensures s.replicas[i].ValidProposal(b) {
      assert CoreOf(s.replicas[i]) == c;
      AcceptedByAll(s.replicas[i], b, b.proposer);
    }
    EverybodyVotes(s.replicas, leader, b, s.N());
  }

  /** And their votes make a certificate for the new block. */
  lemma ChainCertificate(s: SimState, c: Core, leader: nat, p: ReplicaState, b: Block) returns (qc: QuorumCert)
    requires NoFaults(s) && leader < s.N() && AllHave(s.replicas, c)
    requires p.keystore == s.replicas[leader].keystore && SignerOk(p, s.N()) && p.Pool(b.hash) == []
    requires b.hash in p.blockTree && p.blockTree[b.hash] == b && b.epoch == p.configEpoch
    requires |VotesFor(s.replicas, s.Down(), leader, b, s.N())| == s.N() - 1
    ensures Collect(p, VotesFor(s.replicas, s.Down(), leader, b, s.N())).1 == Some(qc)
    ensures qc.blockHash == b.hash && qc.view == b.view
  {
    hide VotesFor, Collect, KeysInPlace, SimState.Shaped, PoolValid;
    var votes := VotesFor(s.replicas, s.Down(), leader, b, s.N());
    QcIffQuorumVotes(s, leader, p, b);
    assert p.QuorumSize() <= s.N() - 1 by {
      AscendingIds(s.N());
      OthersAreQuorum(s.N());
    }
    VotesForBlock(s.replicas, s.Down(), leader, b, s.N());
    CollectCore(p, b, votes);
    qc := Collect(p, votes).1.value;
  }

  lemma ChainParts(s: SimState, c: Core, r: nat)
    requires Chain(s, c, r)
    ensures NoFaults(s) && s.Shaped() && s.N() >= 2 && s.Down() == {} && s.nextGlobalHash == r + 1
    ensures AllHave(s.replicas, c) && Healthy(c, r + 1) && ChainCore(c, r, s.N()) && c.view == r
  {
    hide SimState.Shaped, AllHave, Healthy, ChainTree, LogIsLowerPart;
  }

  lemma AllHaveAt(s: SimState, c: Core)
    requires AllHave(s.replicas, c) && Healthy(c, s.nextGlobalHash)
    ensures AllAt(s, c)
  {
    hide KeysInPlace, Healthy, StaticQueue;
    forall i | 0 <= i < s.N() ensures s.replicas[i].committedLog <= c.log {
      assert CoreOf(s.replicas[i]).log == c.log;
    }
  }

  lemma BlockParts(b: Block, h: Hash, n: nat)
    requires n > 0 && h > 0 && ChainBlock(b, h, n)
    ensures b.hash == h && b.view == h - 1 && b.proposer == (h - 1) % n
  {
  }

  /** A round changes neither private keys nor pacemaker settings. */
  lemma RoundSigners(s: SimState, leader: nat, p: ReplicaState, b: Block)
    requires s.Shaped() && s.Down() == {} && leader < s.N() && SameSigner(p, s.replicas[leader])
    ensures forall i :: 0 <= i < s.N() ==> SameSigner(RoundReplicas(s, leader, p, b)[i], s.replicas[i])
  {
    hide VotesFor, Collect, Finish, FollowerRound, SimState.Shaped, SameSigner;
    var votes := VotesFor(s.replicas, s.Down(), leader, b, s.N());
    var (l, qc) := Collect(p, votes);
    var rs := RoundReplicas(s, leader, p, b);
    CollectSigner(p, votes);
    FinishSigner(l, s.persistence);
    forall i | 0 <= i < s.N() ensures SameSigner(rs[i], s.replicas[i]) {
      if i == leader {
        SignerTrans(rs[i], l, p, s.replicas[i]);
      } else {
        FollowerSigner(s.replicas[i], b, qc, s.persistence);
      }
    }
  }

  lemma SignersKept(rs: seq<ReplicaState>, c: Core, us: seq<ReplicaState>, d: Core)
    requires |us| == |rs| && AllHave(rs, c)
    requires forall i :: 0 <= i < |rs| ==>
               SameSigner(us[i], rs[i]) && CoreOf(us[i]) == d && StaticQueue(us[i].clientQueue)
    requires d.publicKeys == c.publicKeys && d.validators == c.validators && d.n == c.n
    ensures AllHave(us, d)
  {
    hide StaticQueue;
    forall i | 0 <= i < |rs| ensures SignerOk(us[i], |us|) && us[i].keystore.publicKeys == d.publicKeys {
      assert SignerOk(rs[i], |rs|) && CoreOf(rs[i]) == c && CoreOf(us[i]) == d;
    }
    forall i, j | 0 <= i < j < |us| ensures us[i].keystore.myId != us[j].keystore.myId {
      assert SameSigner(us[i], rs[i]) && SameSigner(us[j], rs[j]);
    }
  }

  /** Every replica ends the round one block, one view and at most one commit further. */
  lemma ChainRound(s: SimState, c: Core, r: nat, leader: nat, p: ReplicaState, b: Block, kind: RoundKind, now: nat)
    returns (d: Core)
    requires Proposes(s, c, r, leader, p, b, kind, now)
    ensures var u := ProposedRound(s, leader, p, b);
            && Chain(u, d, r + 1) && d.tree == Insert(c.tree, b)
            && u.sent == Sent(s.sent, s.N(), s.N() - 1, true)
            && u.step == s.step + 1 && u.maxSteps == s.maxSteps
            && (forall i :: 0 <= i < s.N() ==> SameSigner(u.replicas[i], s.replicas[i]))
  {
    hide ProposeKind, ChainBlock, Healthy, ChainCore, Acceptable, ReplicaState.LeaderFor,
      VotesFor, Collect, RoundReplicas, SimState.Shaped, AllHave, CoreRound, SignerOk, CoreInsert, ProposedRound,
      SimState.Down, Chain, CoreOf, SameSigner, StaticQueue, Insert, Sent;
    ChainParts(s, c, r);
    ProposesFacts(s, c, r, leader, p, b, kind, now);
    AcceptableView(c, b);
    BlockParts(b, r + 1, s.N());
    ChainVotes(s, c, leader, b);
    var qc := ChainCertificate(s, c, leader, p, b);
    AllHaveAt(s, c);
    d := RoundCore(s, c, r, leader, p, b, qc);
    ChainAfter(s, c, r, leader, p, b, d);
    RoundCounts(s, leader, p, b);
  }

  lemma RoundCounts(s: SimState, leader: nat, p: ReplicaState, b: Block)
    requires s.Shaped() && leader < s.N()
    ensures var votes := VotesFor(s.replicas, s.Down(), leader, b, s.N());
            var u := ProposedRound(s, leader, p, b);
            && u.sent == Sent(s.sent, s.N(), |votes|, Collect(p, votes).1.Some?)
            && u.step == s.step + 1 && u.maxSteps == s.maxSteps
  {
    hide VotesFor, Collect, RoundReplicas, Sent, Mark;
  }

  lemma ChainAfter(s: SimState, c: Core, r: nat, leader: nat, p: ReplicaState, b: Block, d: Core)
    requires s.Shaped() && s.N() >= 2 && s.Down() == {} && leader < s.N() && s.nextGlobalHash == r + 1
    requires AllHave(s.replicas, c) && StaticQueue(p.clientQueue) && SameSigner(p, s.replicas[leader])
    requires p.config.id == leader
    requires Healthy(d, r + 2) && ChainCore(d, r + 1, s.N())
    requires forall i :: 0 <= i < s.N() ==> CoreOf(RoundReplicas(s, leader, p, b)[i]) == d
    requires d.publicKeys == c.publicKeys && d.validators == c.validators && d.n == c.n
    ensures var u := ProposedRound(s, leader, p, b);
            && Chain(u, d, r + 1)
            && (forall i :: 0 <= i < s.N() ==> SameSigner(u.replicas[i], s.replicas[i]))
  {
    hide Healthy, ChainCore, RoundReplicas, SimState.Shaped, AllHave, CoreOf, ProposedRound, SimState.Down, SameSigner,
      StaticQueue, Chain;
    var u := ProposedRound(s, leader, p, b);
    ProposedRoundShaped(s, leader, p, b);
    ProposedRoundParts(s, leader, p, b, u);
    RoundSigners(s, leader, p, b);
    AllQueues(s.replicas, c);
    RoundQueues(s, leader, p, b);
    SignersKept(s.replicas, c, u.replicas, d);
    ChainFrom(u, d, r + 1);
  }

  lemma AllQueues(rs: seq<ReplicaState>, c: Core)
    requires AllHave(rs, c)
    ensures forall i :: 0 <= i < |rs| ==> StaticQueue(rs[i].clientQueue)
  {
  }

  lemma ChainFrom(u: SimState, d: Core, r: nat)
    requires u.Shaped() && u.N() >= 2 && u.Down() == {} && u.nextGlobalHash == r + 1
    requires AllHave(u.replicas, d) && Healthy(d, r + 1) && ChainCore(d, r, u.N())
    ensures Chain(u, d, r)
  {
    hide AllHave, Healthy, ChainCore;
    assert u.crashed <= u.Down() && u.unresponsive <= u.Down();
  }

  lemma RoundCore(s: SimState, c: Core, r: nat, leader: nat, p: ReplicaState, b: Block, qc: QuorumCert)
    returns (d: Core)
    requires NoFaults(s) && s.Down() == {} && leader < s.N()
    requires AllAt(s, c) && b.hash == s.nextGlobalHash == r + 1 && Acceptable(c, b)
    requires CoreOf(p) == CoreInsert(c, b) && p.Pool(b.hash) == []
    requires b.proposer == s.replicas[leader].LeaderFor(b.view)
    requires Collect(p, VotesFor(s.replicas, s.Down(), leader, b, s.N())).1 == Some(qc)
    requires ChainCore(c, r, s.N()) && ChainBlock(b, r + 1, s.N()) && qc.blockHash == r + 1 && qc.view == r
    ensures Healthy(d, r + 2) && ChainCore(d, r + 1, s.N()) && d.tree == Insert(c.tree, b)
    ensures forall i :: 0 <= i < s.N() ==> CoreOf(RoundReplicas(s, leader, p, b)[i]) == d
    ensures d.publicKeys == c.publicKeys && d.validators == c.validators && d.n == c.n
  {
    hide ChainBlock, Healthy, ChainCore, Acceptable, ReplicaState.LeaderFor, AllAt,
      VotesFor, Collect, RoundReplicas, SimState.Shaped, CoreRound, CoreInsert, CoreOf;
    assert s.Live(leader);
    d := ProposedRoundCore(s, leader, p, b, c);
    ChainGrows(c, b, qc, r, s.N());
    CoreRoundParts(c, b, qc);
    assert forall i: nat :: i < s.N() ==> s.Live(i);
  }

  /** The leader of the next round has something to propose: always in a plain round; in a pacemaker round when
      its queue is not empty or dummies are on. */
  predicate Busy(s: SimState, kind: RoundKind, r: nat)
    requires s.N() > 0
  {
    var l := s.replicas[r % s.N()];
    kind.Pacemaker? ==> DummiesOn(l) || l.clientQueue != []
  }

  ghost predicate KeepsSigners(s: SimState, t: SimState) {
    t.N() == s.N() && forall i :: 0 <= i < s.N() ==> SameSigner(t.replicas[i], s.replicas[i])
  }

  /** The queue of a leader that proposes: a pacemaker round takes the newest command. */
  function Popped(queue: seq<Command>, kind: RoundKind): seq<Command> {
    if kind.Pacemaker? && queue != [] then queue[..|queue| - 1] else queue
  }

  ghost predicate QueuesAfter(s: SimState, u: SimState, leader: nat, kind: RoundKind) {
    && u.N() == s.N()
    && forall i :: 0 <= i < s.N() ==>
         u.replicas[i].clientQueue ==
         if i == leader then Popped(s.replicas[i].clientQueue, kind) else s.replicas[i].clientQueue
  }

  lemma ProposalPops(r: ReplicaState, kind: RoundKind, hash: Hash, now: nat)
    requires ProposeKind(r, kind, r.currentView, hash, now).1.Some?
    ensures ProposeKind(r, kind, r.currentView, hash, now).0.clientQueue == Popped(r.clientQueue, kind)
  {
    hide ReplicaState.IsLeader, ReplicaState.ShouldProposeDummy, ReplicaState.NewBlock;
  }

  lemma RoundPops(s: SimState, leader: nat, p: ReplicaState, b: Block, kind: RoundKind)
    requires s.Shaped() && s.Down() == {} && leader < s.N()
    requires p.clientQueue == Popped(s.replicas[leader].clientQueue, kind)
    ensures QueuesAfter(s, ProposedRound(s, leader, p, b), leader, kind)
  {
    hide VotesFor, Collect, Finish, FollowerRound, SimState.Shaped, Popped, ProposedRound;
    var votes := VotesFor(s.replicas, s.Down(), leader, b, s.N());
    var (l, qc) := Collect(p, votes);
    var u := ProposedRound(s, leader, p, b);
    ProposedRoundParts(s, leader, p, b, u);
    FinishQueue(l, s.persistence);
    forall i | 0 <= i < s.N()
      ensures u.replicas[i].clientQueue ==
              if i == leader then p.clientQueue else s.replicas[i].clientQueue
    {
      FollowerQueue(s.replicas[i], b, qc, s.persistence);
    }
  }

  ghost predicate Grows(s: SimState, u: SimState, d: Core, r: nat, kind: RoundKind)
    requires s.N() > 0
  {
    && Chain(u, d, r + 1) && KeepsSigners(s, u) && QueuesAfter(s, u, r % s.N(), kind)
    && u.sent == Sent(s.sent, s.N(), s.N() - 1, true)
    && u.step == s.step + 1 && u.maxSteps == s.maxSteps
  }

  lemma FaultFreeBody(s: SimState, c: Core, r: nat, kind: RoundKind, now: nat) returns (d: Core, b: Block)
    requires Chain(s, c, r) && Busy(s, kind, r)
    ensures Grows(s, RoundBody(s, kind, now), d, r, kind)
    ensures d.tree == Insert(c.tree, b) && b.hash == r + 1
    ensures var queue := s.replicas[r % s.N()].clientQueue;
            kind.Pacemaker? && queue != [] ==> b.command == queue[|queue| - 1]
  {
    hide Healthy, ChainCore, AllHave, ProposeKind, ProposedRound, Sent, Insert, SameSigner, CoreOf,
      CurrentLeader, DummiesOn, SimState.Down, Chain, Skip, SimState.Shaped;
    ChainParts(s, c, r);
    var leader := r % s.N();
    ChainLeader(s, c, r);
    MemberOf(s, c, leader);
    ViewOf(s.replicas[leader]);
    AlwaysProposes(s.replicas[leader], c, r, s.N(), kind, now);
    var p := ProposeKind(s.replicas[leader], kind, r, r + 1, now).0;
    b := ProposeKind(s.replicas[leader], kind, r, r + 1, now).1.value;
    assert Proposes(s, c, r, leader, p, b, kind, now);
    ProposesFacts(s, c, r, leader, p, b, kind, now);
    BlockParts(b, r + 1, s.N());
    d := ChainRound(s, c, r, leader, p, b, kind, now);
    ProposedRoundShaped(s, leader, p, b);
    ProposalPops(s.replicas[leader], kind, r + 1, now);
    RoundPops(s, leader, p, b, kind);
  }

  lemma RoundIsBody(s: SimState, kind: RoundKind, now: nat)
    requires s.Shaped() && NoFaults(s) && s.step < s.maxSteps
    ensures var t := s.(time := s.time + s.roundTime);
            var u := RoundBody(t, kind, now);
            NoFaults(u) ==> Round(s, kind, now) == u
  {
    hide RoundBody, ProcessTimeouts;
    var t := s.(time := s.time + s.roundTime);
    NobodyTimesOut(t);
    assert Started(s) == t;
    var u := RoundBody(t, kind, now);
    if NoFaults(u) { NobodyTimesOut(u); }
  }

  /** A fault-free round with something to propose adds one block, in 3(n-1) messages. */
  lemma FaultFreeRound(s: SimState, c: Core, r: nat, kind: RoundKind, now: nat) returns (d: Core, b: Block)
    requires Chain(s, c, r) && s.step < s.maxSteps && Busy(s, kind, r)
    ensures Grows(s, Round(s, kind, now), d, r, kind)
    ensures d.tree == Insert(c.tree, b) && b.hash == r + 1
    ensures var queue := s.replicas[r % s.N()].clientQueue;
            kind.Pacemaker? && queue != [] ==> b.command == queue[|queue| - 1]
  {
    hide Healthy, ChainCore, AllHave, Sent, Insert, SameSigner, CoreOf, ProcessTimeouts, Started, RoundBody, Round,
      CurrentLeader, DummiesOn, SimState.Down, SimState.Shaped;
    ChainStarted(s, c, r);
    var t := s.(time := s.time + s.roundTime);
    d, b := FaultFreeBody(t, c, r, kind, now);
    RoundIsBody(s, kind, now);
  }

  lemma MemberOf(s: SimState, c: Core, i: nat)
    requires s.Shaped() && AllHave(s.replicas, c) && i < s.N()
    ensures CoreOf(s.replicas[i]) == c && s.replicas[i].config.id == i
  {
    hide KeysInPlace, CoreOf, StaticQueue;
  }

  lemma ViewOf(r: ReplicaState)
    ensures CoreOf(r).view == r.currentView
  {
  }

  // ----- Runs from a fresh start -----

  lemma StartKeys(n: nat, config: Config, keys: KeyStore, persistence: bool)
    requires config.n == n && keys.publicKeys.Keys == Ids(n)
    requires keys.myId in keys.publicKeys && keys.publicKeys[keys.myId] == keys.myKey
    ensures var r := NewReplica(config, keys, persistence);
            SignerOk(r, n) && r.keystore == keys && !r.dummyEnabled
  {
    NewReplicaCore(config, keys, persistence);
    var r := NewReplica(config, keys, persistence);
    assert r.keystore == keys && r.config == config;
    assert CoreOf(r).validators == Ids(n) == r.activeValidators;
  }

  lemma StartCoreOk(n: nat, publicKeys: map<ReplicaId, Key>)
    requires n >= 2
    ensures Healthy(StartCore(n, publicKeys), 1) && ChainCore(StartCore(n, publicKeys), 0, n)
  {
    var c := StartCore(n, publicKeys);
    assert 0 in Ids(n) && 0 in c.tree;
    assert ChainTree(c.tree, 0, n);
    ChainHeads(c.tree, 0, n);
    assert BlocksAt(c.tree, []) == [];
  }

  lemma StartChain(f: nat, maxSteps: nat, persistence: bool, keystores: seq<KeyStore>)
    requires KeysDistributed(keystores) && |keystores| >= 2
    ensures PlainAt(NewSim(f, maxSteps, persistence, keystores), |keystores|, maxSteps,
                    StartCore(|keystores|, keystores[0].publicKeys), 0)
  {
    hide Healthy, ChainCore, NewReplica, SignerOk, CoreOf, Ids;
    var n := |keystores|;
    var s := NewSim(f, maxSteps, persistence, keystores);
    var c := StartCore(n, keystores[0].publicKeys);
    StartCoreOk(n, keystores[0].publicKeys);
    forall i | 0 <= i < n
      ensures SignerOk(s.replicas[i], n) && s.replicas[i].keystore == keystores[i]
      ensures CoreOf(s.replicas[i]) == c && StaticQueue(s.replicas[i].clientQueue)
      ensures !s.replicas[i].dummyEnabled && s.replicas[i].clientQueue == []
    {
      StartKeys(n, Config(n, f, i, 5000), keystores[i], persistence);
      NewReplicaCore(Config(n, f, i, 5000), keystores[i], persistence);
      assert s.replicas[i] == NewReplica(Config(n, f, i, 5000), keystores[i], persistence);
    }
    assert KeysInPlace(s.replicas);
  }

  /** r rounds, each with n-1 proposals, votes and certificates. */
  function MessagesAfter(n: nat, r: nat): Counters
    requires n > 0
  {
    Counters(3 * ((n - 1) * r), (n - 1) * r, (n - 1) * r, (n - 1) * r, 0)
  }

  lemma OneMoreRound(n: nat, r: nat)
    requires n > 0
    ensures Sent(MessagesAfter(n, r), n, n - 1, true) == MessagesAfter(n, r + 1)
  {
    assert (n - 1) * (r + 1) == (n - 1) * r + (n - 1);
  }

  predicate PlainRounds(actions: seq<Action>) {
    forall i :: 0 <= i < |actions| ==> actions[i].RunRound? && actions[i].kind.Plain?
  }

  /** No queued command and no dummies. */
  predicate Quiet(s: SimState) {
    forall i :: 0 <= i < s.N() ==> !s.replicas[i].dummyEnabled && s.replicas[i].clientQueue == []
  }

  lemma StaysQuiet(s: SimState, t: SimState, leader: nat)
    requires Quiet(s) && KeepsSigners(s, t) && QueuesAfter(s, t, leader, Plain)
    ensures Quiet(t) && t.N() == s.N()
  {
    forall i | 0 <= i < t.N() ensures !t.replicas[i].dummyEnabled && t.replicas[i].clientQueue == [] {
      assert SameSigner(t.replicas[i], s.replicas[i]);
    }
  }

  /** k fault-free plain rounds after the start. */
  ghost predicate PlainAt(u: SimState, n: nat, maxSteps: nat, d: Core, k: nat)
    requires n > 0
  {
    && Chain(u, d, k) && u.N() == n && u.maxSteps == maxSteps
    && u.step == k && u.sent == MessagesAfter(n, k) && Quiet(u)
  }

  lemma PlainStep(u: SimState, n: nat, maxSteps: nat, c: Core, k: nat, a: Action) returns (d: Core)
    requires n > 0 && PlainAt(u, n, maxSteps, c, k) && k < maxSteps && a.RunRound? && a.kind.Plain?
    ensures PlainAt(Step(u, a), n, maxSteps, d, k + 1)
  {
    hide Round, Sent, MessagesAfter, Chain, SimState.Shaped, Busy, KeepsSigners, QueuesAfter, Quiet;
    assert u.Shaped() by { ChainParts(u, c, k); }
    PlainBusy(u, k);
    var b;
    d, b := FaultFreeRound(u, c, k, a.kind, a.now);
    StaysQuiet(u, Step(u, a), k % n);
    OneMoreRound(n, k);
  }

  lemma {:induction false} PlainRun(s: SimState, n: nat, c: Core, actions: seq<Action>) returns (d: Core)
    requires n > 0 && s.Shaped() && PlainAt(s, n, s.maxSteps, c, 0)
    requires PlainRounds(actions) && |actions| <= s.maxSteps
    ensures PlainAt(Drive(s, actions), n, s.maxSteps, d, |actions|)
    decreases |actions|
  {
    hide Step, PlainAt, SimState.Shaped;
    d := c;
    if actions != [] {
      var k := |actions| - 1;
      var m := PlainRun(s, n, c, actions[..k]);
      d := PlainStep(Drive(s, actions[..k]), n, s.maxSteps, m, k, actions[k]);
    }
  }

  lemma PlainBusy(s: SimState, r: nat)
    requires s.N() > 0
    ensures Busy(s, Plain, r)
  {
  }

  lemma ChainLog(s: SimState, c: Core, r: nat, i: nat)
    requires Chain(s, c, r) && i < s.N()
    ensures var q := s.replicas[i];
            && q.currentView == r && ChainTree(q.blockTree, r, s.N())
            && Hashes(q.committedLog) == Range(1, if r >= 2 then r - 1 else 1)
  {
    hide Healthy, KeysInPlace, ChainTree, Heads;
    assert CoreOf(s.replicas[i]) == c;
    ChainLinks(c.tree, r, s.N());
    ChainHeads(c.tree, r, s.N());
    CommittedOf(c.tree, Ascending(Heads(c.tree)));
  }

  lemma ShapedQueue(s: SimState)
    requires s.Shaped()
    ensures s.queue == []
  {
  }

  /** For every n >= 2 and every number r of fault-free plain rounds within the step budget, every replica is in
      view r, holds the chain 0 <- 1 <- ... <- r, and has committed exactly blocks 1 to r-2, in order; 3(n-1)r
      messages were sent. */
  lemma FaultFreeClosedForm(f: nat, maxSteps: nat, persistence: bool, keystores: seq<KeyStore>,
                            actions: seq<Action>)
    requires KeysDistributed(keystores) && |keystores| >= 2
    requires PlainRounds(actions) && |actions| <= maxSteps
    ensures var n, r := |keystores|, |actions|;
            var s := Drive(NewSim(f, maxSteps, persistence, keystores), actions);
            && s.step == r && s.sent.total == 3 * ((n - 1) * r) && s.queue == []
            && s.sent.proposals == s.sent.votes == s.sent.certificates == (n - 1) * r
            && forall i :: 0 <= i < n ==>
                 && s.replicas[i].currentView == r
                 && ChainTree(s.replicas[i].blockTree, r, n)
                 && Hashes(s.replicas[i].committedLog) == Range(1, if r >= 2 then r - 1 else 1)
  {
    hide NewSim, Drive, Chain, ChainTree, Range, Quiet, SimState.Shaped;
    var start := NewSim(f, maxSteps, persistence, keystores);
    StartChain(f, maxSteps, persistence, keystores);
    var d := PlainRun(start, |keystores|, StartCore(|keystores|, keystores[0].publicKeys), actions);
    var s := Drive(start, actions);
    assert s.queue == [] by { ShapedQueue(s); }
    forall i | 0 <= i < |keystores|
      ensures && s.replicas[i].currentView == |actions|
              && ChainTree(s.replicas[i].blockTree, |actions|, |keystores|)
              && Hashes(s.replicas[i].committedLog) == Range(1, if |actions| >= 2 then |actions| - 1 else 1)
    {
      ChainLog(s, d, |actions|, i);
    }
  }
}
