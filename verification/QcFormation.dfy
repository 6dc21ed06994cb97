/** Votes become a certificate exactly at quorum, and every certificate a replica forms verifies. */
module QcFormation {
  import opened Types
  import opened Ordered
  import opened Crypto
  import opened CommitRule
  import opened Storage
  import opened ReplicaModel
  import opened Recovery
  import opened StateSync
  import opened Durability
  import opened Runs
  import Quorum

  /** Pooled signatures come from distinct active signers and verify for their block. */
  ghost predicate PoolSound(s: ReplicaState, hash: Hash) {
    && hash in s.blockTree && s.blockTree[hash].epoch == s.configEpoch
    && DistinctSigners(s.Pool(hash))
    && forall i :: 0 <= i < |s.Pool(hash)| ==>
         && s.Pool(hash)[i].signer in s.activeValidators
         && s.keystore.Verify(s.Pool(hash)[i], hash, s.blockTree[hash].view, s.configEpoch)
  }

  ghost predicate PoolsSound(s: ReplicaState) {
    forall hash :: hash in s.votePool ==> PoolSound(s, hash)
  }

  /** Votes carry the view of their block, and the hash of a new block is not one already in the tree. */
  ghost predicate WellMeant(s: ReplicaState, m: Move) {
    match m
    case Do(ReceiveVote(vote)) => vote.blockHash in s.blockTree ==> vote.view == s.blockTree[vote.blockHash].view
    case Do(Propose(_, hash, _)) => hash !in s.blockTree
    case Do(ProposeNext(_, hash, _)) => hash !in s.blockTree
    case Do(ReceiveBlock(block)) => block.hash !in s.blockTree
    case _ => true
  }

  lemma VoteKeepsPools(s: ReplicaState, vote: Vote)
    requires PoolsSound(s) && WellMeant(s, Do(ReceiveVote(vote)))
    ensures PoolsSound(s.HandleVote(vote).0)
    ensures s.Accepts(vote) ==> PoolSound(s.Pooled(vote), vote.blockHash)
  {
    if s.Accepts(vote) {
      var t := s.Pooled(vote);
      assert PoolSound(t, vote.blockHash);
      forall hash | hash in t.votePool ensures PoolSound(t, hash) {
        if hash != vote.blockHash { assert PoolSound(s, hash); }
      }
      var u := s.HandleVote(vote).0;
      assert u.votePool == t.votePool;
      forall hash | hash in u.votePool ensures PoolSound(u, hash) {
        assert PoolSound(t, hash) && u.Pool(hash) == t.Pool(hash);
      }
    }
  }

  /** A vote yields a certificate exactly when it is accepted and leaves its pool at quorum or above, and
      that certificate is for the voted block, holds the whole pool, and verifies. */
  lemma QcExactlyAtQuorum(s: ReplicaState, vote: Vote)
    requires PoolsSound(s) && WellMeant(s, Do(ReceiveVote(vote)))
    ensures s.HandleVote(vote).1.Some? <==> s.Accepts(vote) && |s.Pool(vote.blockHash)| + 1 >= s.QuorumSize()
    ensures s.HandleVote(vote).1.Some? ==>
              var qc := s.HandleVote(vote).1.value;
              && qc.blockHash == vote.blockHash && qc.view == vote.view && qc.epoch == s.configEpoch
              && DistinctSigners(qc.signatures)
              && |ValidSigners(s.keystore, qc)| == |s.Pool(vote.blockHash)| + 1
              && ValidSigners(s.keystore, qc) <= s.activeValidators
              && Certified(s.keystore, qc, s.QuorumSize())
              && s.HandleVote(vote).0.highQc == Some(qc)
  {
    VoteKeepsPools(s, vote);
    if s.HandleVote(vote).1.Some? {
      var qc := s.HandleVote(vote).1.value;
      var t := s.Pooled(vote);
      assert qc.signatures == t.Pool(vote.blockHash) && PoolSound(t, vote.blockHash);
      DistinctValidCount(s.keystore, qc);
    }
  }

  lemma MembershipKeepsPools(s: ReplicaState, command: Command)
    requires PoolsSound(s)
    ensures PoolsSound(s.ApplyMembership(command))
  {
    if s.ApplyMembership(command) != s {
      assert s.ApplyMembership(command).votePool == map[];
    }
  }

  lemma SamePools(s: ReplicaState, t: ReplicaState)
    requires PoolsSound(s)
    requires t.votePool == s.votePool && t.activeValidators == s.activeValidators
    requires t.keystore == s.keystore && t.configEpoch == s.configEpoch
    requires forall h :: h in s.blockTree ==> h in t.blockTree && t.blockTree[h] == s.blockTree[h]
    ensures PoolsSound(t)
  {
    forall hash | hash in t.votePool ensures PoolSound(t, hash) {
      assert PoolSound(s, hash) && t.Pool(hash) == s.Pool(hash);
    }
  }

  lemma {:induction false} CommitKeepsPools(s: ReplicaState, bs: seq<Block>)
    requires PoolsSound(s)
    ensures PoolsSound(s.CommitEach(bs))
    decreases |bs|
  {
    if bs != [] {
      var t := s.Logged(CommittedEntry(bs[0], |s.committedLog|))
                .(committedLog := s.committedLog + [bs[0]], committedUpTo := Some(bs[0].hash));
      SamePools(s, t);
      MembershipKeepsPools(t, bs[0].command);
      CommitKeepsPools(s.ExecuteAndCommit(bs[0]), bs[1..]);
    }
  }

  lemma ProposalKeepsPools(s: ReplicaState, b: Block, now: nat)
    requires PoolsSound(s) && b.hash !in s.blockTree
    ensures PoolsSound(s.Proposed(b, now))
  {
    SamePools(s, s.Proposed(b, now));
  }

  /** The move starts from what recovery finds on disk. */
  predicate FromDisk(m: Move) {
    m.CrashIn? || Recovers(m.op)
  }

  /** Recovery starts with no votes, and neither state sync nor catching up adds any. */
  lemma RecoveredPools(s: ReplicaState, m: Move)
    requires Kept(s) && GoesOn(s, m) && FromDisk(m)
    ensures PoolsSound(Moved(s, m))
  {
    RecoveredIsDurable(s, m);
    hide PoolsSound, Kept, Durable, DurableTree, Behind, Restarted, Saver, NextEntries, DiskAt, RestartedOn, Recover;
    if m.CrashIn? {
      DurableCrash(s, m.op, m.writes);
    } else if m.op.Restart? {
      DurableRestart(s);
    } else {
      RejoinedVotes(s, m.op);
    }
    NoPools(Moved(s, m));
  }

  lemma RejoinedVotes(s: ReplicaState, op: Op)
    requires Durable(s) && KeyedDonor(op) && op.Rejoin?
    ensures Apply(s, op).votePool == map[]
  {
    hide Durable, Behind, Saver, NextEntries, Restarted, HashPrefix, ReplicaState.TakeSnapshot;
    SaverReady(s, op);
    SaverTakes(s, op);
    SnapshotMemory(Saver(s, op));
  }

  lemma MoveKeepsPools(s: ReplicaState, m: Move)
    requires PoolsSound(s) && WellMeant(s, m) && (FromDisk(m) ==> Kept(s) && GoesOn(s, m))
    ensures PoolsSound(Moved(s, m))
  {
    hide PoolsSound, Kept, Durable, DurableTree, ReplicaState.HandleVote, ReplicaState.CommitEach, RestartedOn, DiskAt,
      ReplicaState.IsLeader, ReplicaState.ShouldProposeDummy, Restarted, ReplicaState.TakeSnapshot, Pending;
    if FromDisk(m) {
      RecoveredPools(s, m);
    } else {
      match m.op
      case ReceiveVote(vote) => VoteKeepsPools(s, vote);
      case Propose(view, hash, now) => ProposalKeepsPools(s, s.NewBlock(view, hash, NoOp), now);
      case ProposeNext(view, hash, now) => NextKeepsPools(s, view, hash, now);
      case CommitReady => CommitKeepsPools(s, Commits(s.blockTree, s.committedLog));
      case Advance(reason) => NoPools(s.AdvanceView(reason));
      case Snap => SnapKeepsPools(s);
      case _ => SamePools(s, Moved(s, m));
    }
  }

  lemma NoPools(s: ReplicaState)
    requires s.votePool == map[]
    ensures PoolsSound(s)
  {
  }

  lemma SnapKeepsPools(s: ReplicaState)
    requires PoolsSound(s)
    ensures PoolsSound(s.TakeSnapshot())
  {
    SnapshotMemory(s);
    hide ReplicaState.TakeSnapshot;
    SamePools(s, s.TakeSnapshot());
  }

  lemma NextKeepsPools(s: ReplicaState, view: nat, hash: Hash, now: nat)
    requires PoolsSound(s) && hash !in s.blockTree
    ensures PoolsSound(s.ProposeNextWithHash(view, hash, now).0)
  {
    ProposalKeepsPools(s, s.NewBlock(view, hash, NoOp), now);
    if s.clientQueue != [] {
      var q := s.(clientQueue := s.clientQueue[..|s.clientQueue| - 1]);
      SamePools(s, q);
      ProposalKeepsPools(q, q.NewBlock(view, hash, s.clientQueue[|s.clientQueue| - 1]), now);
    }
  }

  ghost predicate WellMeantRun(s: ReplicaState, moves: seq<Move>)
    decreases |moves|
  {
    moves == [] || (WellMeant(s, moves[0]) && WellMeantRun(Moved(s, moves[0]), moves[1..]))
  }

  /** Over any well-meant run, view changes, membership commits, restarts, rejoins and crashes included, every pool
      stays sound. Only a run that recovers from disk needs a disk that holds the state, or refuses recovery. */
  lemma {:induction false} PoolsStaySound(s: ReplicaState, moves: seq<Move>)
    requires (Kept(s) && Survives(s, moves)) || forall i :: 0 <= i < |moves| ==> !FromDisk(moves[i])
    requires PoolsSound(s) && WellMeantRun(s, moves)
    ensures PoolsSound(Run(s, moves))
    decreases |moves|
  {
    if moves != [] {
      hide Moved, PoolsSound, Kept, WellMeant, GoesOn, SpoilsNow;
      if Kept(s) && Survives(s, moves) { KeptMove(s, moves[0], {}); }
      MoveKeepsPools(s, moves[0]);
      PoolsStaySound(Moved(s, moves[0]), moves[1..]);
    }
  }

  // ----- Exactly which certificates verify -----

  /** The pooled signers whose signature verifies for the view and epoch of this vote. */
  function SignersInView(s: ReplicaState, vote: Vote): set<ReplicaId> {
    set sig | sig in s.Pool(vote.blockHash) && s.keystore.Verify(sig, vote.blockHash, vote.view, vote.epoch)
      :: sig.signer
  }

  /** Whatever the replica and its pools hold, a certificate it forms verifies exactly when a quorum, less the voter,
      has pooled a signature for the view of the completing vote. */
  lemma FormedVerifiesIff(s: ReplicaState, vote: Vote)
    requires s.HandleVote(vote).1.Some?
    ensures Certified(s.keystore, s.HandleVote(vote).1.value, s.QuorumSize())
            <==> |SignersInView(s, vote)| + 1 >= s.QuorumSize()
  {
    var qc := s.HandleVote(vote).1.value;
    var valid, voter := SignersInView(s, vote), vote.signature.signer;
    assert qc.signatures == s.Pool(vote.blockHash) + [vote.signature];
    assert ValidSigners(s.keystore, qc) == valid + {voter};
    assert voter !in valid;
  }

  // ----- Votes that carry another view than their block -----

  /** Replica 0 of four on an empty directory, after proposing its first block in view 0. */
  function FirstProposed(keys: KeyStore): ReplicaState {
    FreshDurable(Config(4, 1, 0, 5000), keys).ProposeWithHash(0, 1, 0).0
  }

  /** What its verdict on a vote for that block depends on. */
  ghost predicate Voting(s: ReplicaState, keys: KeyStore) {
    && 1 in s.blockTree && s.blockTree[1] == Block(1, Some(0), 0, 0, 0, None, NoOp)
    && s.activeValidators == Ids(4) && s.configEpoch == 0 && s.config.n == 4 && s.keystore == keys
  }

  lemma GenesisLatest()
    ensures LatestHash(map[0 := GENESIS]) == Some(0)
  {
    var latest := LatestHash(map[0 := GENESIS]);
    assert latest.Some? && latest.value in map[0 := GENESIS];
  }

  lemma FreshParts(keys: KeyStore)
    ensures var s := FreshDurable(Config(4, 1, 0, 5000), keys);
            && s.blockTree == map[0 := GENESIS] && s.highQc == None && s.votePool == map[]
            && s.activeValidators == Ids(4) && s.configEpoch == 0 && s.config == Config(4, 1, 0, 5000)
            && s.keystore == keys
  {
  }

  lemma ProposesFirst(s: ReplicaState, keys: KeyStore)
    requires s.blockTree == map[0 := GENESIS] && s.highQc == None && s.configEpoch == 0
    requires s.activeValidators == Ids(4) && s.config == Config(4, 1, 0, 5000)  && s.keystore == keys
    ensures var t := s.ProposeWithHash(0, 1, 0).0; Voting(t, keys) && t.votePool == s.votePool
  {
    hide LatestHash, ReplicaState.IsLeader, Ids;
    LeadsFirst(s);
    GenesisLatest();
  }

  lemma LeadsFirst(s: ReplicaState)
    requires s.activeValidators == Ids(4) && s.config.id == 0
    ensures s.IsLeader(0)
  {
    AscendingIds(4);
    assert 0 in Ids(4);
  }

  lemma FirstBlock(keys: KeyStore)
    ensures Voting(FirstProposed(keys), keys) && FirstProposed(keys).votePool == map[]
  {
    FreshParts(keys);
    hide FreshDurable, ReplicaState.ProposeWithHash, Voting;
    ProposesFirst(FreshDurable(Config(4, 1, 0, 5000), keys), keys);
  }

  function VoteBy(keys: KeyStore, i: nat, view: nat): Vote
    requires i in keys.publicKeys
  {
    Vote(1, view, 0, Signature(i, Made(keys.publicKeys[i], 1, view, 0)))
  }

  lemma VoteAccepted(s: ReplicaState, keys: KeyStore, i: nat, view: nat)
    requires keys.publicKeys.Keys == Ids(4) && Voting(s, keys) && i < 4
    requires forall sig :: sig in s.Pool(1) ==> sig.signer != i
    ensures s.Accepts(VoteBy(keys, i, view))
  {
  }

  /** A pool of a validator set of four yields a certificate from three signatures on. */
  lemma FormsAtThree(s: ReplicaState, view: nat)
    requires s.activeValidators == Ids(4)
    ensures var (t, qc) := s.TryFormQc(1, view, 0);
            && t.QuorumSize() == 3 && t.blockTree == s.blockTree && t.votePool == s.votePool
            && t.activeValidators == s.activeValidators && t.configEpoch == s.configEpoch
            && t.config == s.config && t.keystore == s.keystore
            && (|s.Pool(1)| >= 3 ==> t.highQc == qc == Some(QuorumCert(1, view, 0, s.Pool(1))))
  {
    hide ReplicaState.Pool, Ids, ReplicaState.QuorumSize;
    QuorumOfFour(s);
    QuorumOfFour(s.TryFormQc(1, view, 0).0);
  }

  lemma QuorumOfFour(s: ReplicaState)
    requires s.activeValidators == Ids(4)
    ensures s.QuorumSize() == 3
  {
    AscendingIds(4);
  }

  lemma PooledVote(s: ReplicaState, keys: KeyStore, i: nat, view: nat)
    requires keys.publicKeys.Keys == Ids(4) && Voting(s, keys) && i < 4
    ensures var vote := VoteBy(keys, i, view);
            var (t, qc) := s.Pooled(vote).TryFormQc(1, view, 0);
            && Voting(t, keys) && t.Pool(1) == s.Pool(1) + [vote.signature] && t.QuorumSize() == 3
            && (|t.Pool(1)| >= 3 ==> t.highQc == qc == Some(QuorumCert(1, view, 0, t.Pool(1))))
  {
    hide ReplicaState.TryFormQc, ReplicaState.QuorumSize, Ids;
    FormsAtThree(s.Pooled(VoteBy(keys, i, view)), view);
  }

  /** Every vote of another replica joins the pool, and the third makes a certificate. */
  lemma VoteTaken(s: ReplicaState, keys: KeyStore, i: nat, view: nat)
    requires keys.publicKeys.Keys == Ids(4) && Voting(s, keys) && i < 4
    requires forall sig :: sig in s.Pool(1) ==> sig.signer != i
    ensures var vote := VoteBy(keys, i, view);
            var (t, qc) := s.HandleVote(vote);
            && Voting(t, keys) && t.Pool(1) == s.Pool(1) + [vote.signature] && t.QuorumSize() == 3
            && (|t.Pool(1)| >= 3 ==> t.highQc == qc == Some(QuorumCert(1, view, 0, t.Pool(1))))
  {
    hide ReplicaState.Accepts, ReplicaState.TryFormQc, ReplicaState.QuorumSize, ReplicaState.Pool, Voting,
      KeyStore.Verify;
    VoteAccepted(s, keys, i, view);
    PooledVote(s, keys, i, view);
  }

  /** Of these three signatures only the last is one for view 1. */
  lemma OneValid(keys: KeyStore)
    requires keys.publicKeys.Keys == Ids(4)
    ensures !Certified(keys, QuorumCert(1, 1, 0, [VoteBy(keys, 1, 0).signature, VoteBy(keys, 2, 0).signature,
                                                  VoteBy(keys, 3, 1).signature]), 3)
  {
    var qc := QuorumCert(1, 1, 0, [VoteBy(keys, 1, 0).signature, VoteBy(keys, 2, 0).signature,
                                   VoteBy(keys, 3, 1).signature]);
    assert ValidSigners(keys, qc) <= {3};
    Quorum.Subset(ValidSigners(keys, qc), {3});
  }

  function LastOfThree(s: ReplicaState, keys: KeyStore): (ReplicaState, Option<QuorumCert>)
    requires keys.publicKeys.Keys == Ids(4)
  {
    s.HandleVote(VoteBy(keys, 1, 0)).0.HandleVote(VoteBy(keys, 2, 0)).0.HandleVote(VoteBy(keys, 3, 1))
  }

  lemma ThreeVotes(s: ReplicaState, keys: KeyStore)
    requires keys.publicKeys.Keys == Ids(4) && Voting(s, keys) && s.Pool(1) == []
    ensures var (last, qc) := LastOfThree(s, keys);
            && qc.Some? && last.highQc == qc && last.keystore == keys
            && !Certified(keys, qc.value, last.QuorumSize())
  {
    var a, b, c := VoteBy(keys, 1, 0), VoteBy(keys, 2, 0), VoteBy(keys, 3, 1);
    var s1 := s.HandleVote(a).0;
    var s2 := s1.HandleVote(b).0;
    VoteTaken(s, keys, 1, 0);
    VoteTaken(s1, keys, 2, 0);
    VoteTaken(s2, keys, 3, 1);
    OneValid(keys);
    hide ReplicaState.HandleVote, Certified, ReplicaState.QuorumSize, ReplicaState.Pool;
    assert s2.HandleVote(c).0.Pool(1) == [a.signature, b.signature, c.signature];
  }

  /** The hypothesis on views is needed: the pool is keyed by hash only, so three genuine votes for the first block a
      leader proposes that name two views make a certificate, and that certificate does not verify. */
  lemma MixedViewsBreakCertificate(keys: KeyStore)
    requires keys.publicKeys.Keys == Ids(4)
    ensures var s := FirstProposed(keys);
            var (last, qc) := LastOfThree(s, keys);
            && PoolsSound(s) && 1 in s.blockTree && s.blockTree[1].view == 0
            && qc.Some? && last.highQc == qc && last.keystore == keys
            && !Certified(keys, qc.value, last.QuorumSize())
    ensures forall i, view: nat {:trigger VoteBy(keys, i, view)} :: i in keys.publicKeys ==>
              var vote := VoteBy(keys, i, view);
              vote.blockHash == 1 && keys.Verify(vote.signature, 1, vote.view, vote.epoch)
  {
    var s := FirstProposed(keys);
    FirstBlock(keys);
    NoPools(s);
    ThreeVotes(s, keys);
    hide FirstProposed, ReplicaState.HandleVote, PoolsSound, Certified, ReplicaState.QuorumSize, LastOfThree;
  }
}
