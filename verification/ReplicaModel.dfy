/** The state of one replica and what every operation makes of it. */
module ReplicaModel {
  import opened Types
  import opened Ordered
  import opened Crypto
  import opened CommitRule
  import opened Storage
  import Quorum

  datatype ReplicaState = ReplicaState(
    config: Config,
    currentView: nat,
    blockTree: Tree,
    highQc: Option<QuorumCert>,
    votePool: map<Hash, seq<Signature>>,
    nextHash: Hash,
    committedLog: seq<Block>,
    committedUpTo: Option<Hash>,
    activeValidators: set<ReplicaId>,
    configEpoch: nat,
    keystore: KeyStore,
    walAttached: bool,
    store: Store,
    snapshotCounter: nat,
    clientQueue: seq<Command>,
    dummyEnabled: bool,
    dummyTimeoutMs: nat,
    lastProposedTime: nat)
  {
    // ----- Active configuration -----

    function QuorumSize(): nat {
      Quorum.Size(|activeValidators|)
    }

    function LeaderFor(view: nat): ReplicaId {
      if activeValidators == {} then config.id
      else
        var ids := Ascending(activeValidators);
        assert |ids| == |activeValidators|;
        ids[view % |ids|]
    }

    predicate IsLeader(view: nat) {
      LeaderFor(view) == config.id
    }

    // ----- Write-ahead log -----

    function Logged(e: LogEntry): ReplicaState {
      if walAttached then this.(store := store.Append(e)) else this
    }

    // ----- Votes and certificates -----

    function Pool(hash: Hash): seq<Signature> {
      if hash in votePool then votePool[hash] else []
    }

    predicate Accepts(vote: Vote) {
      && vote.epoch == configEpoch
      && vote.signature.signer in activeValidators
      && keystore.Verify(vote.signature, vote.blockHash, vote.view, vote.epoch)
      && vote.signature.signer < config.n
      && vote.blockHash in blockTree
      && blockTree[vote.blockHash].epoch == vote.epoch
      && forall s :: s in Pool(vote.blockHash) ==> s.signer != vote.signature.signer
    }

    /** The entries forming a certificate appends: the certificate first, then the new high pointer. */
    function QcEntries(hash: Hash, view: nat, epoch: nat): seq<LogEntry> {
      if |Pool(hash)| >= QuorumSize()
      then [QCFormed(hash, view, epoch, |Pool(hash)|), HighQCUpdated(hash, view, epoch)] else []
    }

    function TryFormQc(hash: Hash, view: nat, epoch: nat): (ReplicaState, Option<QuorumCert>) {
      if |Pool(hash)| >= QuorumSize() then
        var qc := QuorumCert(hash, view, epoch, Pool(hash));
        (this.(highQc := Some(qc))
           .Logged(QCFormed(hash, view, epoch, |Pool(hash)|))
           .Logged(HighQCUpdated(hash, view, epoch)),
         Some(qc))
      else (this, None)
    }

    function Pooled(vote: Vote): ReplicaState {
      this.(votePool := votePool[vote.blockHash := Pool(vote.blockHash) + [vote.signature]])
    }

    function HandleVote(vote: Vote): (ReplicaState, Option<QuorumCert>) {
      if Accepts(vote) then Pooled(vote).TryFormQc(vote.blockHash, vote.view, vote.epoch)
      else (this, None)
    }

    predicate Newer(qc: QuorumCert) {
      highQc.None? ||
      qc.epoch > highQc.value.epoch || (qc.epoch == highQc.value.epoch && qc.view > highQc.value.view)
    }

    function ApplyHighQc(qc: QuorumCert): ReplicaState {
      if Newer(qc)
      then this.(highQc := Some(qc)).Logged(HighQCUpdated(qc.blockHash, qc.view, qc.epoch))
      else this
    }

    // ----- Proposals -----

    /** The block a leader would build: it extends the high certificate, or else the latest block. */
    function NewBlock(view: nat, hash: Hash, command: Command): Block {
      var parent := if highQc.Some? then Some(highQc.value.blockHash) else LatestHash(blockTree);
      Block(hash, parent, view, configEpoch, config.id, highQc, command)
    }

    /** A leader inserts its own block without logging it. */
    function Proposed(b: Block, now: nat): ReplicaState {
      this.(blockTree := blockTree[b.hash := b], lastProposedTime := now)
    }

    function ProposeWithHash(view: nat, hash: Hash, now: nat): (ReplicaState, Option<Block>) {
      if !IsLeader(view) then (this, None)
      else
        var b := NewBlock(view, hash, NoOp);
        (Proposed(b, now), Some(b))
    }

    ghost predicate ShouldProposeDummy(now: nat) {
      && dummyEnabled
      && IsLeader(currentView)
      && clientQueue == []
      && (if now >= lastProposedTime then now - lastProposedTime else 0) >= dummyTimeoutMs
      && Pending(blockTree, committedLog) == {}
    }

    ghost function ProposeNextWithHash(view: nat, hash: Hash, now: nat): (ReplicaState, Option<Block>) {
      if !IsLeader(view) then (this, None)
      else if clientQueue != [] then
        var b := NewBlock(view, hash, clientQueue[|clientQueue| - 1]);
        (this.(clientQueue := clientQueue[..|clientQueue| - 1]).Proposed(b, now), Some(b))
      else if ShouldProposeDummy(now) then ProposeWithHash(view, hash, now)
      else (this, None)
    }

    predicate ValidProposal(b: Block) {
      && b.proposer == LeaderFor(b.view)
      && b.epoch == configEpoch
      && (b.parent.Some? ==> b.parent.value in blockTree)
      && (b.qc.Some? ==>
            && b.qc.value.epoch == configEpoch
            && Certified(keystore, b.qc.value, QuorumSize())
            && b.qc.value.blockHash in blockTree)
    }

    function InsertProposal(b: Block): ReplicaState {
      if ValidProposal(b)
      then Logged(InsertedEntry(b)).(blockTree := blockTree[b.hash := b])
      else this
    }

    /** The queue and the dummy settings, which only proposals and the driver touch. */
    predicate SamePacemaker(r: ReplicaState) {
      && clientQueue == r.clientQueue && dummyEnabled == r.dummyEnabled
      && dummyTimeoutMs == r.dummyTimeoutMs && lastProposedTime == r.lastProposedTime
    }

    // ----- Commit -----

    function Rewired(validators: set<ReplicaId>, keys: KeyStore): ReplicaState {
      this.(activeValidators := validators, keystore := keys, configEpoch := configEpoch + 1,
            config := config.(n := |validators|, f := Quorum.F(|validators|)), votePool := map[])
    }

    function Joined(id: ReplicaId, bytes: KeyBytes): ReplicaState {
      if id in activeValidators || !Quorum.CanApplyCount(|activeValidators| + 1) then this
      else
        var added := keystore.AddPublicKey(id, bytes);
        if added.1 then Rewired(activeValidators + {id}, added.0) else this
    }

    function Removed(id: ReplicaId): ReplicaState {
      if id !in activeValidators || !Quorum.CanApplyCount(|activeValidators| - 1) then this
      else Rewired(activeValidators - {id}, keystore.RemovePublicKey(id))
    }

    function ApplyMembership(command: Command): ReplicaState {
      match command
      case JoinValidator(id, bytes) => Joined(id, bytes)
      case RemoveValidator(id) => Removed(id)
      case _ => this
    }

    function ExecuteAndCommit(b: Block): ReplicaState {
      Logged(CommittedEntry(b, |committedLog|))
        .(committedLog := committedLog + [b], committedUpTo := Some(b.hash))
        .ApplyMembership(b.command)
    }

    function CommitEach(bs: seq<Block>): (r: ReplicaState)
      ensures r.config.id == config.id && r.blockTree == blockTree && r.SamePacemaker(this)
      decreases |bs|
    {
      if bs == [] then this else ExecuteAndCommit(bs[0]).CommitEach(bs[1..])
    }

    ghost function CommitAll(): ReplicaState {
      CommitEach(Commits(blockTree, committedLog))
    }

    // ----- Views -----

    function AdvanceView(reason: Reason): (r: ReplicaState)
      ensures r.config == config && r.currentView == currentView + 1
    {
      this.(currentView := currentView + 1, votePool := map[])
          .Logged(ViewChanged(currentView, currentView + 1, reason))
    }

    // ----- Snapshots -----

    predicate ShouldSnapshot() {
      committedLog != [] && |committedLog| % 100 == 0
    }

    function Capture(): Snapshot {
      Snapshot(snapshotCounter, config.id, currentView, configEpoch, Ascending(activeValidators),
               SnapsOf(committedLog), committedUpTo, PointerOf(highQc), SnapsOf(Values(blockTree)), nextHash)
    }

    /** The log cannot be truncated while the temporary file of an earlier truncation is there. */
    predicate Blocked() {
      walAttached && store.leftover
    }

    /** The contents of the data directory before and after every durable write of taking a snapshot. Truncating
        writes a temporary file first and then puts it in the place of the log; if that file is already there, taking
        the snapshot fails at this point. */
    function SnapshotWrites(): (stores: seq<Store>)
      ensures |stores| >= 3 && stores[0] == store
    {
      var saved := store.Save(Capture());
      if !walAttached then [store, saved, saved.Cleanup(3)]
      else
        var marked := saved.Append(SnapshotTaken(snapshotCounter, committedUpTo));
        if store.leftover then [store, saved, marked]
        else [store, saved, marked, marked.(leftover := true), marked.Truncate(), marked.Truncate().Cleanup(3)]
    }

    /** The number of the next snapshot only grows if this one was finished. */
    function TakeSnapshot(): ReplicaState {
      var stores := SnapshotWrites();
      this.(store := stores[|stores| - 1], snapshotCounter := snapshotCounter + if Blocked() then 0 else 1)
    }
  }

  /** The block with the highest view among the given ascending hashes; the largest hash wins a tie. */
  function LatestAmong(t: Tree, hashes: seq<Hash>): (h: Hash)
    requires hashes != [] && forall i :: 0 <= i < |hashes| ==> hashes[i] in t
    ensures h in hashes
    ensures forall i :: 0 <= i < |hashes| ==> t[hashes[i]].view <= t[h].view
    decreases |hashes|
  {
    var last := hashes[|hashes| - 1];
    if |hashes| == 1 then last
    else
      var init := LatestAmong(t, hashes[..|hashes| - 1]);
      if t[last].view >= t[init].view then last else init
  }

  function LatestHash(t: Tree): (h: Option<Hash>)
    ensures h.None? <==> t == map[]
    ensures h.Some? ==> h.value in t
  {
    if t == map[] then None
    else
      assert t.Keys != {} && |Ascending(t.Keys)| == |t.Keys|;
      Some(LatestAmong(t, Ascending(t.Keys)))
  }
}
