/** What a replica keeps in its data directory: write-ahead log entries and snapshots. Wall-clock stamps are
    not modelled. */
module Storage {
  import opened Types
  import opened Ordered
  import opened CommitRule

  datatype Reason = Timeout | Commit

  datatype LogEntry =
    | BlockInserted(hash: Hash, parent: Option<Hash>, view: nat, epoch: nat, proposer: ReplicaId,
                    qcHash: Option<Hash>, qcView: Option<nat>, command: Command)
    | VoteReceived(hash: Hash, view: nat, signer: ReplicaId)
    | QCFormed(hash: Hash, view: nat, epoch: nat, signerCount: nat)
    | HighQCUpdated(hash: Hash, view: nat, epoch: nat)
    | BlockCommitted(hash: Hash, parent: Option<Hash>, view: nat, epoch: nat, proposer: ReplicaId,
                     command: Command, commitIndex: nat)
    | ViewChanged(oldView: nat, newView: nat, reason: Reason)
    | SnapshotTaken(snapshotId: nat, lastCommitted: Option<Hash>)

  function QcHash(qc: Option<QuorumCert>): Option<Hash> {
    if qc.Some? then Some(qc.value.blockHash) else None
  }

  function QcView(qc: Option<QuorumCert>): Option<nat> {
    if qc.Some? then Some(qc.value.view) else None
  }

  function InsertedEntry(b: Block): LogEntry {
    BlockInserted(b.hash, b.parent, b.view, b.epoch, b.proposer, QcHash(b.qc), QcView(b.qc), b.command)
  }

  function CommittedEntry(b: Block, index: nat): LogEntry {
    BlockCommitted(b.hash, b.parent, b.view, b.epoch, b.proposer, b.command, index)
  }

  /** A certificate rebuilt from the two fields the log keeps: no signatures, and the block's epoch. */
  function StubQc(hash: Option<Hash>, view: Option<nat>, epoch: nat): Option<QuorumCert> {
    if hash.Some? && view.Some? then Some(QuorumCert(hash.value, view.value, epoch, [])) else None
  }

  // ----- Snapshots -----

  datatype SnapBlock = SnapBlock(
    hash: Hash, parent: Option<Hash>, view: nat, epoch: nat, proposer: ReplicaId,
    qcHash: Option<Hash>, qcView: Option<nat>, command: Command)

  function SnapOf(b: Block): SnapBlock {
    SnapBlock(b.hash, b.parent, b.view, b.epoch, b.proposer, QcHash(b.qc), QcView(b.qc), b.command)
  }

  function BlockOf(s: SnapBlock): Block {
    Block(s.hash, s.parent, s.view, s.epoch, s.proposer, StubQc(s.qcHash, s.qcView, s.epoch), s.command)
  }

  /** What survives of a block on disk: its certificate is reduced to a pointer in the block's own epoch. */
  function Stub(b: Block): Block {
    b.(qc := StubQc(QcHash(b.qc), QcView(b.qc), b.epoch))
  }

  /** A snapshot keeps a block unchanged exactly when its certificate carries no signatures and its epoch. */
  lemma BlockRoundTrip(b: Block)
    ensures BlockOf(SnapOf(b)) == Stub(b)
    ensures BlockOf(SnapOf(b)) == b <==>
            (b.qc.Some? ==> b.qc.value.signatures == [] && b.qc.value.epoch == b.epoch)
    ensures SnapOf(BlockOf(SnapOf(b))) == SnapOf(b)
  {
  }

  function SnapsOf(bs: seq<Block>): (r: seq<SnapBlock>)
    ensures |r| == |bs|
    ensures forall i :: 0 <= i < |bs| ==> r[i] == SnapOf(bs[i])
  {
    seq(|bs|, i requires 0 <= i < |bs| => SnapOf(bs[i]))
  }

  function BlocksOf(ss: seq<SnapBlock>): (r: seq<Block>)
    ensures |r| == |ss|
    ensures forall i :: 0 <= i < |ss| ==> r[i] == BlockOf(ss[i])
  {
    seq(|ss|, i requires 0 <= i < |ss| => BlockOf(ss[i]))
  }

  /** The tree a list of saved blocks gives back; a later entry replaces an earlier one. */
  function TreeOf(ss: seq<SnapBlock>): Tree {
    if ss == [] then map[]
    else
      var last := ss[|ss| - 1];
      TreeOf(ss[..|ss| - 1])[last.hash := BlockOf(last)]
  }

  datatype Snapshot = Snapshot(
    snapshotId: nat, replicaId: ReplicaId, currentView: nat, configEpoch: nat,
    activeValidators: seq<ReplicaId>, committedLog: seq<SnapBlock>, committedUpTo: Option<Hash>,
    highQc: Option<QuorumCert>, blockTree: seq<SnapBlock>, nextHash: Hash)

  function PointerOf(qc: Option<QuorumCert>): Option<QuorumCert> {
    if qc.Some? then Some(Pointer(qc.value)) else None
  }

  /** The blocks of a tree in ascending hash order. */
  function Values(t: Tree): seq<Block> {
    BlocksAt(t, Ascending(t.Keys))
  }

  // ----- The data directory -----

  /** The files of one replica: snapshots by sequence number, the log if its file exists, and whether the temporary
      file of an unfinished truncation is still there. */
  datatype Store = Store(snapshots: map<nat, Snapshot>, log: Option<seq<LogEntry>>, leftover: bool) {

    function Entries(): seq<LogEntry> {
      if log.Some? then log.value else []
    }

    function Append(e: LogEntry): Store {
      this.(log := Some(Entries() + [e]))
    }

    /** The temporary file with an empty log takes the place of the log. */
    function Truncate(): Store {
      this.(log := Some([]), leftover := false)
    }

    function Save(snap: Snapshot): Store {
      this.(snapshots := snapshots[snap.snapshotId := snap])
    }

    /** The snapshot with the highest sequence number. */
    function Latest(): Option<Snapshot> {
      if snapshots == map[] then None
      else
        var ids := Ascending(snapshots.Keys);
        assert |ids| == |snapshots.Keys| && snapshots.Keys != {};
        Some(snapshots[ids[|ids| - 1]])
    }

    /** Deletes all but the keep highest-numbered snapshots. */
    function Cleanup(keep: nat): Store {
      var ids := Ascending(snapshots.Keys);
      if |ids| > keep then
        var surplus := ids[..|ids| - keep];
        this.(snapshots := snapshots - ToSet(surplus))
      else this
    }
  }

  /** Every snapshot number on disk is below id, and names its own snapshot. */
  predicate NumbersBelow(store: Store, id: nat) {
    forall k :: k in store.snapshots ==> k < id && store.snapshots[k].snapshotId == k
  }

  lemma LatestIs(store: Store, id: nat)
    requires id in store.snapshots && forall k :: k in store.snapshots ==> k <= id
    ensures store.Latest() == Some(store.snapshots[id])
  {
    AscendingSorted(store.snapshots.Keys);
    var ids := Ascending(store.snapshots.Keys);
    var i :| 0 <= i < |ids| && ids[i] == id;
    assert ids[|ids| - 1] in store.snapshots;
  }

  lemma PrefixSize(ids: seq<nat>)
    requires StrictlyAscending(ids)
    ensures |ToSet(ids)| == |ids|
  {
    AscendingIs(ToSet(ids), ids);
    assert |ToSet(ids)| == |Ascending(ToSet(ids))|;
  }

  lemma PrefixBelow(low: seq<nat>, high: seq<nat>, k: nat, d: nat)
    requires StrictlyAscending(low + high) && k in high && d in low
    ensures d < k
  {
    var i :| 0 <= i < |high| && high[i] == k;
    var j :| 0 <= j < |low| && low[j] == d;
    assert (low + high)[j] == d && (low + high)[|low| + i] == k;
  }

  lemma PrefixSet(ids: seq<nat>, m: nat)
    requires StrictlyAscending(ids) && m <= |ids|
    ensures |ToSet(ids[..m])| == m
    ensures forall k, d :: k in ids && k !in ids[..m] && d in ids[..m] ==> d < k
  {
    PrefixSize(ids[..m]);
    assert ids == ids[..m] + ids[m..];
    hide StrictlyAscending;
    forall k, d | k in ids && k !in ids[..m] && d in ids[..m] ensures d < k {
      PrefixBelow(ids[..m], ids[m..], k, d);
    }
  }

  /** The snapshots with the lowest numbers that have to go. */
  lemma LowestNumbers(all: set<nat>, m: nat) returns (low: set<nat>)
    requires m <= |all|
    ensures low == ToSet(Ascending(all)[..m]) && low <= all && |low| == m
    ensures forall k, d :: k in all - low && d in low ==> d < k
  {
    AscendingSorted(all);
    PrefixSet(Ascending(all), m);
    low := ToSet(Ascending(all)[..m]);
  }

  lemma WithoutSize(snapshots: map<nat, Snapshot>, low: set<nat>)
    requires low <= snapshots.Keys
    ensures |snapshots - low| == |snapshots| - |low|
  {
    assert (snapshots - low).Keys == snapshots.Keys - low;
    assert |snapshots - low| == |(snapshots - low).Keys| && |snapshots| == |snapshots.Keys|;
  }

  /** Cleaning up leaves as many snapshots as wanted, if there are that many, and drops only lower numbers than it
      keeps. */
  lemma CleanupExact(store: Store, keep: nat)
    ensures var t := store.Cleanup(keep);
            && |t.snapshots| == (if |store.snapshots| > keep then keep else |store.snapshots|)
            && t.log == store.log && t.snapshots.Keys <= store.snapshots.Keys
            && (forall k :: k in t.snapshots ==> t.snapshots[k] == store.snapshots[k])
            && forall k, d :: k in t.snapshots && d in store.snapshots && d !in t.snapshots ==> d < k
  {
    hide ToSet;
    assert |store.snapshots| == |store.snapshots.Keys|;
    if |store.snapshots| > keep {
      var low := LowestNumbers(store.snapshots.Keys, |store.snapshots| - keep);
      WithoutSize(store.snapshots, low);
    }
  }

  /** Cleaning up keeps the highest-numbered snapshot, as long as any is to be kept. */
  lemma CleanupKeepsLatest(store: Store, id: nat, keep: nat)
    requires keep > 0
    requires id in store.snapshots && forall k :: k in store.snapshots ==> k <= id
    ensures store.Cleanup(keep).Latest() == Some(store.snapshots[id])
    ensures store.Cleanup(keep).snapshots.Keys <= store.snapshots.Keys
    ensures forall k :: k in store.Cleanup(keep).snapshots
                        ==> store.Cleanup(keep).snapshots[k] == store.snapshots[k]
  {
    AscendingSorted(store.snapshots.Keys);
    var ids := Ascending(store.snapshots.Keys);
    if |ids| > keep {
      assert ids[|ids| - 1] in store.snapshots;
      assert forall i :: 0 <= i < |ids| - keep ==> ids[i] < ids[|ids| - 1];
    }
    LatestIs(store.Cleanup(keep), id);
  }
}
