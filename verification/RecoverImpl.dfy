/** Recovery as the program performs it: load the latest snapshot, replay the log entry by entry, build a
    replica. */
module RecoverImpl {
  import opened Types
  import opened Ordered
  import opened Crypto
  import opened CommitRule
  import opened Storage
  import opened ReplicaModel
  import opened Recovery
  import opened Durability
  import opened ReplicaImpl

  /** What replay updates in place. */
  class Rebuild {
    var tree: Tree
    var log: seq<Block>
    var upTo: Option<Hash>
    var highQc: Option<QuorumCert>
    var view: nat
    var nextHash: Hash
    var epoch: nat

    function Value(): Recovered
      reads this
    {
      Recovered(tree, log, upTo, highQc, view, nextHash, epoch)
    }

    constructor (snap: Option<Snapshot>)
      ensures forall store: Store :: store.Latest() == snap ==> Value() == Base(store)
    {
      match snap {
        case None =>
          tree, log, upTo, highQc, view, nextHash, epoch := map[], [], None, None, 0, 1, 0;
        case Some(s) =>
          tree, log, upTo := TreeOf(s.blockTree), BlocksOf(s.committedLog), s.committedUpTo;
          highQc, view, nextHash, epoch := s.highQc, s.currentView, s.nextHash, s.configEpoch;
      }
    }

    method RaiseEpoch(e: nat)
      modifies this`epoch
      ensures epoch == Max(old(epoch), e)
    {
      if e > epoch {
        epoch := e;
      }
    }

    /** Replays one entry; on an error nothing changes. */
    method ReplayOne(e: LogEntry) returns (error: Option<RecoveryError>)
      modifies this
      ensures match ReplayEntry(old(Value()), e)
              case Ok(r) => error == None && Value() == r
              case Err(x) => error == Some(x) && Value() == old(Value())
    {
      error := None;
      match e {
        case BlockInserted(hash, parent, blockView, blockEpoch, proposer, qcHash, qcView, _) =>
          var qc := StubQc(qcHash, qcView, blockEpoch);
          tree := tree[hash := Block(hash, parent, blockView, blockEpoch, proposer, qc, NoOp)];
          if hash >= nextHash {
            nextHash := hash + 1;
          }
        case QCFormed(hash, qcView, qcEpoch, _) =>
          if highQc.None? || qcView > highQc.value.view {
            highQc := Some(QuorumCert(hash, qcView, qcEpoch, []));
          }
          RaiseEpoch(qcEpoch);
        case HighQCUpdated(hash, qcView, qcEpoch) =>
          highQc := Some(QuorumCert(hash, qcView, qcEpoch, []));
          RaiseEpoch(qcEpoch);
        case BlockCommitted(hash, parent, blockView, blockEpoch, proposer, _, commitIndex) =>
          if commitIndex != |log| {
            return Some(OutOfOrderCommit(|log|, commitIndex));
          }
          log := log + [Block(hash, parent, blockView, blockEpoch, proposer, None, NoOp)];
          upTo := Some(hash);
          RaiseEpoch(blockEpoch);
        case ViewChanged(_, newView, _) => view := newView;
        case VoteReceived(_, _, _) =>
        case SnapshotTaken(_, _) =>
      }
    }
  }

  /** The snapshot with the highest number among those found. */
  method LoadLatest(snapshots: map<nat, Snapshot>) returns (latest: Option<Snapshot>)
    ensures forall log, leftover :: Store(snapshots, log, leftover).Latest() == latest
  {
    var candidates := SortedKeys(snapshots);
    if |candidates| == 0 {
      return None;
    }
    latest := Some(snapshots[candidates[|candidates| - 1]]);
  }

  lemma {:induction false} ReplayFails(r: Recovered, es: seq<LogEntry>, i: nat)
    requires i <= |es| && Replay(r, es[..i]).Err?
    ensures Replay(r, es) == Err(Replay(r, es[..i]).error)
    decreases |es|
  {
    if i == |es| {
      assert es[..i] == es;
    } else {
      var init := es[..|es| - 1];
      assert init[..i] == es[..i];
      ReplayFails(r, init, i);
    }
  }

  /** Replays entries in order and stops at the first that does not fit. */
  method ReplayAll(rebuild: Rebuild, entries: seq<LogEntry>) returns (error: Option<RecoveryError>)
    modifies rebuild
    ensures match Replay(old(rebuild.Value()), entries)
            case Ok(r) => error == None && rebuild.Value() == r
            case Err(x) => error == Some(x)
  {
    ghost var base := rebuild.Value();
    for i := 0 to |entries|
      invariant Replay(base, entries[..i]) == Ok(rebuild.Value())
    {
      assert entries[..i + 1][..i] == entries[..i];
      error := rebuild.ReplayOne(entries[i]);
      if error.Some? {
        ReplayFails(base, entries, i + 1);
        return;
      }
    }
    assert entries[..|entries|] == entries;
    error := None;
  }

  method RecoverReplica(config: Config, keys: KeyStore, store: Store) returns (r: Result<Replica, RecoveryError>)
    ensures match Recover(config, keys, store)
            case Err(e) => r == Err(e)
            case Ok(s) => r.Ok? && fresh(r.value) && r.value.State() == s && r.value.Valid()
  {
    var snap := LoadLatest(store.snapshots);
    assert store.Latest() == snap by { assert store == Store(store.snapshots, store.log, store.leftover); }
    var rebuild := new Rebuild(snap);
    var error := ReplayAll(rebuild, store.Entries());
    if error.Some? {
      return Err(error.value);
    }
    ReplayedKeyed(store);
    if rebuild.tree == map[] {
      rebuild.tree := map[0 := GENESIS];
    }
    var state := ReplicaState(
      config, rebuild.view, rebuild.tree, rebuild.highQc, map[], rebuild.nextHash, rebuild.log, rebuild.upTo,
      if snap.Some? then ToSet(snap.value.activeValidators) else Ids(config.n), rebuild.epoch, keys, false,
      store.(log := Some(store.Entries())), if snap.Some? then snap.value.snapshotId + 1 else 0, [], false, 0, 0);
    var replica := new Replica(state);
    r := Ok(replica);
  }
}
