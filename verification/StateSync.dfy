/** State sync of a recovered replica: what it takes over from a live one, and catching up with later views. */
module StateSync {
  import opened Types
  import opened Ordered
  import opened Storage
  import opened ReplicaModel
  import opened Recovery

  predicate HashPrefix(a: seq<Block>, b: seq<Block>) {
    |a| <= |b| && forall i :: 0 <= i < |a| ==> a[i].hash == b[i].hash
  }

  /** State sync, block by block: everything the donor has that r lacks. */
  function AdoptedBlocks(r: ReplicaState, donor: ReplicaState): ReplicaState {
    r.(blockTree := donor.blockTree + r.blockTree)
  }

  /** The donor's log replaces a shorter one that it extends. */
  function AdoptedLog(r: ReplicaState, donor: ReplicaState): ReplicaState {
    if |donor.committedLog| > |r.committedLog| && HashPrefix(r.committedLog, donor.committedLog)
    then r.(committedLog := donor.committedLog, committedUpTo := donor.committedUpTo) else r
  }

  function AdoptedQc(r: ReplicaState, donor: ReplicaState): ReplicaState {
    if donor.highQc.Some? && r.Newer(donor.highQc.value) then r.(highQc := donor.highQc) else r
  }

  /** The hash counter moves beyond every known block. */
  function Ahead(r: ReplicaState): ReplicaState {
    var ids := Ascending(r.blockTree.Keys);
    r.(nextHash := if ids != [] && ids[|ids| - 1] >= r.nextHash then ids[|ids| - 1] + 1 else r.nextHash)
  }

  /** State sync from a live replica: its missing blocks, its log if that extends ours, its newer certificate. */
  function Import(r: ReplicaState, donor: ReplicaState): ReplicaState {
    Ahead(AdoptedQc(AdoptedLog(AdoptedBlocks(r, donor), donor), donor))
  }

  function AdvanceTo(r: ReplicaState, target: nat): (q: ReplicaState)
    ensures q.config == r.config && q.currentView == Max(r.currentView, target)
    decreases target - r.currentView
  {
    if r.currentView < target then AdvanceTo(r.AdvanceView(Timeout), target) else r
  }

  /** What a recovered replica makes of its donor, if it has one, and of the view it has to reach. */
  function SyncWith(r: ReplicaState, donor: Option<ReplicaState>, target: nat): ReplicaState {
    AdvanceTo(if donor.Some? then Import(r, donor.value) else r, target)
  }

  /** What state sync leaves alone. */
  ghost predicate SyncKeeps(r: ReplicaState, q: ReplicaState) {
    && q.walAttached == r.walAttached && q.store == r.store && q.snapshotCounter == r.snapshotCounter
    && q.config == r.config && q.activeValidators == r.activeValidators
    && q.clientQueue == r.clientQueue && q.currentView == r.currentView && q.votePool == r.votePool
  }

  lemma AdoptedLogKeeps(r: ReplicaState, donor: ReplicaState)
    ensures var q := AdoptedLog(r, donor);
            SyncKeeps(r, q) && q.blockTree == r.blockTree && HashPrefix(r.committedLog, q.committedLog)
  {
  }

  lemma AdoptedQcKeeps(r: ReplicaState, donor: ReplicaState)
    ensures var q := Ahead(AdoptedQc(r, donor));
            SyncKeeps(r, q) && q.blockTree == r.blockTree && q.committedLog == r.committedLog
  {
    hide ReplicaState.Newer, Ascending;
  }

  lemma ImportParts(r: ReplicaState, donor: ReplicaState)
    ensures var q := Import(r, donor);
            && SyncKeeps(r, q) && q.blockTree == donor.blockTree + r.blockTree
            && HashPrefix(r.committedLog, q.committedLog)
  {
    hide AdoptedLog, AdoptedQc, Ahead, HashPrefix;
    var m := AdoptedBlocks(r, donor);
    AdoptedLogKeeps(m, donor);
    AdoptedQcKeeps(AdoptedLog(m, donor), donor);
  }
}
