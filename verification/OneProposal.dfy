/** With persistence on and a fixed membership, no view is ever proposed in twice, across every mix of rounds,
    unresponsiveness, crashes and recoveries; recovery itself always succeeds, and a rejoined replica is
    durable again. */
module OneProposal {
  import opened Types
  import opened Ordered
  import opened Crypto
  import opened CommitRule
  import opened Storage
  import opened ReplicaModel
  import opened Recovery
  import opened Durability
  import opened StateSync
  import opened Runs
  import opened SimModel
  import opened RoundOps
  import opened Agreement

  // ----- One replica: kept by its disk, and with a fixed validator set in memory and on disk -----

  predicate StaticTree(t: Tree) {
    forall h :: h in t ==> Static(t[h].command)
  }

  ghost predicate StaticSnapshot(snap: Snapshot, n: nat) {
    && snap.activeValidators == Range(0, n)
    && StaticTree(TreeOf(snap.blockTree))
  }

  ghost predicate StaticDisk(store: Store, n: nat) {
    forall k :: k in store.snapshots ==> StaticSnapshot(store.snapshots[k], n)
  }

  ghost predicate StaticNode(r: ReplicaState, i: nat, n: nat) {
    && r.config.id == i && r.config.n == n
    && r.activeValidators == Ids(n)
    && StaticTree(r.blockTree) && StaticQueue(r.clientQueue)
    && StaticDisk(r.store, n)
  }

  /** A replica that is up: its disk gives back its memory, or refuses recovery for good. */
  ghost predicate NodeOk(r: ReplicaState, i: nat, n: nat) {
    Kept(r) && StaticNode(r, i, n)
  }

  /** A directory from which recovery succeeds, or one that refuses it for good. */
  ghost predicate DiskKept(store: Store) {
    DiskOk(store) || (Misfit(store) && store.leftover)
  }

  ghost predicate CrashedOk(r: ReplicaState, i: nat, n: nat) {
    DiskKept(r.store) && StaticNode(r, i, n)
  }

  /** A recovery from this directory is refused or starts beyond view v. */
  ghost predicate DiskPast(store: Store, v: nat) {
    Replayed(store).Ok? ==> Replayed(store).value.view > v
  }

  /** Replica i is beyond view v, or would be after a recovery. */
  ghost predicate Past(s: SimState, i: nat, v: nat)
    requires i < s.N()
  {
    if i in s.crashed then DiskPast(s.replicas[i].store, v) else s.replicas[i].currentView > v
  }

  /** In memory and on disk a replica that is up is equally far. */
  lemma NodeDisk(r: ReplicaState, i: nat, n: nat)
    requires NodeOk(r, i, n)
    ensures CrashedOk(r, i, n)
    ensures forall v: nat :: r.currentView > v ==> DiskPast(r.store, v)
  {
    hide Replayed, Misfit;
    if Durable(r) { DurableDisk(r); } else { MisfitRefused(r.store); }
  }

  lemma OnlyOneLeader(r: ReplicaState, i: nat, n: nat, view: nat)
    requires StaticNode(r, i, n) && i < n
    ensures r.IsLeader(view) <==> view % n == i
  {
    AscendingIds(n);
    assert 0 in Ids(n);
  }

  // ----- Every operation of a round keeps a node in order -----

  /** The operations of rounds, with commands that leave the membership alone. */
  predicate StaticOp(op: Op) {
    match op
    case ReceiveBlock(b) => Static(b.command)
    case Enqueue(command) => Static(command)
    case Restart => false
    case Rejoin(_, _) => false
    case _ => true
  }

  lemma StaticInsert(r: ReplicaState, i: nat, n: nat, b: Block)
    requires StaticNode(r, i, n) && Static(b.command)
    ensures StaticNode(r.InsertProposal(b), i, n) && r.InsertProposal(b).currentView == r.currentView
  {
    hide ReplicaState.ValidProposal;
    assert r.Logged(InsertedEntry(b)).store.snapshots == r.store.snapshots;
  }

  lemma StaticVote(r: ReplicaState, i: nat, n: nat, vote: Vote)
    requires StaticNode(r, i, n)
    ensures StaticNode(r.HandleVote(vote).0, i, n) && r.HandleVote(vote).0.currentView == r.currentView
  {
    VoteSnapshots(r, vote);
    hide ReplicaState.Accepts;
  }

  lemma StaticPropose(r: ReplicaState, i: nat, n: nat, view: nat, hash: Hash, now: nat)
    requires StaticNode(r, i, n)
    ensures var p := r.ProposeWithHash(view, hash, now).0; StaticNode(p, i, n) && p.currentView == r.currentView
  {
    hide ReplicaState.IsLeader, LatestHash;
  }

  lemma StaticNext(r: ReplicaState, i: nat, n: nat, view: nat, hash: Hash, now: nat)
    requires StaticNode(r, i, n)
    ensures var p := r.ProposeNextWithHash(view, hash, now).0; StaticNode(p, i, n) && p.currentView == r.currentView
  {
    hide ReplicaState.IsLeader, LatestHash, ReplicaState.ShouldProposeDummy, ReplicaState.ProposeWithHash;
    StaticPropose(r, i, n, view, hash, now);
  }

  lemma StaticCommits(r: ReplicaState, i: nat, n: nat)
    requires StaticNode(r, i, n)
    ensures StaticNode(r.CommitAll(), i, n) && r.CommitAll().currentView == r.currentView
  {
    var bs := Commits(r.blockTree, r.committedLog);
    CommitsStatic(r.blockTree, r.committedLog);
    CommitEachSnapshots(r, bs);
    CommitEachCore(r, bs);
    var q := r.CommitEach(bs);
    hide ReplicaState.CommitEach, Commits;
    assert CoreOf(q).validators == CoreOf(r).validators && CoreOf(q).view == CoreOf(r).view;
    assert CoreOf(q).n == CoreOf(r).n && CoreOf(q).tree == CoreOf(r).tree;
  }

  lemma CaptureStatic(r: ReplicaState, i: nat, n: nat)
    requires StaticNode(r, i, n) && Keyed(r.blockTree)
    ensures StaticSnapshot(r.Capture(), n)
  {
    AscendingIds(n);
    TreeRoundTrip(r.blockTree);
  }

  lemma WriteIs(r: ReplicaState, j: nat)
    requires j < |r.SnapshotWrites()|
    ensures var d, saved := r.SnapshotWrites()[j].snapshots, r.store.Save(r.Capture());
            var marked := saved.Append(SnapshotTaken(r.snapshotCounter, r.committedUpTo)).Truncate();
            d == r.store.snapshots || d == saved.snapshots || d == saved.Cleanup(3).snapshots
            || (d == marked.Cleanup(3).snapshots && marked.snapshots == saved.snapshots)
  {
    hide ReplicaState.Capture, Store.Cleanup;
  }

  /** While a snapshot is taken, every snapshot on disk is the new one or was there before. */
  lemma WritesSnapshots(r: ReplicaState, j: nat)
    requires j < |r.SnapshotWrites()|
    ensures var d := r.SnapshotWrites()[j];
            forall k :: k in d.snapshots ==>
              d.snapshots[k] == r.Capture() || (k in r.store.snapshots && d.snapshots[k] == r.store.snapshots[k])
  {
    hide ReplicaState.Capture, ReplicaState.SnapshotWrites, Store.Cleanup;
    var saved := r.store.Save(r.Capture());
    WriteIs(r, j);
    CleanupExact(saved, 3);
    CleanupExact(saved.Append(SnapshotTaken(r.snapshotCounter, r.committedUpTo)).Truncate(), 3);
  }

  lemma StaticSnap(r: ReplicaState, i: nat, n: nat)
    requires StaticNode(r, i, n) && Keyed(r.blockTree)
    ensures StaticNode(r.TakeSnapshot(), i, n) && r.TakeSnapshot().currentView == r.currentView
  {
    hide ReplicaState.SnapshotWrites, ReplicaState.Capture, StaticSnapshot, StaticTree, Keyed;
    var last := r.SnapshotWrites()[|r.SnapshotWrites()| - 1];
    CaptureStatic(r, i, n);
    WritesSnapshots(r, |r.SnapshotWrites()| - 1);
    assert StaticDisk(last, n);
  }

  lemma StaticKeeps(r: ReplicaState, i: nat, n: nat, op: Op)
    requires StaticNode(r, i, n) && Keyed(r.blockTree) && StaticOp(op)
    ensures StaticNode(Apply(r, op), i, n)
    ensures Apply(r, op).currentView == r.currentView + if op.Advance? then 1 else 0
  {
    hide ReplicaState.InsertProposal, ReplicaState.HandleVote, ReplicaState.ProposeWithHash,
      ReplicaState.ProposeNextWithHash, ReplicaState.CommitAll, ReplicaState.TakeSnapshot, Keyed, StaticTree;
    match op
    case ReceiveBlock(b) => StaticInsert(r, i, n, b);
    case ReceiveVote(vote) => StaticVote(r, i, n, vote);
    case Propose(view, hash, now) => StaticPropose(r, i, n, view, hash, now);
    case ProposeNext(view, hash, now) => StaticNext(r, i, n, view, hash, now);
    case CommitReady => StaticCommits(r, i, n);
    case Snap => StaticSnap(r, i, n);
    case _ =>
  }

  lemma KeptKeyed(r: ReplicaState)
    requires Kept(r)
    ensures Keyed(r.blockTree)
  {
    hide Replayed, Misfit;
  }

  lemma NodeOp(r: ReplicaState, i: nat, n: nat, op: Op)
    requires NodeOk(r, i, n) && StaticOp(op)
    ensures NodeOk(Apply(r, op), i, n) && Apply(r, op).store.leftover == r.store.leftover
    ensures Apply(r, op).currentView == r.currentView + if op.Advance? then 1 else 0
  {
    hide Kept, StaticNode, Apply, SpoilsNow;
    KeptKeyed(r);
    StaticKeeps(r, i, n, op);
    KeptMove(r, Do(op), {});
    LeftoverKept(r, op);
  }

  /** An operation of a round other than moving to the next view. */
  predicate Quiet(op: Op) {
    StaticOp(op) && !op.Advance?
  }

  predicate AllQuiet(ops: seq<Op>) {
    forall k :: 0 <= k < |ops| ==> Quiet(ops[k])
  }

  lemma {:induction false} NodeOps(r: ReplicaState, i: nat, n: nat, ops: seq<Op>)
    requires NodeOk(r, i, n) && AllQuiet(ops)
    ensures var t := ApplyAll(r, ops);
            NodeOk(t, i, n) && t.currentView == r.currentView && t.store.leftover == r.store.leftover
    decreases |ops|
  {
    hide NodeOk, Apply;
    if ops != [] {
      assert Quiet(ops[0]);
      NodeOp(r, i, n, ops[0]);
      NodeOps(Apply(r, ops[0]), i, n, ops[1..]);
    }
  }

  lemma WorkQuiet(s: SimState, kind: RoundKind, now: nat, i: nat)
    requires s.Shaped() && i < s.N()
    requires CurrentLeader(s) !in s.Down() && Proposal(s, kind, now).1.Some?
             ==> Static(Proposal(s, kind, now).1.value.command)
    ensures AllQuiet(RoundWork(s, kind, now, i))
  {
    hide CurrentLeader, Proposal, SimState.Down, VotesFor, Collect, Finish, ReplicaState.CommitAll,
      ReplicaState.ShouldSnapshot, ReplicaState.InsertProposal;
  }

  lemma ProposalShape(r: ReplicaState, kind: RoundKind, hash: Hash, now: nat)
    requires StaticQueue(r.clientQueue)
    ensures var (p, b) := ProposeKind(r, kind, r.currentView, hash, now);
            && (b.None? ==> p == r)
            && (b.Some? ==> && p == r.(clientQueue := p.clientQueue).Proposed(b.value, now)
                            && StaticQueue(p.clientQueue) && Static(b.value.command)
                            && b.value.hash == hash && b.value.view == r.currentView
                            && r.IsLeader(r.currentView) && b.value.proposer == r.config.id)
  {
    hide ReplicaState.IsLeader, Pending;
  }

  lemma NodeProposes(r: ReplicaState, i: nat, n: nat, kind: RoundKind, hash: Hash, now: nat)
    requires NodeOk(r, i, n)
    ensures var b := ProposeKind(r, kind, r.currentView, hash, now).1;
            b.Some? ==> && Static(b.value.command) && b.value.view == r.currentView
                        && r.IsLeader(r.currentView) && b.value.proposer == i
  {
    ProposalShape(r, kind, hash, now);
    hide ProposeKind, Kept, ReplicaState.IsLeader;
  }

  // ----- Recovery and rejoin of one replica -----

  lemma {:induction false} ReplayStatic(r: Recovered, es: seq<LogEntry>)
    requires StaticTree(r.tree)
    ensures Replay(r, es).Ok? ==> StaticTree(Replay(r, es).value.tree)
    decreases |es|
  {
    if es != [] { ReplayStatic(r, es[..|es| - 1]); }
  }

  lemma LatestOnDisk(store: Store)
    ensures store.Latest().Some? ==> exists k :: k in store.snapshots && store.Latest().value == store.snapshots[k]
  {
  }

  lemma RebuiltStatic(config: Config, keys: KeyStore, store: Store, i: nat)
    requires config.id == i && StaticDisk(store, config.n) && Replayed(store).Ok?
    ensures StaticTree(Replayed(store).value.tree)
    ensures Rebuilt(config, keys, store, Replayed(store).value).activeValidators == Ids(config.n)
  {
    LatestOnDisk(store);
    ReplayStatic(Base(store), store.Entries());
    hide Replay;
    if store.Latest().Some? {
      assert StaticSnapshot(store.Latest().value, config.n);
      AscendingIds(config.n);
      AscendingElements(Ids(config.n));
    }
  }

  lemma DurableKept(r: ReplicaState)
    requires Durable(r)
    ensures Kept(r)
  {
  }

  /** Recovery of a crashed replica succeeds unless log and snapshot do not fit. */
  lemma CrashedRecovers(store: Store, config: Config, keys: KeyStore)
    requires DiskKept(store)
    ensures Recover(config, keys, store).Ok? <==> DiskOk(store)
    ensures Recover(config, keys, store).Err? <==> Misfit(store)
  {
    RecoverIff(config, keys, store);
    if Misfit(store) { MisfitRefused(store); }
    hide Replayed, Misfit;
  }

  /** Once its log is attached a recovered replica is in order again. */
  lemma NodeRecovers(r: ReplicaState, i: nat, n: nat, keys: KeyStore)
    requires DiskOk(r.store) && StaticNode(r, i, n)
    ensures Recover(r.config, keys, r.store).Ok?
    ensures var t := Attached(Recover(r.config, keys, r.store).value);
            && NodeOk(t, i, n) && t.currentView == Replayed(r.store).value.view
            && t.committedLog == Replayed(r.store).value.log
  {
    DiskRestart(r.config, keys, r.store);
    RebuiltStatic(r.config, keys, r.store, i);
    hide Replayed, Durable, Attached, Recover, Rebuilt, StaticSnapshot;
    DurableKept(Attached(Recover(r.config, keys, r.store).value));
  }

  lemma ImportKeeps(r: ReplicaState, donor: ReplicaState, i: nat, j: nat, n: nat)
    requires StaticNode(r, i, n) && Keyed(r.blockTree) && NodeOk(donor, j, n)
    ensures StaticNode(Import(r, donor), i, n) && Keyed(Import(r, donor).blockTree)
    ensures Import(r, donor).currentView == r.currentView
    ensures donor.blockTree.Keys <= Import(r, donor).blockTree.Keys
  {
    hide Import, StaticQueue, StaticDisk, Kept;
    KeptKeyed(donor);
    ImportParts(r, donor);
    assert (donor.blockTree + r.blockTree).Keys == donor.blockTree.Keys + r.blockTree.Keys;
  }

  lemma {:induction false} AdvanceToKeeps(r: ReplicaState, target: nat, i: nat, n: nat)
    requires StaticNode(r, i, n)
    ensures StaticNode(AdvanceTo(r, target), i, n) && AdvanceTo(r, target).blockTree == r.blockTree
    decreases target - r.currentView
  {
    if r.currentView < target {
      assert StaticNode(r.AdvanceView(Timeout), i, n);
      AdvanceToKeeps(r.AdvanceView(Timeout), target, i, n);
    }
  }

  // ----- The whole system -----

  ghost predicate Status(s: SimState, i: nat)
    requires i < s.N()
  {
    if i in s.crashed then CrashedOk(s.replicas[i], i, s.N()) else NodeOk(s.replicas[i], i, s.N())
  }

  ghost predicate Sound(s: SimState) {
    s.persistence && s.Shaped() && forall i: nat :: i < s.N() ==> Status(s, i)
  }

  /** No replica ever falls back to an earlier view. */
  ghost predicate ViewsGrow(s: SimState, t: SimState) {
    t.N() == s.N() && forall i: nat, v: nat :: i < s.N() && Past(s, i, v) ==> Past(t, i, v)
  }

  /** The temporary files of unfinished truncations are where they were. */
  ghost predicate SameFiles(s: SimState, t: SimState) {
    t.N() == s.N() && forall i: nat :: i < s.N() ==> t.replicas[i].store.leftover == s.replicas[i].store.leftover
  }

  /** There are none of these files. */
  ghost predicate Clean(s: SimState) {
    forall i: nat :: i < s.N() ==> !s.replicas[i].store.leftover
  }

  /** The donor's blocks are all in the tree, if there is a donor. */
  ghost predicate HoldsDonor(s: SimState, id: nat, q: ReplicaState) {
    FirstDonor(s, id, 0).Some? ==> s.replicas[FirstDonor(s, id, 0).value].blockTree.Keys <= q.blockTree.Keys
  }

  ghost predicate CaughtUp(s: SimState, id: nat, q: ReplicaState) {
    forall j :: 0 <= j < s.N() && j != id && j !in s.crashed ==> q.currentView >= s.replicas[j].currentView
  }

  /** What a recovered replica is before its snapshot. */
  lemma SyncedKeeps(s: SimState, id: nat, r: ReplicaState)
    requires Sound(s) && id < s.N() && StaticNode(r, id, s.N()) && Keyed(r.blockTree)
    ensures var q := Synced(s, id, r);
            && StaticNode(q, id, s.N()) && Keyed(q.blockTree)
            && q.currentView >= r.currentView
            && CaughtUp(s, id, q) && HoldsDonor(s, id, q)
  {
    hide Import, StaticNode, FirstDonor, MaxView, AdvanceTo, NodeOk, CrashedOk, SimState.Shaped;
    var d := FirstDonor(s, id, 0);
    var imported := if d.Some? then Import(r, s.replicas[d.value]) else r;
    var target := if d.Some? then MaxView(s.replicas, s.crashed + {id}) else imported.currentView;
    var q := AdvanceTo(imported, target);
    assert q == Synced(s, id, r);
    hide Synced;
    if d.Some? {
      assert Status(s, d.value);
      ImportKeeps(r, s.replicas[d.value], id, d.value, s.N());
    }
    AdvanceToKeeps(imported, target, id, s.N());
    assert CaughtUp(s, id, q) by { NoDonor(s, id, 0); }
  }

  lemma {:induction false} NoDonor(s: SimState, id: nat, k: nat)
    ensures FirstDonor(s, id, k).None? ==> forall j :: k <= j < s.N() ==> j == id || j in s.crashed
    decreases s.N() - k
  {
    if k < s.N() { NoDonor(s, id, k + 1); }
  }

  /** The rejoining replica, its log about to be attached. */
  lemma OnDiskDurable(s: SimState, id: nat)
    requires Sound(s) && id < s.N() && id in s.crashed && DiskOk(s.replicas[id].store)
    ensures var x := OnDisk(s, id);
            && x.store == s.replicas[id].store && Durable(x)
            && Recover(s.replicas[id].config, s.keystores[id], s.replicas[id].store).Ok?
            && Recover(x.config, x.keystore, x.store).Ok?
            && Hashes(x.committedLog) == Hashes(Replayed(s.replicas[id].store).value.log)
            && x.currentView == Replayed(s.replicas[id].store).value.view
  {
    var r := s.replicas[id];
    RecoverIff(r.config, s.keystores[id], r.store);
    RebuiltDurable(r.config, s.keystores[id], r.store);
    RebuiltOwners(r.config, s.keystores[id], r.store);
    RecoverIff(OnDisk(s, id).config, OnDisk(s, id).keystore, r.store);
    hide Durable, DurableTree, Replayed, Sound;
  }

  lemma RejoinKeyed(s: SimState, id: nat)
    requires Sound(s) && id < s.N()
    ensures RejoinOp(s, id).Rejoin? && KeyedDonor(RejoinOp(s, id))
  {
    hide Kept, StaticNode, MaxView, OnDisk, CrashedOk;
    var d := FirstDonor(s, id, 0);
    if d.Some? {
      assert Status(s, d.value);
      KeptKeyed(s.replicas[d.value]);
    }
  }

  /** A rejoin succeeds exactly if log and snapshot on disk fit. The replica's log then extends what its disk held, its
      tree contains its donor's and its view is at least every live one. Its disk gives back exactly what it holds,
      unless its snapshot could not truncate a log with a commit: then the next recovery is refused. */
  lemma RejoinRestoresDisk(s: SimState, id: nat)
    requires Sound(s) && CanRejoin(s, id)
    ensures var r := s.replicas[id];
            var before := Recover(r.config, s.keystores[id], r.store);
            var t := SimModel.Rejoin(s, id);
            var q := t.replicas[id];
            var again := Recover(q.config, q.keystore, q.store);
            && (before.Err? <==> Misfit(r.store)) && (before.Err? ==> t == s)
            && (before.Ok? ==>
                 && id !in t.crashed
                 && NodeOk(q, id, s.N())
                 && Hashes(before.value.committedLog) <= Hashes(q.committedLog)
                 && q.currentView >= before.value.currentView
                 && CaughtUp(s, id, q) && HoldsDonor(s, id, q)
                 && q.store.leftover == r.store.leftover
                 && (again.Err? <==> r.store.leftover && HasCommit(r.store.Entries()))
                 && (again.Ok? ==> again.value.currentView == q.currentView
                                   && KeysOf(again.value.committedLog) == KeysOf(q.committedLog)))
  {
    var r := s.replicas[id];
    assert Status(s, id);
    CrashedRecovers(r.store, r.config, s.keystores[id]);
    hide CrashedOk, DiskKept, NodeOk, Sound, Recover, Misfit, DiskOk, CaughtUp, HoldsDonor, HasCommit;
    if DiskOk(r.store) { RejoinRestores(s, id); }
  }

  lemma RejoinedStatic(s: SimState, id: nat)
    requires Sound(s) && CanRejoin(s, id) && DiskOk(s.replicas[id].store)
    ensures var r := s.replicas[id];
            var q := SimModel.Rejoin(s, id).replicas[id];
            && Recover(r.config, s.keystores[id], r.store).Ok?
            && StaticNode(q, id, s.N()) && CaughtUp(s, id, q) && HoldsDonor(s, id, q)
            && q.currentView >= Recover(r.config, s.keystores[id], r.store).value.currentView
  {
    var r := s.replicas[id];
    assert Status(s, id);
    NodeRecovers(r, id, s.N(), s.keystores[id]);
    RecoverIff(r.config, s.keystores[id], r.store);
    var a := Attached(Recover(r.config, s.keystores[id], r.store).value);
    KeptKeyed(a);
    SyncedKeeps(s, id, a);
    var y := Synced(s, id, a);
    StaticSnap(y, id, s.N());
    SnapshotMemory(y);
    hide Attached, Synced, Recover, Replayed, ReplicaState.TakeSnapshot, NodeOk, Sound, Kept, DiskOk, StaticNode;
    assert y.TakeSnapshot() == SimModel.Rejoin(s, id).replicas[id];
    assert y.TakeSnapshot().blockTree == y.blockTree;
  }

  /** A kept replica is spoiled or comes back as it is. */
  lemma KeptAgain(q: ReplicaState)
    requires Kept(q)
    ensures var again := Recover(q.config, q.keystore, q.store);
            && (again.Err? <==> Spoiled(q))
            && (again.Ok? ==> again.value.currentView == q.currentView
                              && KeysOf(again.value.committedLog) == KeysOf(q.committedLog))
  {
    if Spoiled(q) { SpoiledIsNotDurable(q); } else { RecoverKeys(q, q.config, q.keystore); }
    hide Durable, Spoiled, Recover;
  }

  lemma NodeOkIf(r: ReplicaState, i: nat, n: nat)
    requires Kept(r) && StaticNode(r, i, n)
    ensures NodeOk(r, i, n)
  {
  }

  lemma RejoinSpoils(x: ReplicaState, op: Op)
    requires op.Rejoin? && Durable(x)
    ensures SpoilsNow(x, Do(op)) <==> x.store.leftover && HasCommit(x.store.Entries())
    ensures !Spoiled(x)
  {
    if Spoiled(x) { SpoiledIsNotDurable(x); }
    hide Durable, Spoiled, HasCommit;
  }

  lemma RejoinParts(s: SimState, id: nat)
    requires s.Shaped() && CanRejoin(s, id) && Recover(s.replicas[id].config, s.keystores[id], s.replicas[id].store).Ok?
    ensures var t := SimModel.Rejoin(s, id);
            && t.crashed == s.crashed - {id} && t.persistence == s.persistence
            && forall i: nat :: i < s.N() && i != id ==> t.replicas[i] == s.replicas[i]
  {
    hide Recover, Synced, Attached, ReplicaState.TakeSnapshot;
    RevivedKeepsId(s, id);
  }

  lemma RejoinRestores(s: SimState, id: nat)
    requires Sound(s) && CanRejoin(s, id) && DiskOk(s.replicas[id].store)
    ensures var r := s.replicas[id];
            var before := Recover(r.config, s.keystores[id], r.store);
            var t := SimModel.Rejoin(s, id);
            var q := t.replicas[id];
            var again := Recover(q.config, q.keystore, q.store);
            && before.Ok? && id !in t.crashed && NodeOk(q, id, s.N())
            && Hashes(before.value.committedLog) <= Hashes(q.committedLog)
            && q.currentView >= before.value.currentView
            && CaughtUp(s, id, q) && HoldsDonor(s, id, q)
            && q.store.leftover == r.store.leftover
            && (again.Err? <==> r.store.leftover && HasCommit(r.store.Entries()))
            && (again.Ok? ==> again.value.currentView == q.currentView
                              && KeysOf(again.value.committedLog) == KeysOf(q.committedLog))
  {
    hide Recover, DiskOk, NodeOk, Durable, Spoiled, HasCommit, Synced, CaughtUp, HoldsDonor, OnDisk, RejoinOp, Apply,
      SimModel.Rejoin, StaticNode, Kept;
    var x, op := OnDisk(s, id), RejoinOp(s, id);
    var q := Apply(x, op);
    OnDiskDurable(s, id);
    RejoinKeyed(s, id);
    RejoinRuns(s, id);
    RejoinedStatic(s, id);
    DurableKept(x);
    KeptMove(x, Do(op), {});
    LeftoverKept(x, op);
    SavedLog(x, op);
    KeptAgain(q);
    NodeOkIf(q, id, s.N());
    RejoinParts(s, id);
    RecoverIff(s.replicas[id].config, s.keystores[id], s.replicas[id].store);
    RejoinSpoils(x, op);
  }

  // ----- Every step -----

  lemma BlankOk(r: ReplicaState, i: nat, n: nat, keys: KeyStore)
    requires CrashedOk(r, i, n)
    ensures CrashedOk(Blank(r.config, keys, r.store), i, n)
  {
    hide DiskKept;
  }

  lemma CrashSound(s: SimState, ids: set<nat>)
    requires Sound(s)
    ensures var t := CrashSet(s, ids); Sound(t) && ViewsGrow(s, t) && SameFiles(s, t)
  {
    var t := CrashSet(s, ids);
    hide CrashedOk, NodeOk, DiskPast;
    forall i: nat | i < s.N()
      ensures Status(t, i) && t.replicas[i].store == s.replicas[i].store
      ensures forall v: nat :: Past(s, i, v) ==> Past(t, i, v)
    {
      assert Status(s, i);
      if i !in s.crashed { NodeDisk(s.replicas[i], i, s.N()); }
      if i in ids { BlankOk(s.replicas[i], i, s.N(), s.keystores[i]); }
    }
  }

  /** Replicas that were not touched, and nodes in order whose view did not fall, make a sound step. */
  lemma SoundFrom(s: SimState, t: SimState)
    requires Sound(s) && t.persistence && t.Shaped() && t.N() == s.N() && t.crashed == s.crashed
    requires forall i: nat :: i < s.N() ==>
               t.replicas[i] == s.replicas[i] ||
               (i !in s.crashed && NodeOk(t.replicas[i], i, s.N())
                && t.replicas[i].currentView >= s.replicas[i].currentView
                && t.replicas[i].store.leftover == s.replicas[i].store.leftover)
    ensures Sound(t) && ViewsGrow(s, t) && SameFiles(s, t)
  {
    hide NodeOk, CrashedOk, SimState.Shaped, DiskPast;
    forall i: nat | i < s.N()
      ensures Status(t, i)
      ensures forall v: nat :: Past(s, i, v) ==> Past(t, i, v)
    {
      assert Status(s, i);
    }
  }

  /** A live replica at the end of a round is in order and one view further. */
  lemma RoundNode(s: SimState, kind: RoundKind, now: nat, i: nat)
    requires Sound(s) && s.Live(i)
    requires CurrentLeader(s) !in s.Down() && Proposal(s, kind, now).1.Some?
             ==> Static(Proposal(s, kind, now).1.value.command)
    ensures |RoundBody(s, kind, now).replicas| == s.N()
    ensures var t := RoundBody(s, kind, now).replicas[i];
            && NodeOk(t, i, s.N()) && t.currentView == s.replicas[i].currentView + 1
            && t.store.leftover == s.replicas[i].store.leftover
  {
    hide NodeOk, RoundBody, RoundWork, EndReason, CurrentLeader, Proposal, Apply, ApplyAll, AllQuiet, SimState.Down;
    var r, work, end := s.replicas[i], RoundWork(s, kind, now, i), Advance(EndReason(s, kind, now));
    assert Status(s, i);
    assert i !in s.crashed by { LiveUp(s, i); }
    RoundRuns(s, kind, now, i);
    WorkQuiet(s, kind, now, i);
    NodeOps(r, i, s.N(), work);
    NodeOp(ApplyAll(r, work), i, s.N(), end);
    ApplyLast(r, work, end);
  }

  lemma LiveUp(s: SimState, i: nat)
    requires s.Live(i)
    ensures i < s.N() && i !in s.crashed && i !in s.Down()
  {
  }

  /** The block a step proposes, if any. */
  ghost function ProposedIn(s: SimState, a: Action): seq<Block>
    requires s.Shaped()
  {
    if !a.RunRound? then []
    else
      var t := Started(s);
      if SimModel.Refused(t) || CurrentLeader(t) in t.Down() then []
      else
        RefusedEmpty(t);
        match Proposal(t, a.kind, a.now).1
        case None => []
        case Some(b) => [b]
  }

  /** The proposer of b had not passed b's view before, and has now. */
  ghost predicate PassesView(s: SimState, t: SimState, b: Block) {
    t.N() == s.N() > 0 && !Past(s, b.view % s.N(), b.view) && Past(t, b.view % s.N(), b.view)
  }

  /** What the leader of a sound system proposes. */
  lemma SoundProposal(s: SimState, kind: RoundKind, now: nat)
    requires Sound(s) && s.N() > 0 && CurrentLeader(s) !in s.Down()
    ensures var leader, b := CurrentLeader(s), Proposal(s, kind, now).1;
            && s.Live(leader) && leader !in s.crashed
            && (b.Some? ==> && Static(b.value.command) && b.value.view == s.replicas[leader].currentView
                            && b.value.view % s.N() == leader)
  {
    var leader := CurrentLeader(s);
    var r := s.replicas[leader];
    assert Status(s, leader) && s.Live(leader);
    LiveUp(s, leader);
    hide Sound, ProposeKind, CurrentLeader, SimState.Shaped, NodeOk, ReplicaState.IsLeader;
    NodeProposes(r, leader, s.N(), kind, s.nextGlobalHash, now);
    NodeStatic(r, leader, s.N());
    OnlyOneLeader(r, leader, s.N(), r.currentView);
  }

  lemma NodeStatic(r: ReplicaState, i: nat, n: nat)
    requires NodeOk(r, i, n)
    ensures StaticNode(r, i, n)
  {
  }

  /** What a round leaves alone. */
  lemma RoundLeaves(s: SimState, kind: RoundKind, now: nat)
    requires s.Shaped() && s.N() > 0
    ensures var t := RoundBody(s, kind, now);
            && t.persistence == s.persistence && t.crashed == s.crashed && t.unresponsive == s.unresponsive
            && t.N() == s.N() && t.Shaped()
    ensures forall i: nat :: i < s.N() && !s.Live(i) ==> RoundBody(s, kind, now).replicas[i] == s.replicas[i]
  {
    RoundBodyShaped(s, kind, now);
    forall i: nat | i < s.N() && !s.Live(i) ensures RoundBody(s, kind, now).replicas[i] == s.replicas[i] {
      RoundRuns(s, kind, now, i);
    }
    hide CurrentLeader, Proposal, RoundReplicas, AdvanceUp, Mark, Collect, VotesFor;
  }

  lemma RoundBodySound(s: SimState, kind: RoundKind, now: nat)
    requires Sound(s) && s.N() > 0
    ensures var t := RoundBody(s, kind, now);
            && Sound(t) && ViewsGrow(s, t) && SameFiles(s, t)
            && (CurrentLeader(s) !in s.Down() && Proposal(s, kind, now).1.Some? ==>
                  PassesView(s, t, Proposal(s, kind, now).1.value))
  {
    hide NodeOk, RoundBody, Sound, Proposal, CurrentLeader, ViewsGrow, SameFiles, StaticNode, SimState.Shaped,
      SimState.Down, SimState.Live;
    SoundShaped(s);
    var t := RoundBody(s, kind, now);
    if CurrentLeader(s) !in s.Down() { SoundProposal(s, kind, now); }
    RoundLeaves(s, kind, now);
    forall i: nat | i < s.N()
      ensures t.replicas[i] == s.replicas[i] || s.Live(i)
      ensures s.Live(i) ==> && i !in s.crashed && NodeOk(t.replicas[i], i, s.N())
                            && t.replicas[i].currentView == s.replicas[i].currentView + 1
                            && t.replicas[i].store.leftover == s.replicas[i].store.leftover
    {
      if s.Live(i) {
        LiveUp(s, i);
        RoundNode(s, kind, now, i);
      }
    }
    SoundFrom(s, t);
  }

  lemma GrowTrans(r: SimState, s: SimState, t: SimState)
    requires ViewsGrow(r, s) && ViewsGrow(s, t)
    ensures ViewsGrow(r, t)
  {
    hide Past;
  }

  lemma SameTrans(r: SimState, s: SimState, t: SimState)
    requires SameFiles(r, s) && SameFiles(s, t)
    ensures SameFiles(r, t)
  {
  }

  lemma ClockSound(s: SimState)
    requires Sound(s)
    ensures var t := s.(time := s.time + s.roundTime); Sound(t) && ViewsGrow(s, t) && SameFiles(s, t)
  {
    var t := s.(time := s.time + s.roundTime);
    hide CrashedOk, NodeOk, DiskPast;
    forall i: nat | i < t.N() ensures Status(t, i) { assert Status(s, i); }
    forall i: nat, v: nat | i < s.N() && Past(s, i, v) ensures Past(t, i, v) {}
  }

  lemma StartedSound(s: SimState)
    requires Sound(s)
    ensures Sound(Started(s)) && ViewsGrow(s, Started(s)) && SameFiles(s, Started(s))
  {
    hide Sound, ViewsGrow, SameFiles, CrashSet, TimedOut, SimState.Shaped, PassesView;
    var t := s.(time := s.time + s.roundTime);
    ClockSound(s);
    SoundShaped(t);
    CrashSound(t, TimedOut(t));
    GrowTrans(s, t, CrashSet(t, TimedOut(t)));
    SameTrans(s, t, CrashSet(t, TimedOut(t)));
  }

  lemma RoundSound(s: SimState, kind: RoundKind, now: nat)
    requires Sound(s)
    ensures Sound(Round(s, kind, now)) && ViewsGrow(s, Round(s, kind, now)) && SameFiles(s, Round(s, kind, now))
    ensures forall i :: 0 <= i < |ProposedIn(s, RunRound(kind, now))|
              ==> PassesView(s, Round(s, kind, now), ProposedIn(s, RunRound(kind, now))[i])
  {
    hide Started, RoundBody, CrashSet, TimedOut, Proposal, CurrentLeader, PassesView, ViewsGrow, SameFiles,
      SimState.Down, SimState.Shaped;
    var t := Started(s);
    StartedSound(s);
    if !SimModel.Refused(t) {
      assert t.Shaped() by { SoundShaped(t); }
      RefusedEmpty(t);
      RoundBodySound(t, kind, now);
      RoundBodyShaped(t, kind, now);
      var u := RoundBody(t, kind, now);
      CrashSound(u, TimedOut(u));
      var v := Round(s, kind, now);
      if !kind.Plain? { GrowRefl(u); }
      assert ViewsGrow(u, v) && SameFiles(u, v);
      GrowTrans(s, t, u);
      GrowTrans(s, u, v);
      SameTrans(s, t, u);
      SameTrans(s, u, v);
      if CurrentLeader(t) !in t.Down() && Proposal(t, kind, now).1.Some? {
        var b := Proposal(t, kind, now).1.value;
        PassesLater(s, t, u, v, b);
      }
    }
  }

  /** A replica is up or not, and this far, before and after a step that lost no view. */
  lemma PassesLater(s: SimState, t: SimState, u: SimState, v: SimState, b: Block)
    requires ViewsGrow(s, t) && PassesView(t, u, b) && ViewsGrow(u, v)
    ensures PassesView(s, v, b)
  {
    hide Past;
  }

  lemma SoundShaped(s: SimState)
    requires Sound(s)
    ensures s.Shaped() && s.persistence
  {
  }

  lemma GrowRefl(s: SimState)
    ensures ViewsGrow(s, s) && SameFiles(s, s)
  {
  }

  /** Everything the driver can do, as long as client commands leave the membership alone. */
  predicate FixedMembership(a: Action) {
    a.EnqueueCommand? ==> Static(a.command)
  }

  lemma RejoinSound(s: SimState, id: nat)
    requires Sound(s)
    ensures var t := SimModel.Rejoin(s, id); Sound(t) && ViewsGrow(s, t) && SameFiles(s, t)
  {
    hide NodeOk, CrashedOk, Recover, CaughtUp, HoldsDonor, Synced, Attached, ReplicaState.TakeSnapshot, Misfit,
      HasCommit, DiskPast;
    if CanRejoin(s, id) {
      RejoinRestoresDisk(s, id);
      var r := s.replicas[id];
      if Recover(r.config, s.keystores[id], r.store).Ok? {
        RejoinParts(s, id);
        DiskPastIs(r.config, s.keystores[id], r.store);
        hide SimModel.Rejoin;
        var t := SimModel.Rejoin(s, id);
        forall i: nat | i < s.N()
          ensures Status(t, i) && forall v: nat :: Past(s, i, v) ==> Past(t, i, v)
        {
          assert Status(s, i);
        }
      } else {
        GrowRefl(s);
      }
    } else {
      GrowRefl(s);
    }
  }

  lemma DiskPastIs(config: Config, keys: KeyStore, store: Store)
    ensures var r := Recover(config, keys, store);
            forall v: nat :: DiskPast(store, v) <==> (r.Ok? ==> r.value.currentView > v)
  {
    RecoverIff(config, keys, store);
    hide Recover, Replayed;
  }

  /** Steps that touch neither stores nor views. */
  lemma QuietSound(s: SimState, t: SimState)
    requires Sound(s) && t.persistence && t.Shaped() && t.N() == s.N() && t.crashed == s.crashed
    requires forall i :: 0 <= i < s.N() ==>
               && StaticQueue(t.replicas[i].clientQueue)
               && t.replicas[i] == s.replicas[i].(clientQueue := t.replicas[i].clientQueue,
                                                  dummyEnabled := t.replicas[i].dummyEnabled,
                                                  dummyTimeoutMs := t.replicas[i].dummyTimeoutMs)
    ensures Sound(t) && ViewsGrow(s, t) && SameFiles(s, t)
  {
    forall i: nat | i < s.N()
      ensures Status(t, i) && forall v: nat :: Past(s, i, v) ==> Past(t, i, v)
    {
      assert Status(s, i);
      if i !in s.crashed { KeptQuiet(s.replicas[i], t.replicas[i]); }
      hide Kept, DiskKept, DiskPast;
    }
  }

  lemma KeptQuiet(r: ReplicaState, t: ReplicaState)
    requires Kept(r) && t == r.(clientQueue := t.clientQueue, dummyEnabled := t.dummyEnabled,
                                dummyTimeoutMs := t.dummyTimeoutMs)
    ensures Kept(t)
  {
    hide Replayed, Misfit;
  }

  lemma QueueOk(s: SimState)
    requires Sound(s)
    ensures forall i :: 0 <= i < s.N() ==> StaticQueue(s.replicas[i].clientQueue)
  {
    hide Durable, DiskOk;
    forall i | 0 <= i < s.N() ensures StaticQueue(s.replicas[i].clientQueue) { assert Status(s, i); }
  }

  lemma StepSound(s: SimState, a: Action)
    requires Sound(s) && FixedMembership(a)
    ensures Sound(Step(s, a)) && ViewsGrow(s, Step(s, a)) && SameFiles(s, Step(s, a))
    ensures forall i :: 0 <= i < |ProposedIn(s, a)| ==> PassesView(s, Step(s, a), ProposedIn(s, a)[i])
  {
    hide SimModel.Rejoin, Round, Started, RoundBody, NodeOk, CrashedOk, CurrentLeader, PassesView, Proposal;
    match a
    case RunRound(kind, now) => RoundSound(s, kind, now);
    case SetUnresponsive(id, unresponsive) => QuietSetUnresponsive(s, id, unresponsive);
    case Crash(id) =>
      CrashSound(s, {id});
      GrowRefl(s);
    case RejoinReplica(id) => RejoinSound(s, id);
    case EnqueueCommand(command) =>
      QueueOk(s);
      QuietSound(s, EnqueueOnLeader(s, command));
    case SetDummies(enabled, timeoutMs) =>
      QueueOk(s);
      QuietSound(s, SetAllDummies(s, enabled, timeoutMs));
  }

  lemma QuietSetUnresponsive(s: SimState, id: nat, unresponsive: bool)
    requires Sound(s)
    ensures var t := MarkUnresponsive(s, id, unresponsive); Sound(t) && ViewsGrow(s, t) && SameFiles(s, t)
  {
    QueueOk(s);
    hide NodeOk, CrashedOk;
    QuietSound(s, MarkUnresponsive(s, id, unresponsive));
  }

  // ----- Whole runs -----

  /** The blocks proposed over a run, in order. */
  ghost function Proposals(s: SimState, actions: seq<Action>): seq<Block>
    requires s.Shaped()
    decreases |actions|
  {
    if actions == [] then []
    else
      var init := actions[..|actions| - 1];
      Proposals(s, init) + ProposedIn(Drive(s, init), actions[|actions| - 1])
  }

  ghost predicate DistinctViews(bs: seq<Block>) {
    forall i, j :: 0 <= i < j < |bs| ==> bs[i].view != bs[j].view
  }

  /** The proposer of b is beyond b's view. */
  ghost predicate Passed(s: SimState, b: Block) {
    s.N() > 0 && Past(s, b.view % s.N(), b.view)
  }

  ghost predicate AllPassed(s: SimState, bs: seq<Block>) {
    forall i :: 0 <= i < |bs| ==> Passed(s, bs[i])
  }

  lemma PassedStep(s: SimState, t: SimState, bs: seq<Block>, added: seq<Block>)
    requires AllPassed(s, bs) && DistinctViews(bs) && ViewsGrow(s, t)
    requires |added| <= 1 && forall i :: 0 <= i < |added| ==> PassesView(s, t, added[i])
    ensures AllPassed(t, bs + added) && DistinctViews(bs + added)
  {
    hide Past;
    var all := bs + added;
    forall i | 0 <= i < |all| ensures Passed(t, all[i]) {
      if i < |bs| { assert Passed(s, bs[i]); } else { assert PassesView(s, t, added[i - |bs|]); }
    }
    forall i, j | 0 <= i < j < |all| ensures all[i].view != all[j].view {
      if j >= |bs| { assert Passed(s, bs[i]) && PassesView(s, t, added[j - |bs|]); }
    }
  }

  /** Blocks proposed before s count too, as long as their proposers are beyond their views. */
  lemma {:induction false} RunSound(s: SimState, earlier: seq<Block>, actions: seq<Action>)
    requires Sound(s) && AllPassed(s, earlier) && DistinctViews(earlier)
    requires forall i :: 0 <= i < |actions| ==> FixedMembership(actions[i])
    ensures Sound(Drive(s, actions)) && SameFiles(s, Drive(s, actions))
    ensures AllPassed(Drive(s, actions), earlier + Proposals(s, actions))
    ensures DistinctViews(earlier + Proposals(s, actions))
    decreases |actions|
  {
    hide Sound, SameFiles, Step, AllPassed, DistinctViews, PassesView, ViewsGrow, FixedMembership, SimState.Shaped;
    SoundShaped(s);
    if actions == [] {
      GrowRefl(s);
      assert earlier + Proposals(s, actions) == earlier;
    } else {
      var init, last := actions[..|actions| - 1], actions[|actions| - 1];
      RunSound(s, earlier, init);
      var mid := Drive(s, init);
      StepSound(mid, last);
      SameTrans(s, mid, Step(mid, last));
      AtMostOne(mid, last);
      hide ProposedIn;
      PassedStep(mid, Step(mid, last), earlier + Proposals(s, init), ProposedIn(mid, last));
      assert earlier + Proposals(s, actions) == earlier + Proposals(s, init) + ProposedIn(mid, last);
    }
  }

  lemma AtMostOne(s: SimState, a: Action)
    requires s.Shaped()
    ensures |ProposedIn(s, a)| <= 1
  {
    hide Started, Proposal, CurrentLeader;
  }

  lemma StartSound(f: nat, maxSteps: nat, keystores: seq<KeyStore>)
    ensures Sound(NewSim(f, maxSteps, true, keystores)) && Clean(NewSim(f, maxSteps, true, keystores))
  {
    var s := NewSim(f, maxSteps, true, keystores);
    forall i: nat | i < s.N() ensures Status(s, i) {
      FreshIsDurable(Config(s.N(), f, i, 5000), keystores[i]);
      DurableKept(s.replicas[i]);
      hide Kept;
    }
  }

  /** With persistence on and a fixed membership, for every mix of rounds, unresponsiveness, crashes and
      recoveries, no two proposed blocks ever share a view. */
  lemma OneProposalPerView(f: nat, maxSteps: nat, keystores: seq<KeyStore>, actions: seq<Action>)
    requires forall i :: 0 <= i < |actions| ==> FixedMembership(actions[i])
    ensures DistinctViews(Proposals(NewSim(f, maxSteps, true, keystores), actions))
  {
    var start := NewSim(f, maxSteps, true, keystores);
    StartSound(f, maxSteps, keystores);
    RunSound(start, [], actions);
    assert [] + Proposals(start, actions) == Proposals(start, actions);
  }

  /** In every reachable state recovery of every crashed replica succeeds. */
  lemma RecoveryNeverFails(f: nat, maxSteps: nat, keystores: seq<KeyStore>, actions: seq<Action>, id: nat)
    requires forall i :: 0 <= i < |actions| ==> FixedMembership(actions[i])
    requires id < |keystores|
    ensures var s := Drive(NewSim(f, maxSteps, true, keystores), actions);
            && Recover(s.replicas[id].config, s.keystores[id], s.replicas[id].store).Ok?
            && (id in s.crashed ==> id !in SimModel.Rejoin(s, id).crashed)
  {
    var start := NewSim(f, maxSteps, true, keystores);
    StartSound(f, maxSteps, keystores);
    NoneYet(start);
    RunSound(start, [], actions);
    var s := Drive(start, actions);
    hide Drive, NewSim, DiskOk, Misfit;
    CleanRecovers(s, id);
    if id in s.crashed {
      RecoverIff(s.replicas[id].config, s.keystores[id], s.replicas[id].store);
      RejoinParts(s, id);
    }
  }

  /** Without the temporary files every directory can be recovered. */
  lemma CleanRecovers(s: SimState, i: nat)
    requires Sound(s) && i < s.N() && !s.replicas[i].store.leftover
    ensures DiskOk(s.replicas[i].store) && Replayed(s.replicas[i].store).Ok?
  {
    assert Status(s, i);
    if i !in s.crashed { NodeDisk(s.replicas[i], i, s.N()); }
    hide Replayed, NodeOk, Sound;
  }

  lemma NoneYet(s: SimState)
    ensures AllPassed(s, []) && DistinctViews([])
  {
  }

  // ----- Votes -----

  /** The votes sent in a step. */
  ghost function VotesIn(s: SimState, a: Action): seq<Vote>
    requires s.Shaped()
  {
    var b := ProposedIn(s, a);
    var t := Started(s);
    if b == [] then [] else VotesFor(t.replicas, t.Down(), CurrentLeader(t), b[0], t.N())
  }

  ghost function Votes(s: SimState, actions: seq<Action>): seq<Vote>
    requires s.Shaped()
    decreases |actions|
  {
    if actions == [] then []
    else
      var init := actions[..|actions| - 1];
      Votes(s, init) + VotesIn(Drive(s, init), actions[|actions| - 1])
  }

  ghost predicate VotesForOneOf(v: Vote, bs: seq<Block>) {
    exists k :: 0 <= k < |bs| && bs[k].hash == v.blockHash && bs[k].view == v.view
  }

  /** Every vote is for a block proposed in the run, with that block's view. */
  ghost predicate VotesForProposals(votes: seq<Vote>, bs: seq<Block>) {
    forall i :: 0 <= i < |votes| ==> VotesForOneOf(votes[i], bs)
  }

  lemma VotesStep(votes: seq<Vote>, bs: seq<Block>, cast: seq<Vote>, added: seq<Block>)
    requires VotesForProposals(votes, bs)
    requires cast != [] ==> |added| == 1 && AllFor(cast, added[0])
    ensures VotesForProposals(votes + cast, bs + added)
  {
    var all := bs + added;
    forall i | 0 <= i < |votes + cast| ensures VotesForOneOf((votes + cast)[i], all) {
      if i < |votes| {
        assert VotesForOneOf(votes[i], bs);
        var k :| 0 <= k < |bs| && bs[k].hash == votes[i].blockHash && bs[k].view == votes[i].view;
        assert all[k] == bs[k];
      } else {
        assert all[|bs|] == added[0];
      }
    }
  }

  lemma {:induction false} VotesMatchProposals(s: SimState, actions: seq<Action>)
    requires s.Shaped()
    ensures VotesForProposals(Votes(s, actions), Proposals(s, actions))
    decreases |actions|
  {
    if actions != [] {
      var init, last := actions[..|actions| - 1], actions[|actions| - 1];
      VotesMatchProposals(s, init);
      var mid := Drive(s, init);
      AtMostOne(mid, last);
      if ProposedIn(mid, last) != [] {
        var t := Started(mid);
        VotesForBlock(t.replicas, t.Down(), CurrentLeader(t), ProposedIn(mid, last)[0], t.N());
      }
      hide ProposedIn, VotesForProposals, Started, VotesFor, CurrentLeader, SimState.Shaped;
      VotesStep(Votes(s, init), Proposals(s, init), VotesIn(mid, last), ProposedIn(mid, last));
    }
  }

  /** So no two votes of a run, by the same replica or by different ones, name different blocks of one view. */
  lemma NoSecondVotePerView(f: nat, maxSteps: nat, keystores: seq<KeyStore>, actions: seq<Action>)
    requires forall i :: 0 <= i < |actions| ==> FixedMembership(actions[i])
    ensures var votes := Votes(NewSim(f, maxSteps, true, keystores), actions);
            forall i, j :: 0 <= i < |votes| && 0 <= j < |votes| && votes[i].view == votes[j].view ==>
              votes[i].blockHash == votes[j].blockHash
  {
    var start := NewSim(f, maxSteps, true, keystores);
    OneProposalPerView(f, maxSteps, keystores, actions);
    VotesMatchProposals(start, actions);
    hide NewSim, Votes, Proposals;
    var votes := Votes(start, actions);
    forall i, j | 0 <= i < |votes| && 0 <= j < |votes| && votes[i].view == votes[j].view
      ensures votes[i].blockHash == votes[j].blockHash
    {
      assert VotesForOneOf(votes[i], Proposals(start, actions));
      assert VotesForOneOf(votes[j], Proposals(start, actions));
    }
  }
}
