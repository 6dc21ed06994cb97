/** Whole runs of one replica with its log attached: replay agrees with the live state, snapshots, state sync and
    crashes between any two durable writes included. */
module Runs {
  import opened Types
  import opened Crypto
  import opened CommitRule
  import opened Storage
  import opened ReplicaModel
  import opened Recovery
  import opened StateSync
  import opened Durability

  datatype Op =
    | ReceiveVote(vote: Vote)
    | LearnQc(qc: QuorumCert)
    | Propose(view: nat, hash: Hash, now: nat)
    | ProposeNext(view: nat, hash: Hash, now: nat)
    | Enqueue(command: Command)
    | ReceiveBlock(block: Block)
    | CommitReady
    | Advance(reason: Reason)
    | Snap
    | Restart
    | Rejoin(donor: Option<ReplicaState>, target: nat)

  /** The operations that end by taking a snapshot. */
  predicate Saves(op: Op) {
    op.Snap? || op.Rejoin?
  }

  /** The state whose snapshot the operation takes: for a rejoin, the recovered and synced one. */
  function Saver(s: ReplicaState, op: Op): ReplicaState {
    if op.Rejoin? then SyncWith(Restarted(s), op.donor, op.target) else s
  }

  ghost function Apply(s: ReplicaState, op: Op): ReplicaState {
    match op
    case ReceiveVote(vote) => s.HandleVote(vote).0
    case LearnQc(qc) => s.ApplyHighQc(qc)
    case Propose(view, hash, now) => s.ProposeWithHash(view, hash, now).0
    case ProposeNext(view, hash, now) => s.ProposeNextWithHash(view, hash, now).0
    case Enqueue(command) => s.(clientQueue := s.clientQueue + [command])
    case ReceiveBlock(b) => s.InsertProposal(b)
    case CommitReady => s.CommitAll()
    case Advance(reason) => s.AdvanceView(reason)
    case Snap => s.TakeSnapshot()
    case Restart => Restarted(s)
    case Rejoin(_, _) => Saver(s, op).TakeSnapshot()
  }

  // ----- The durable writes of an operation -----

  /** Attaching the log after a recovery appends the genesis block, when the log is empty and there is no other. */
  function Regenesis(s: ReplicaState): seq<LogEntry> {
    match Recover(s.config, s.keystore, s.store)
    case Err(_) => []
    case Ok(t) =>
      if t.store.Entries() == [] && t.blockTree.Keys == {0} then [InsertedEntry(t.blockTree[0])] else []
  }

  function ViewEntries(view: nat, target: nat): seq<LogEntry>
    decreases target - view
  {
    if view < target then [ViewChanged(view, view + 1, Timeout)] + ViewEntries(view + 1, target) else []
  }

  /** The entries the operation appends to the log, in order, before it takes a snapshot if it does. */
  ghost function NextEntries(s: ReplicaState, op: Op): seq<LogEntry> {
    match op
    case ReceiveVote(vote) =>
      if s.Accepts(vote) then s.Pooled(vote).QcEntries(vote.blockHash, vote.view, vote.epoch) else []
    case LearnQc(qc) => if s.Newer(qc) then [HighQCUpdated(qc.blockHash, qc.view, qc.epoch)] else []
    case ReceiveBlock(b) => if s.ValidProposal(b) then [InsertedEntry(b)] else []
    case CommitReady => CommitEntries(Commits(s.blockTree, s.committedLog), |s.committedLog|)
    case Advance(reason) => [ViewChanged(s.currentView, s.currentView + 1, reason)]
    case Restart => Regenesis(s)
    case Rejoin(_, target) => Regenesis(s) + ViewEntries(Restarted(s).currentView, target)
    case _ => []
  }

  /** The data directory before and after every durable write of the operation. */
  ghost function Writes(s: ReplicaState, op: Op): (stores: seq<Store>)
    ensures |stores| >= 1
  {
    LogWrites(s, NextEntries(s, op)) + if Saves(op) then Saver(s, op).SnapshotWrites()[1..] else []
  }

  // ----- Runs -----

  /** An operation that ends, or one in which the replica crashes after this many durable writes and recovers. */
  datatype Move =
    | Do(op: Op)
    | CrashIn(op: Op, writes: nat)

  /** The list's element at i, or its last one. */
  function Pick(stores: seq<Store>, i: nat): Store
    requires |stores| >= 1
  {
    if i < |stores| then stores[i] else stores[|stores| - 1]
  }

  /** The directory a crash after this many writes leaves; there are no more than the operation makes. */
  ghost function DiskAt(s: ReplicaState, op: Op, writes: nat): Store {
    Pick(Writes(s, op), writes)
  }

  ghost function Moved(s: ReplicaState, m: Move): ReplicaState {
    match m
    case Do(op) => Apply(s, op)
    case CrashIn(op, writes) => RestartedOn(s, DiskAt(s, op, writes))
  }

  /** A donor files its blocks under their own hashes. */
  ghost predicate KeyedDonor(op: Op) {
    op.Rejoin? && op.donor.Some? ==> Keyed(op.donor.value.blockTree)
  }

  /** The operations that start from what is on disk. */
  predicate Recovers(op: Op) {
    op.Restart? || op.Rejoin?
  }

  /** The run goes on if every recovery it asks for succeeds. */
  ghost predicate GoesOn(s: ReplicaState, m: Move) {
    && KeyedDonor(m.op)
    && (Recovers(m.op) ==> Recover(s.config, s.keystore, s.store).Ok?)
    && (m.CrashIn? ==> Recover(s.config, s.keystore, DiskAt(s, m.op, m.writes)).Ok?)
  }

  ghost function Run(s: ReplicaState, moves: seq<Move>): ReplicaState
    decreases |moves|
  {
    if moves == [] then s else Run(Moved(s, moves[0]), moves[1..])
  }

  ghost predicate Survives(s: ReplicaState, moves: seq<Move>)
    decreases |moves|
  {
    moves == [] || (GoesOn(s, moves[0]) && Survives(Moved(s, moves[0]), moves[1..]))
  }

  /** The hashes of own unlogged proposals. */
  function OwnAfter(s: ReplicaState, m: Move, own: set<Hash>): set<Hash> {
    match m
    case CrashIn(_, _) => {}
    case Do(Propose(view, hash, _)) => if s.IsLeader(view) then own + {hash} else own
    case Do(ProposeNext(_, hash, _)) => own + {hash}
    case Do(ReceiveBlock(b)) => if s.ValidProposal(b) then own - {b.hash} else own
    case Do(Snap) => if s.store.leftover then own else {}
    case Do(Restart) => {}
    case Do(Rejoin(_, _)) => {}
    case _ => own
  }

  ghost function OwnRun(s: ReplicaState, moves: seq<Move>, own: set<Hash>): set<Hash>
    decreases |moves|
  {
    if moves == [] then own else OwnRun(Moved(s, moves[0]), moves[1..], OwnAfter(s, moves[0], own))
  }

  // ----- State sync leaves a replica that can be snapshotted -----

  lemma AdvanceIs(s: ReplicaState, reason: Reason)
    requires s.walAttached
    ensures s.AdvanceView(reason) ==
            s.(currentView := s.currentView + 1, votePool := map[],
               store := Extended(s.store, [ViewChanged(s.currentView, s.currentView + 1, reason)]))
  {
  }

  lemma BehindAdvance(s: ReplicaState)
    requires Behind(s)
    ensures Behind(s.AdvanceView(Timeout))
    ensures s.AdvanceView(Timeout).store == Extended(s.store, [ViewChanged(s.currentView, s.currentView + 1, Timeout)])
  {
    var e := ViewChanged(s.currentView, s.currentView + 1, Timeout);
    hide Replayed, NumbersBelow, Keyed, Replay, ReplicaState.AdvanceView;
    AdvanceIs(s, Timeout);
    ExtendedReplay(s.store, [e]);
    ReplaySnoc(Replayed(s.store).value, [], e);
    ReplayNone(Replayed(s.store).value);
    assert [e] == [] + [e];
    NumbersStay(s.store, [e], s.snapshotCounter + if s.store.leftover then 1 else 0);
  }

  lemma ReplayNone(r: Recovered)
    ensures Replay(r, []) == Ok(r)
  {
  }

  lemma NumbersStay(store: Store, es: seq<LogEntry>, id: nat)
    requires NumbersBelow(store, id)
    ensures NumbersBelow(Extended(store, es), id)
  {
  }

  lemma {:induction false} BehindAdvanceTo(s: ReplicaState, target: nat)
    requires Behind(s) && s.votePool == map[]
    ensures var t := AdvanceTo(s, target);
            && Behind(t) && t.store == Extended(s.store, ViewEntries(s.currentView, target))
            && t.votePool == map[] && t.snapshotCounter == s.snapshotCounter
            && t.committedLog == s.committedLog && t.blockTree == s.blockTree
    decreases target - s.currentView
  {
    hide Behind;
    if s.currentView < target {
      var e := ViewChanged(s.currentView, s.currentView + 1, Timeout);
      BehindAdvance(s);
      BehindAdvanceTo(s.AdvanceView(Timeout), target);
      ExtendedTwice(s.store, [e], ViewEntries(s.currentView + 1, target));
    } else {
      assert s.store.log.Some? by { BehindLog(s); }
      ExtendedTwice(s.store, [], []);
    }
  }

  lemma BehindLog(s: ReplicaState)
    requires Behind(s)
    ensures s.store.log.Some?
  {
  }

  lemma BehindImport(s: ReplicaState, donor: ReplicaState)
    requires Behind(s) && Keyed(donor.blockTree)
    ensures Behind(Import(s, donor)) && SyncKeeps(s, Import(s, donor))
    ensures HashPrefix(s.committedLog, Import(s, donor).committedLog)
  {
    hide Import, NumbersBelow, Replayed;
    ImportParts(s, donor);
    assert s.blockTree.Keys != {};
    assert (donor.blockTree + s.blockTree).Keys == donor.blockTree.Keys + s.blockTree.Keys;
  }

  /** Attaching the log is the one append of a restart. */
  lemma AttachedStore(t: ReplicaState)
    requires t.store.log.Some?
    ensures Attached(t).store ==
            Extended(t.store, if t.store.Entries() == [] && t.blockTree.Keys == {0}
                              then [InsertedEntry(t.blockTree[0])] else [])
  {
    ExtendedTwice(t.store, [], []);
  }

  lemma RestartStore(s: ReplicaState)
    requires DiskOk(s.store)
    ensures Recover(s.config, s.keystore, s.store).Ok?
    ensures Restarted(s).store == Extended(s.store, Regenesis(s))
  {
    DiskRestart(s.config, s.keystore, s.store);
    assert s.store.(log := Some(s.store.Entries())) == s.store;
    AttachedStore(Recover(s.config, s.keystore, s.store).value);
    hide Attached, Replayed, Durable, DurableTree;
  }

  /** A replica that is recovered and synced is ready for its snapshot. */
  lemma SaverReady(s: ReplicaState, op: Op)
    requires Durable(s) && Saves(op) && KeyedDonor(op)
    ensures var y := Saver(s, op);
            && Behind(y) && y.store == Extended(s.store, NextEntries(s, op))
            && (op.Rejoin? ==> y.votePool == map[])
            && (op.Rejoin? ==> y.snapshotCounter == Restarted(s).snapshotCounter)
            && (op.Rejoin? ==> HashPrefix(Restarted(s).committedLog, y.committedLog))
  {
    hide Durable, DurableTree, Behind, Restarted, Recover, AdvanceTo, Import, HashPrefix, Extended, Regenesis;
    if op.Rejoin? {
      var r := Restarted(s);
      DurableRestart(s);
      DurableDisk(s);
      RestartStore(s);
      DurableBehind(r);
      var m := if op.donor.Some? then Import(r, op.donor.value) else r;
      if op.donor.Some? { BehindImport(r, op.donor.value); } else { PrefixSelf(r.committedLog); }
      BehindAdvanceTo(m, op.target);
      ExtendedTwice(s.store, Regenesis(s), ViewEntries(r.currentView, op.target));
    } else {
      DurableBehind(s);
      BehindLog(s);
      ExtendedTwice(s.store, [], []);
    }
  }

  lemma PrefixSelf(log: seq<Block>)
    ensures HashPrefix(log, log)
  {
  }

  // ----- The writes lead from the directory before to the one after -----

  lemma FormStore(s: ReplicaState, hash: Hash, view: nat, epoch: nat)
    requires s.walAttached && s.store.log.Some?
    ensures s.TryFormQc(hash, view, epoch).0.store == Extended(s.store, s.QcEntries(hash, view, epoch))
  {
    hide ReplicaState.QuorumSize, ReplicaState.Pool;
    ExtendedTwice(s.store, [], []);
    var e1, e2 := QCFormed(hash, view, epoch, |s.Pool(hash)|), HighQCUpdated(hash, view, epoch);
    ExtendedTwice(s.store, [e1], [e2]);
    assert [e1] + [e2] == [e1, e2];
  }

  lemma VoteStore(s: ReplicaState, vote: Vote)
    requires s.walAttached && s.store.log.Some?
    ensures s.HandleVote(vote).0.store == Extended(s.store, NextEntries(s, ReceiveVote(vote)))
  {
    hide ReplicaState.Accepts, ReplicaState.QcEntries, ReplicaState.TryFormQc;
    ExtendedTwice(s.store, [], []);
    FormStore(s.Pooled(vote), vote.blockHash, vote.view, vote.epoch);
  }

  lemma ReceiveStore(s: ReplicaState, b: Block)
    requires s.walAttached && s.store.log.Some?
    ensures s.InsertProposal(b).store == Extended(s.store, NextEntries(s, ReceiveBlock(b)))
  {
    hide ReplicaState.ValidProposal;
    ExtendedTwice(s.store, [], []);
  }

  lemma LearnStore(s: ReplicaState, qc: QuorumCert)
    requires s.walAttached && s.store.log.Some?
    ensures s.ApplyHighQc(qc).store == Extended(s.store, NextEntries(s, LearnQc(qc)))
  {
    hide ReplicaState.Newer;
    ExtendedTwice(s.store, [], []);
  }

  lemma OpStore(s: ReplicaState, op: Op)
    requires s.walAttached && s.store.log.Some? && !Saves(op) && (op.Restart? ==> DiskOk(s.store))
    ensures Apply(s, op).store == Extended(s.store, NextEntries(s, op))
  {
    ExtendedTwice(s.store, [], []);
    hide Durable, DiskOk, ReplicaState.HandleVote, ReplicaState.CommitEach, Restarted, Extended,
      ReplicaState.InsertProposal, ReplicaState.ApplyHighQc, Pending, Commits, ReplicaState.IsLeader,
      ReplicaState.NewBlock;
    match op
    case ReceiveVote(vote) => VoteStore(s, vote);
    case LearnQc(qc) => LearnStore(s, qc);
    case ReceiveBlock(b) => ReceiveStore(s, b);
    case CommitReady => CommitEachAppends(s, Commits(s.blockTree, s.committedLog));
    case Restart => RestartStore(s);
    case Advance(reason) => AdvanceIs(s, reason);
    case ProposeNext(view, hash, now) => ProposalSnapshots(s, view, hash, now);
    case _ =>
  }

  lemma WritesEnd(s: ReplicaState, op: Op)
    requires Durable(s) && KeyedDonor(op)
    ensures Writes(s, op)[0] == s.store && Writes(s, op)[|Writes(s, op)| - 1] == Apply(s, op).store
  {
    hide Durable, Apply, NextEntries, Saver, ReplicaState.SnapshotWrites, Extended;
    DurableAttached(s);
    DurableDisk(s);
    var es := NextEntries(s, op);
    ExtendedTwice(s.store, [], []);
    assert LogWrites(s, es)[|LogWrites(s, es)| - 1] == Extended(s.store, es) by { assert es[..|es|] == es; }
    if Saves(op) {
      SaverReady(s, op);
      SavedStore(s, op);
    } else {
      OpStore(s, op);
    }
  }

  lemma SavedStore(s: ReplicaState, op: Op)
    requires Saves(op)
    ensures var all := Saver(s, op).SnapshotWrites(); Apply(s, op).store == all[|all| - 1]
  {
    hide ReplicaState.SnapshotWrites, Restarted, SyncWith;
  }

  lemma DurableAttached(s: ReplicaState)
    requires Durable(s)
    ensures s.walAttached && s.store.log.Some? && Replayed(s.store).Ok?
  {
  }

  // ----- Every move keeps a durable replica durable -----

  lemma DurableEnqueue(s: ReplicaState, queue: seq<Command>, own: set<Hash>)
    requires Durable(s)
    ensures Durable(s.(clientQueue := queue))
    ensures DurableTree(s, own) ==> DurableTree(s.(clientQueue := queue), own)
  {
    hide Replayed, NumbersBelow, SameTree;
  }

  lemma DurableProposal(s: ReplicaState, view: nat, hash: Hash, now: nat, own: set<Hash>)
    requires Durable(s)
    ensures var t := s.ProposeWithHash(view, hash, now).0;
            && Durable(t)
            && (DurableTree(s, own) ==> DurableTree(t, if s.IsLeader(view) then own + {hash} else own))
  {
    DurablePropose(s, s.NewBlock(view, hash, NoOp), now, own);
    hide Durable, DurableTree, ReplicaState.IsLeader;
  }

  lemma MoreOwn(s: ReplicaState, own: set<Hash>, more: set<Hash>)
    requires DurableTree(s, own) && own <= more
    ensures DurableTree(s, more)
  {
  }

  lemma DurableNext(s: ReplicaState, view: nat, hash: Hash, now: nat, own: set<Hash>)
    requires Durable(s)
    ensures var t := s.ProposeNextWithHash(view, hash, now).0;
            Durable(t) && (DurableTree(s, own) ==> DurableTree(t, own + {hash}))
  {
    hide Durable, DurableTree, ReplicaState.IsLeader, ReplicaState.ShouldProposeDummy;
    DurableProposal(s, view, hash, now, own);
    if DurableTree(s, own) { MoreOwn(s, own, own + {hash}); }
    if DurableTree(s.ProposeWithHash(view, hash, now).0, own) {
      MoreOwn(s.ProposeWithHash(view, hash, now).0, own, own + {hash});
    }
    if s.clientQueue != [] {
      var queue := s.clientQueue[..|s.clientQueue| - 1];
      DurableEnqueue(s, queue, own);
      DurablePropose(s.(clientQueue := queue), s.NewBlock(view, hash, s.clientQueue[|s.clientQueue| - 1]), now, own);
    }
  }

  /** Outside own, every block of the one tree is in the other. */
  ghost predicate SubTree(small: Tree, big: Tree, own: set<Hash>) {
    forall h :: h !in own && h in small ==> h in big && Bare(small[h]) == Bare(big[h])
  }

  /** Reading the old log on top of the new snapshot changes nothing in its tree. */
  lemma OverlaidTree(base: Tree, first: Tree, es: seq<LogEntry>, live: Tree, own: set<Hash>)
    requires SameTree(base, live, {}) && SubTree(first + Inserted(es), live, own)
    ensures SameTree(base + Inserted(es), live, own)
  {
    hide Bare, Inserted;
    var t := first + Inserted(es);
    forall h | h !in own
      ensures h in base + Inserted(es) <==> h in live
      ensures h in live ==> Bare((base + Inserted(es))[h]) == Bare(live[h])
    {
      if h in Inserted(es) { assert h in t && t[h] == Inserted(es)[h]; }
    }
  }

  lemma BlockedTree(s: ReplicaState, own: set<Hash>)
    requires Behind(s) && s.store.leftover && !HasCommit(s.store.Entries())
    requires SubTree(Replayed(s.store).value.tree, s.blockTree, own)
    ensures DurableTree(s.TakeSnapshot(), own)
  {
    hide ReplicaState.SnapshotWrites, ReplicaState.Capture, Store.Latest, HasCommit, ReplicaState.TakeSnapshot,
      SameTree, SubTree, NumbersBelow;
    var first, es := Base(s.store), s.store.Entries();
    BlockedWrites(s);
    WindowReplay(s, 2);
    SnapshotCrash(s, 2);
    var base := Base(s.SnapshotWrites()[2]);
    ReplayTree(first, es);
    ReplayTree(base, es);
    hide Base, Replay;
    OverlaidTree(base.tree, first.tree, es, s.blockTree, own);
  }

  lemma {:induction false} ViewEntriesInsertNone(view: nat, target: nat)
    ensures Inserted(ViewEntries(view, target)) == map[]
    decreases target - view
  {
    if view < target {
      ViewEntriesInsertNone(view + 1, target);
      InsertedConcat([ViewChanged(view, view + 1, Timeout)], ViewEntries(view + 1, target));
      assert Inserted([ViewChanged(view, view + 1, Timeout)]) == map[];
    }
  }

  lemma {:induction false} InsertedConcat(a: seq<LogEntry>, b: seq<LogEntry>)
    ensures Inserted(a + b) == Inserted(a) + Inserted(b)
    decreases |b|
  {
    if b == [] {
      assert a + b == a;
    } else {
      var n := |b| - 1;
      InsertedConcat(a, b[..n]);
      assert (a + b)[..|a + b| - 1] == a + b[..n];
    }
  }

  lemma SubTreeOf(s: ReplicaState, own: set<Hash>)
    requires Durable(s) && DurableTree(s, own)
    ensures Replayed(s.store).Ok? && SubTree(Replayed(s.store).value.tree, s.blockTree, own)
  {
    hide Replayed, Bare;
  }

  lemma SubTreeInto(small: Tree, mid: Tree, big: Tree, own: set<Hash>)
    requires SubTree(small, mid, own) && forall h :: h in mid ==> h in big && big[h] == mid[h]
    ensures SubTree(small, big, own)
  {
  }

  /** State sync keeps every block the disk holds. */
  lemma SaverTree(s: ReplicaState, op: Op, own: set<Hash>)
    requires Durable(s) && Saves(op) && KeyedDonor(op) && (op.Snap? ==> DurableTree(s, own))
    ensures var y := Saver(s, op);
            && Replayed(y.store).Ok?
            && SubTree(Replayed(y.store).value.tree, y.blockTree, if op.Snap? then own else {})
  {
    hide Durable, DurableTree, Behind, Restarted, Recover, AdvanceTo, Import, HashPrefix, Extended, Regenesis, SubTree,
      Replay;
    if op.Rejoin? {
      var r := Restarted(s);
      DurableRestart(s);
      DurableBehind(r);
      SubTreeOf(r, {});
      var m := if op.donor.Some? then Import(r, op.donor.value) else r;
      if op.donor.Some? {
        BehindImport(r, op.donor.value);
        ImportParts(r, op.donor.value);
      }
      BehindAdvanceTo(m, op.target);
      var es := ViewEntries(m.currentView, op.target);
      ExtendedReplay(r.store, es);
      ReplayTree(Replayed(r.store).value, es);
      ViewEntriesInsertNone(m.currentView, op.target);
      var y := AdvanceTo(m, op.target);
      BehindReplays(y);
      assert Replayed(y.store).value.tree == Replayed(r.store).value.tree;
      SubTreeInto(Replayed(y.store).value.tree, r.blockTree, y.blockTree, {});
    } else {
      SubTreeOf(s, own);
    }
  }

  lemma BehindReplays(s: ReplicaState)
    requires Behind(s)
    ensures Replayed(s.store).Ok?
  {
  }

  /** A snapshot is saved over a log with a commit that cannot be truncated. */
  ghost predicate SpoilsNow(s: ReplicaState, m: Move) {
    m.Do? && Saves(m.op) && s.store.leftover && HasCommit(s.store.Entries())
  }

  /** A saving operation leaves the disk in agreement with the memory, unless it spoils the log. */
  lemma DurableSave(s: ReplicaState, op: Op, own: set<Hash>)
    requires Durable(s) && Saves(op) && KeyedDonor(op)
    ensures !SpoilsNow(s, Do(op)) ==> Durable(Apply(s, op))
    ensures !SpoilsNow(s, Do(op)) && DurableTree(s, own) ==> DurableTree(Apply(s, op), OwnAfter(s, Do(op), own))
    ensures SpoilsNow(s, Do(op)) ==> Spoiled(Apply(s, op))
    ensures Apply(s, op).store.Latest() == Some(Saver(s, op).Capture())
  {
    var y := Saver(s, op);
    hide Saver, NextEntries, Durable, Restarted, DurableTree, Behind, HasCommit, Spoiled, ReplicaState.Capture,
      Store.Latest, ReplicaState.TakeSnapshot, SubTree, Replayed;
    SaverReady(s, op);
    SaverTakes(s, op);
    SavesNoCommit(s, op);
    hide Apply;
    if s.store.leftover {
      BlockedSnapshot(y);
      if !HasCommit(s.store.Entries()) && (op.Rejoin? || DurableTree(s, own)) {
        SaverTree(s, op, own);
        BlockedTree(y, if op.Snap? then own else {});
      }
    } else {
      FinishedSnapshot(y);
      if DurableTree(y.TakeSnapshot(), {}) { MoreOwn(y.TakeSnapshot(), {}, OwnAfter(s, Do(op), own)); }
    }
  }

  lemma FinishedSnapshot(y: ReplicaState)
    requires Behind(y) && !y.store.leftover
    ensures Durable(y.TakeSnapshot()) && DurableTree(y.TakeSnapshot(), {})
    ensures y.TakeSnapshot().store.Latest() == Some(y.Capture())
  {
    DurableSnapshot(y);
    SnapshotIsLatest(y, 5);
    SnapshotLeaves(y);
    hide ReplicaState.SnapshotWrites, ReplicaState.Capture, ReplicaState.TakeSnapshot, Durable, DurableTree;
  }

  lemma SaverTakes(s: ReplicaState, op: Op)
    requires Saves(op)
    ensures Apply(s, op) == Saver(s, op).TakeSnapshot()
  {
    hide ReplicaState.TakeSnapshot, Restarted, SyncWith;
  }

  lemma DurableOp(s: ReplicaState, op: Op, own: set<Hash>)
    requires Durable(s) && KeyedDonor(op) && !SpoilsNow(s, Do(op))
    ensures Durable(Apply(s, op))
    ensures DurableTree(s, own) ==> DurableTree(Apply(s, op), OwnAfter(s, Do(op), own))
  {
    hide Durable, DurableTree, ReplicaState.IsLeader, ReplicaState.HandleVote, ReplicaState.ApplyHighQc, Restarted,
      ReplicaState.ProposeWithHash, ReplicaState.ProposeNextWithHash, ReplicaState.CommitEach,
      ReplicaState.AdvanceView, ReplicaState.TakeSnapshot, ReplicaState.InsertProposal, ReplicaState.ValidProposal,
      Saver, HasCommit;
    match op
    case ReceiveVote(vote) => DurableVote(s, vote, own);
    case LearnQc(qc) => DurableHighQc(s, qc, own);
    case Propose(view, hash, now) => DurableProposal(s, view, hash, now, own);
    case ProposeNext(view, hash, now) => DurableNext(s, view, hash, now, own);
    case Enqueue(command) => DurableEnqueue(s, s.clientQueue + [command], own);
    case ReceiveBlock(block) => DurableInsert(s, block, own);
    case CommitReady => DurableCommitEach(s, Commits(s.blockTree, s.committedLog), own);
    case Advance(reason) => DurableAdvance(s, reason, own);
    case Restart => DurableRestart(s);
    case Snap => DurableSave(s, op, own);
    case Rejoin(_, _) => DurableSave(s, op, own);
  }

  // ----- What a crash between the writes leaves -----

  /** The first directory that holds the snapshot the operation takes. */
  ghost function SavePoint(s: ReplicaState, op: Op): nat {
    |NextEntries(s, op)| + 1
  }

  /** Between the save and the truncation, which never comes while an earlier one is unfinished, a log that holds a
      commit no longer fits its base. */
  ghost predicate Refused(s: ReplicaState, op: Op, writes: nat) {
    && Saves(op) && SavePoint(s, op) <= writes && (writes <= SavePoint(s, op) + 2 || s.store.leftover)
    && HasCommit(s.store.Entries())
  }

  /** The entries of an operation all replay. */
  lemma EntriesReplay(s: ReplicaState, op: Op)
    requires Durable(s) && KeyedDonor(op)
    ensures Replayed(s.store).Ok? && Replay(Replayed(s.store).value, NextEntries(s, op)).Ok?
    ensures Replayed(Extended(s.store, NextEntries(s, op))) == Replay(Replayed(s.store).value, NextEntries(s, op))
  {
    hide Apply, NextEntries, Saver, Replay, Extended;
    DurableAttached(s);
    ExtendedReplay(s.store, NextEntries(s, op));
    if Saves(op) {
      SaverReady(s, op);
    } else {
      DurableOp(s, op, {});
      OpStore(s, op);
      DurableAttached(Apply(s, op));
    }
  }

  /** Before the save of a snapshot, a crash leaves the old directory with the first few entries appended. */
  lemma AppendCrash(s: ReplicaState, op: Op, i: nat)
    requires Durable(s) && KeyedDonor(op) && i < SavePoint(s, op)
    ensures var d := DiskAt(s, op, i);
            && d == Extended(s.store, NextEntries(s, op)[..i])
            && DiskOk(d) && d.Latest() == s.store.Latest()
            && Replayed(d) == Replay(Replayed(s.store).value, NextEntries(s, op)[..i])
  {
    hide Durable, NextEntries, Saver, Replay, Extended, DiskOk, Store.Latest, ReplicaState.SnapshotWrites;
    var es := NextEntries(s, op);
    DurableAttached(s);
    DurableDisk(s);
    EntriesReplay(s, op);
    ReplayPrefix(Replayed(s.store).value, es, i);
    ExtendedDisk(s.store, es[..i]);
    ExtendedTwice(s.store, [], []);
    assert es[..0] == [];
    assert DiskAt(s, op, i) == LogWrites(s, es)[i];
  }

  /** From the save on it leaves what taking the snapshot leaves. */
  lemma SaveCrash(s: ReplicaState, op: Op, i: nat)
    requires s.walAttached && Saves(op) && i >= SavePoint(s, op)
    ensures DiskAt(s, op, i) == Pick(Saver(s, op).SnapshotWrites(), i - |NextEntries(s, op)|)
  {
    var ws, ls := Saver(s, op).SnapshotWrites(), LogWrites(s, NextEntries(s, op));
    hide NextEntries, Saver, ReplicaState.SnapshotWrites, LogWrites, Pick;
    PickLater(ls, ws, i);
  }

  /** Indexing a list continued by all but the first of another. */
  lemma PickLater(a: seq<Store>, b: seq<Store>, i: nat)
    requires |a| >= 1 && |b| >= 2 && i >= |a|
    ensures Pick(a + b[1..], i) == Pick(b, i - |a| + 1)
  {
  }

  lemma {:induction false} ViewEntriesOnly(view: nat, target: nat)
    ensures !HasCommit(ViewEntries(view, target))
    decreases target - view
  {
    if view < target { ViewEntriesOnly(view + 1, target); }
  }

  lemma HasCommitConcat(a: seq<LogEntry>, b: seq<LogEntry>)
    ensures HasCommit(a + b) <==> HasCommit(a) || HasCommit(b)
  {
    if HasCommit(a) {
      var i :| 0 <= i < |a| && a[i].BlockCommitted?;
      assert (a + b)[i].BlockCommitted?;
    }
    if HasCommit(b) {
      var i :| 0 <= i < |b| && b[i].BlockCommitted?;
      assert (a + b)[|a| + i].BlockCommitted?;
    }
  }

  /** What a saving operation appends first holds no commit. */
  lemma SavesNoCommit(s: ReplicaState, op: Op)
    requires Saves(op)
    ensures !HasCommit(NextEntries(s, op))
    ensures HasCommit(Extended(s.store, NextEntries(s, op)).Entries()) <==> HasCommit(s.store.Entries())
  {
    hide Recover, Restarted;
    if op.Rejoin? {
      ViewEntriesOnly(Restarted(s).currentView, op.target);
      HasCommitConcat(Regenesis(s), ViewEntries(Restarted(s).currentView, op.target));
    }
    HasCommitConcat(s.store.Entries(), NextEntries(s, op));
  }

  /** The latest snapshot after a crash: the new one from its save on. */
  ghost function LatestAfter(s: ReplicaState, m: Move): Option<Snapshot> {
    if Saves(m.op) && (m.Do? || m.writes >= SavePoint(s, m.op)) then Some(Saver(s, m.op).Capture())
    else s.store.Latest()
  }

  lemma SaveDisk(s: ReplicaState, op: Op, i: nat)
    requires Durable(s) && KeyedDonor(op) && Saves(op) && i >= SavePoint(s, op)
    ensures var d, y := DiskAt(s, op, i), Saver(s, op);
            && d.Latest() == Some(y.Capture())
            && (Replayed(d).Err? <==> (i <= SavePoint(s, op) + 2 || s.store.leftover) && HasCommit(s.store.Entries()))
            && (Replayed(d).Ok? ==> DiskOk(d))
  {
    hide Durable, NextEntries, Saver, Replayed, ReplicaState.SnapshotWrites, ReplicaState.Capture, Store.Latest,
      HasCommit, DiskAt, DiskOk, Behind;
    var y, k := Saver(s, op), i - |NextEntries(s, op)|;
    DurableAttached(s);
    SaveCrash(s, op, i);
    SaverReady(s, op);
    SavesNoCommit(s, op);
    BehindAttached(y);
    BehindFiled(y);
    var j := if k < |y.SnapshotWrites()| then k else |y.SnapshotWrites()| - 1;
    SnapshotCrash(y, j);
    WindowReplay(y, j);
  }

  lemma BehindFiled(s: ReplicaState)
    requires Behind(s)
    ensures Filed(s)
  {
    hide Replayed;
  }

  /** Recovery after a crash at any point of any operation succeeds, except in the window of a snapshot, when the
      log holds a commit. */
  lemma CrashDisk(s: ReplicaState, op: Op, i: nat)
    requires Durable(s) && KeyedDonor(op)
    ensures Replayed(DiskAt(s, op, i)).Err? <==> Refused(s, op, i)
    ensures !Refused(s, op, i) ==> DiskOk(DiskAt(s, op, i))
    ensures DiskAt(s, op, i).Latest() == LatestAfter(s, CrashIn(op, i))
  {
    hide Durable, NextEntries, Saver, Replayed, ReplicaState.SnapshotWrites, ReplicaState.Capture, Store.Latest,
      HasCommit, DiskAt;
    if i < SavePoint(s, op) {
      AppendCrash(s, op, i);
    } else if Saves(op) {
      SaveDisk(s, op, i);
    } else {
      PastEnd(s, op, i);
      AppendCrash(s, op, |NextEntries(s, op)|);
    }
    assert DiskOk(DiskAt(s, op, i)) ==> Replayed(DiskAt(s, op, i)).Ok?;
  }

  lemma BehindAttached(s: ReplicaState)
    requires Behind(s)
    ensures s.walAttached && |s.SnapshotWrites()| == if s.store.leftover then 3 else 6
  {
  }

  lemma PastEnd(s: ReplicaState, op: Op, i: nat)
    requires Durable(s) && !Saves(op) && i >= SavePoint(s, op)
    ensures DiskAt(s, op, i) == DiskAt(s, op, |NextEntries(s, op)|)
  {
    DurableAttached(s);
    hide Durable, NextEntries;
  }

  lemma RecoverIff(config: Config, keys: KeyStore, store: Store)
    ensures Recover(config, keys, store).Ok? <==> Replayed(store).Ok?
    ensures Replayed(store).Ok? ==>
              var r := Recover(config, keys, store).value;
              && r.currentView == Replayed(store).value.view && r.highQc == Replayed(store).value.highQc
              && r.committedLog == Replayed(store).value.log
  {
    hide Replayed;
  }

  /** Recovery after a crash is refused exactly between the save of a snapshot and the truncation of the log, when
      that log holds a commit. */
  lemma CrashRefusedIff(s: ReplicaState, op: Op, writes: nat)
    requires Durable(s) && KeyedDonor(op)
    ensures Recover(s.config, s.keystore, DiskAt(s, op, writes)).Err? <==> Refused(s, op, writes)
  {
    CrashDisk(s, op, writes);
    RecoverIff(s.config, s.keystore, DiskAt(s, op, writes));
    hide DiskAt, Replayed, Recover, Refused;
  }

  lemma DurableCrash(s: ReplicaState, op: Op, writes: nat)
    requires Durable(s) && GoesOn(s, CrashIn(op, writes))
    ensures BackFrom(Moved(s, CrashIn(op, writes)), LatestAfter(s, CrashIn(op, writes)))
  {
    hide Durable, DiskOk, RestartedOn, Recover, BackFrom, LatestAfter, DiskAt, Refused;
    CrashDisk(s, op, writes);
    CrashRefusedIff(s, op, writes);
    DiskBack(s, DiskAt(s, op, writes));
  }

  lemma DurableMove(s: ReplicaState, m: Move, own: set<Hash>)
    requires Durable(s) && GoesOn(s, m) && !SpoilsNow(s, m)
    ensures Durable(Moved(s, m))
    ensures DurableTree(s, own) ==> DurableTree(Moved(s, m), OwnAfter(s, m, own))
  {
    hide Durable, DurableTree, Apply, DiskAt, RestartedOn, Recover, OwnAfter;
    match m
    case Do(op) => DurableOp(s, op, own);
    case CrashIn(op, writes) =>
      DurableCrash(s, op, writes);
      BackParts(Moved(s, m), LatestAfter(s, m));
      OwnGone(s, m, own);
  }

  lemma BackParts(t: ReplicaState, latest: Option<Snapshot>)
    requires BackFrom(t, latest)
    ensures Durable(t) && DurableTree(t, {})
  {
  }

  lemma OwnGone(s: ReplicaState, m: Move, own: set<Hash>)
    requires m.CrashIn?
    ensures OwnAfter(s, m, own) == {}
  {
  }

  // ----- Replicas that run on but cannot be recovered -----

  /** The disk gives back the memory, or the replica is spoiled and recovery is refused. */
  ghost predicate Kept(s: ReplicaState) {
    Durable(s) || Spoiled(s)
  }

  lemma SpoiledIsNotDurable(s: ReplicaState)
    requires Spoiled(s)
    ensures !Durable(s) && Replayed(s.store).Err? && s.store.leftover && s.walAttached && s.store.log.Some?
    ensures Recover(s.config, s.keystore, s.store).Err?
  {
    MisfitRefused(s.store);
  }

  /** Appending to a log that does not fit its snapshot does not make it fit. */
  lemma SpoiledAppends(s: ReplicaState, t: ReplicaState, es: seq<LogEntry>)
    requires Spoiled(s) && t.store == Extended(s.store, es)
    requires t.walAttached && Keyed(t.blockTree) && t.blockTree != map[] && t.snapshotCounter == s.snapshotCounter
    requires |t.committedLog| >= |s.committedLog|
    ensures Spoiled(t)
  {
    MisfitStays(s.store, es);
    ExtendedReplay(s.store, es);
    NumbersStay(s.store, es, s.snapshotCounter + 1);
    hide Misfit, Store.Latest, NumbersBelow;
  }

  /** What operations other than recoveries and snapshots keep. */
  ghost predicate OpKept(s: ReplicaState, t: ReplicaState) {
    && t.walAttached == s.walAttached && Keyed(t.blockTree) && t.blockTree != map[]
    && t.snapshotCounter == s.snapshotCounter && |t.committedLog| >= |s.committedLog|
  }

  lemma OpKeeps(s: ReplicaState, op: Op)
    requires !Saves(op) && !Recovers(op) && Keyed(s.blockTree) && s.blockTree != map[]
    ensures OpKept(s, Apply(s, op))
  {
    hide OpKept, Keyed, ReplicaState.HandleVote, ReplicaState.ApplyHighQc, ReplicaState.ProposeWithHash,
      ReplicaState.ProposeNextWithHash, ReplicaState.InsertProposal, ReplicaState.CommitEach,
      ReplicaState.AdvanceView, Commits, Pending;
    match op
    case CommitReady => CommitsKeep(s, Commits(s.blockTree, s.committedLog));
    case ReceiveVote(vote) => VoteKeeps(s, vote);
    case Propose(view, hash, now) => ProposalKeeps(s, view, hash, now);
    case ProposeNext(view, hash, now) => NextKeeps(s, view, hash, now);
    case _ => OtherKeeps(s, op);
  }

  lemma CommitsKeep(s: ReplicaState, bs: seq<Block>)
    requires Keyed(s.blockTree) && s.blockTree != map[]
    ensures OpKept(s, s.CommitEach(bs))
  {
    hide ReplicaState.CommitEach;
    CommitEachAppends(s, bs);
    CommitEachSnapshots(s, bs);
    CommitEachAttached(s, bs);
  }

  lemma VoteKeeps(s: ReplicaState, vote: Vote)
    requires Keyed(s.blockTree) && s.blockTree != map[]
    ensures OpKept(s, s.HandleVote(vote).0)
  {
    hide ReplicaState.Accepts, Keyed;
  }

  lemma ProposalKeeps(s: ReplicaState, view: nat, hash: Hash, now: nat)
    requires Keyed(s.blockTree) && s.blockTree != map[]
    ensures OpKept(s, s.ProposeWithHash(view, hash, now).0)
  {
    hide ReplicaState.IsLeader, LatestHash;
  }

  lemma NextKeeps(s: ReplicaState, view: nat, hash: Hash, now: nat)
    requires Keyed(s.blockTree) && s.blockTree != map[]
    ensures OpKept(s, s.ProposeNextWithHash(view, hash, now).0)
  {
    hide ReplicaState.IsLeader, LatestHash, ReplicaState.ShouldProposeDummy, ReplicaState.ProposeWithHash;
    ProposalKeeps(s, view, hash, now);
  }

  lemma OtherKeeps(s: ReplicaState, op: Op)
    requires op.LearnQc? || op.Enqueue? || op.ReceiveBlock? || op.Advance?
    requires Keyed(s.blockTree) && s.blockTree != map[]
    ensures OpKept(s, Apply(s, op))
  {
    hide ReplicaState.ValidProposal, ReplicaState.Newer;
  }

  lemma {:induction false} CommitEachAttached(s: ReplicaState, bs: seq<Block>)
    ensures s.CommitEach(bs).walAttached == s.walAttached
    decreases |bs|
  {
    if bs != [] {
      CommitAppends(s, bs[0]);
      CommitEachAttached(s.ExecuteAndCommit(bs[0]), bs[1..]);
    }
  }

  lemma SpoiledParts(s: ReplicaState)
    requires Spoiled(s)
    ensures s.walAttached && s.store.log.Some? && s.store.leftover && Keyed(s.blockTree) && s.blockTree != map[]
  {
  }

  /** A spoiled replica stays spoiled whatever it does next. */
  lemma SpoiledOp(s: ReplicaState, op: Op)
    requires Spoiled(s) && !Recovers(op)
    ensures Spoiled(Apply(s, op))
    ensures op.Snap? ==> Apply(s, op).store.Latest() == Some(s.Capture())
  {
    hide Spoiled, Apply, NextEntries, ReplicaState.Capture, ReplicaState.TakeSnapshot, Store.Latest;
    SpoiledParts(s);
    if op.Snap? {
      SpoiledSnapshot(s);
      SaverTakes(s, op);
    } else {
      OpKeeps(s, op);
      OpStore(s, op);
      SpoiledAppends(s, Apply(s, op), NextEntries(s, op));
    }
  }

  /** And no crash makes it recoverable. */
  lemma SpoiledCrash(s: ReplicaState, op: Op, writes: nat)
    requires Spoiled(s) && !Recovers(op)
    ensures Misfit(DiskAt(s, op, writes))
  {
    hide NextEntries, ReplicaState.SnapshotWrites, Misfit, Extended, Store.Latest, ReplicaState.Capture, LogWrites,
      DiskAt;
    SpoiledParts(s);
    var n := |NextEntries(s, op)|;
    if Saves(op) && writes >= SavePoint(s, op) {
      SaveCrash(s, op, writes);
      BlockedWrites(s);
      var k := writes - n;
      SpoiledOlder(s);
      SavedMisfits(s, if k < 3 then k else 2);
    } else {
      var i := if writes < n then writes else n;
      AppendedDisk(s, op, writes);
      MisfitStays(s.store, NextEntries(s, op)[..i]);
    }
  }

  lemma SpoiledOlder(s: ReplicaState)
    requires Spoiled(s)
    ensures HasCommit(s.store.Entries()) && FirstIndex(s.store.Entries()) < |s.committedLog|
  {
  }

  /** Short of the save of a snapshot, a crash leaves the directory with the first few entries appended. */
  lemma AppendedDisk(s: ReplicaState, op: Op, writes: nat)
    requires s.walAttached && s.store.log.Some? && (Saves(op) ==> writes < SavePoint(s, op))
    ensures var n := |NextEntries(s, op)|;
            DiskAt(s, op, writes) == Extended(s.store, NextEntries(s, op)[..if writes < n then writes else n])
  {
    hide NextEntries, Saver, ReplicaState.SnapshotWrites;
    var es := NextEntries(s, op);
    ExtendedTwice(s.store, [], []);
    assert es[..0] == [];
    assert |LogWrites(s, es)| == |es| + 1;
  }

  /** Recovery succeeds, so the replica is not spoiled. */
  lemma RecoveredIsDurable(s: ReplicaState, m: Move)
    requires Kept(s) && GoesOn(s, m) && (Recovers(m.op) || m.CrashIn?)
    ensures Durable(s)
  {
    hide Durable, DiskAt, Recover, Misfit;
    if Spoiled(s) {
      SpoiledIsNotDurable(s);
      if !Recovers(m.op) {
        SpoiledCrash(s, m.op, m.writes);
        MisfitRefused(DiskAt(s, m.op, m.writes));
        RecoverIff(s.config, s.keystore, DiskAt(s, m.op, m.writes));
      }
      assert false;
    }
  }

  /** Every move of a run keeps the replica in one of the two states, and only one kind of move leads from the first
      to the second. */
  lemma KeptMove(s: ReplicaState, m: Move, own: set<Hash>)
    requires Kept(s) && GoesOn(s, m)
    ensures Kept(Moved(s, m))
    ensures Spoiled(Moved(s, m)) <==> Spoiled(s) || SpoilsNow(s, m)
    ensures Durable(s) && DurableTree(s, own) && Durable(Moved(s, m))
            ==> DurableTree(Moved(s, m), OwnAfter(s, m, own))
  {
    hide Durable, Spoiled, DurableTree, OwnAfter, Apply, DiskAt, Recover, HasCommit, RestartedOn, Saver;
    if m.CrashIn? || Recovers(m.op) { RecoveredIsDurable(s, m); }
    if Durable(s) && !SpoilsNow(s, m) {
      DurableMove(s, m, own);
    } else if Durable(s) {
      DurableSave(s, m.op, own);
    } else {
      SpoiledOp(s, m.op);
    }
    if Spoiled(Moved(s, m)) { SpoiledIsNotDurable(Moved(s, m)); }
    if Spoiled(s) { SpoiledIsNotDurable(s); }
  }

  /** Somewhere in the run a snapshot is saved over a log with a commit that cannot be truncated. */
  ghost predicate Spoils(s: ReplicaState, moves: seq<Move>)
    decreases |moves|
  {
    moves != [] && (SpoilsNow(s, moves[0]) || Spoils(Moved(s, moves[0]), moves[1..]))
  }

  lemma {:induction false} KeptRun(s: ReplicaState, moves: seq<Move>, own: set<Hash>)
    requires Kept(s) && (Durable(s) ==> DurableTree(s, own)) && Survives(s, moves)
    ensures Kept(Run(s, moves))
    ensures Spoiled(Run(s, moves)) <==> Spoiled(s) || Spoils(s, moves)
    ensures Durable(Run(s, moves)) ==> DurableTree(Run(s, moves), OwnRun(s, moves, own))
    decreases |moves|
  {
    hide Durable, Spoiled, DurableTree, Moved, OwnAfter, GoesOn, SpoilsNow;
    if moves != [] {
      KeptMove(s, moves[0], own);
      if Durable(Moved(s, moves[0])) {
        DurableWasDurable(s, moves[0]);
      }
      KeptRun(Moved(s, moves[0]), moves[1..], OwnAfter(s, moves[0], own));
    }
  }

  lemma DurableWasDurable(s: ReplicaState, m: Move)
    requires Kept(s) && GoesOn(s, m) && Durable(Moved(s, m))
    ensures Durable(s)
  {
    hide Durable, Spoiled, Moved, GoesOn, DurableTree;
    KeptMove(s, m, {});
    if Spoiled(s) { SpoiledIsNotDurable(Moved(s, m)); }
  }

  // ----- The certificate pointer while the temporary file is there -----

  /** The one move that can make the disk's certificate pointer fall behind. */
  predicate LosesPointer(s: ReplicaState, m: Move) {
    m.Do? && m.op.Rejoin? && s.store.leftover
  }

  ghost predicate KeepsPointer(s: ReplicaState, moves: seq<Move>)
    decreases |moves|
  {
    moves == [] || (!LosesPointer(s, moves[0]) && KeepsPointer(Moved(s, moves[0]), moves[1..]))
  }

  predicate NoQcEntry(es: seq<LogEntry>) {
    forall i :: 0 <= i < |es| ==> !es[i].QCFormed? && !es[i].HighQCUpdated?
  }

  lemma {:induction false} QcUnchanged(qc: Option<QuorumCert>, es: seq<LogEntry>)
    requires NoQcEntry(es)
    ensures QcAfter(qc, es) == qc
    decreases |es|
  {
    if es != [] {
      assert forall i :: 0 <= i < |es| - 1 ==> es[..|es| - 1][i] == es[i];
      QcUnchanged(qc, es[..|es| - 1]);
    }
  }

  /** The entries an operation appends say what it does to the certificate pointer. */
  lemma PointerAfter(s: ReplicaState, op: Op)
    requires !Saves(op) && !Recovers(op)
    ensures PointerOf(Apply(s, op).highQc) == QcAfter(PointerOf(s.highQc), NextEntries(s, op))
  {
    hide ReplicaState.CommitEach, Commits, ReplicaState.IsLeader, ReplicaState.ValidProposal, LatestHash, Pending,
      ReplicaState.Accepts, ReplicaState.Newer, ReplicaState.QuorumSize;
    var es := NextEntries(s, op);
    match op
    case ReceiveVote(vote) =>
      if es != [] { assert es[..1] == [es[0]] && es[0..0] == []; }
    case LearnQc(qc) =>
    case CommitReady =>
      CommitEachQc(s, Commits(s.blockTree, s.committedLog));
      QcUnchanged(PointerOf(s.highQc), es);
    case _ => QcUnchanged(PointerOf(s.highQc), es);
  }

  lemma {:induction false} CommitEachQc(s: ReplicaState, bs: seq<Block>)
    ensures s.CommitEach(bs).highQc == s.highQc
    decreases |bs|
  {
    if bs != [] {
      CommitEachQc(s.ExecuteAndCommit(bs[0]), bs[1..]);
    }
  }

  /** The pointer recovery finds after a snapshot whose truncation failed: that of the snapshot, moved on once more by
      the log that is still there. */
  lemma BlockedPointer(s: ReplicaState)
    requires Behind(s) && s.store.leftover && !HasCommit(s.store.Entries())
    ensures Replayed(s.TakeSnapshot().store).Ok?
    ensures Replayed(s.TakeSnapshot().store).value.highQc == QcAfter(PointerOf(s.highQc), s.store.Entries())
  {
    hide ReplicaState.SnapshotWrites, ReplicaState.Capture, Store.Latest, HasCommit, ReplicaState.TakeSnapshot,
      SameTree, NumbersBelow, Replay;
    BlockedWrites(s);
    WindowReplay(s, 2);
    SnapshotCrash(s, 2);
    ReplayQc(Base(s.SnapshotWrites()[2]), s.store.Entries());
  }

  lemma PointedReplay(s: ReplicaState)
    requires Pointed(s)
    ensures PointerOf(s.highQc) == QcAfter(Base(s.store).highQc, s.store.Entries())
  {
    ReplayQc(Base(s.store), s.store.Entries());
  }

  lemma PointedOp(s: ReplicaState, op: Op)
    requires Durable(s) && Pointed(s) && KeyedDonor(op) && !SpoilsNow(s, Do(op)) && !LosesPointer(s, Do(op))
    ensures Pointed(Apply(s, op))
  {
    hide Durable, NextEntries, Apply, Saver, Replay, Extended, HasCommit, DurableTree, Base, ReplicaState.TakeSnapshot;
    DurableOp(s, op, {});
    if Saves(op) && s.store.leftover {
      DurableBehind(s);
      PointedReplay(s);
      BlockedPointer(s);
      QcAgain(Base(s.store).highQc, s.store.Entries());
      SnapTakes(s, op);
    } else if Saves(op) {
      FinishedLeaves(s, op);
      DurablePointed(Apply(s, op));
    } else if Recovers(op) {
      DurableRestart(s);
      DurableDisk(s);
      RestartIs(s, op);
      RestartPointed(s);
    } else {
      DurableAttached(s);
      OpStore(s, op);
      EntriesReplay(s, op);
      ReplayQc(Replayed(s.store).value, NextEntries(s, op));
      PointerAfter(s, op);
    }
  }

  lemma SnapTakes(s: ReplicaState, op: Op)
    requires op.Snap?
    ensures Apply(s, op) == s.TakeSnapshot() && s.TakeSnapshot().highQc == s.highQc
  {
    hide ReplicaState.SnapshotWrites;
  }

  lemma FinishedLeaves(s: ReplicaState, op: Op)
    requires Durable(s) && KeyedDonor(op) && Saves(op) && !s.store.leftover
    ensures !Apply(s, op).store.leftover
  {
    hide Durable, Saver, NextEntries, ReplicaState.TakeSnapshot, Behind;
    SaverReady(s, op);
    SaverTakes(s, op);
    BehindAttached(Saver(s, op));
    SnapshotLeaves(Saver(s, op));
    hide Apply;
  }

  lemma DurablePointed(s: ReplicaState)
    requires Durable(s) && !s.store.leftover
    ensures Pointed(s)
  {
    hide Replayed;
  }

  /** What recovery finds is what it takes into memory. */
  lemma RestartPointed(s: ReplicaState)
    requires DiskOk(s.store)
    ensures Recover(s.config, s.keystore, s.store).Ok? && Pointed(Restarted(s))
  {
    DiskRestart(s.config, s.keystore, s.store);
    var t := Recover(s.config, s.keystore, s.store).value;
    RestartStore(s);
    hide Attached, DiskOk, Durable, DurableTree, Recover, Replay;
    ExtendedReplay(s.store, Regenesis(s));
    ReplayQc(Replayed(s.store).value, Regenesis(s));
    QcUnchanged(Replayed(s.store).value.highQc, Regenesis(s));
  }

  lemma PointedMove(s: ReplicaState, m: Move)
    requires Durable(s) && GoesOn(s, m) && !SpoilsNow(s, m) && !LosesPointer(s, m)
    requires Pointed(s)
    ensures Pointed(Moved(s, m))
  {
    hide Durable, Pointed, Apply, DiskAt, DiskOk, Recover, Refused, Restarted;
    match m
    case Do(op) => PointedOp(s, op);
    case CrashIn(op, writes) =>
      CrashRefusedIff(s, op, writes);
      CrashDisk(s, op, writes);
      RestartPointed(s.(store := DiskAt(s, op, writes)));
  }

  lemma {:induction false} PointedRun(s: ReplicaState, moves: seq<Move>)
    requires Durable(s) && Pointed(s) && Survives(s, moves) && !Spoils(s, moves) && KeepsPointer(s, moves)
    ensures Pointed(Run(s, moves))
    decreases |moves|
  {
    hide Durable, Pointed, Moved, GoesOn, SpoilsNow, LosesPointer, DurableTree;
    if moves != [] {
      DurableMove(s, moves[0], {});
      PointedMove(s, moves[0]);
      PointedRun(Moved(s, moves[0]), moves[1..]);
    }
  }

  // ----- Replay refines the run -----

  /** From an empty data directory, after any run of operations, snapshots, restarts, rejoins and crashes between any
      two durable writes of any of these, recovery fails if and only if a snapshot was saved over a log with a commit
      that could not be truncated. Otherwise it finds the live view and committed blocks, and the live tree but for
      this replica's own unlogged proposals. It finds the live certificate pointer unless a rejoin ran into a
      truncation that failed. */
  lemma ReplayRefinesRun(config: Config, keys: KeyStore, moves: seq<Move>)
    requires Survives(FreshDurable(config, keys), moves)
    ensures var blank := FreshDurable(config, keys);
            var live := Run(blank, moves);
            match Recover(config, keys, live.store)
            case Err(_) => Spoils(blank, moves)
            case Ok(found) =>
              && !Spoils(blank, moves)
              && found.currentView == live.currentView
              && KeysOf(found.committedLog) == KeysOf(live.committedLog)
              && found.committedUpTo == live.committedUpTo
              && SameTree(found.blockTree, live.blockTree, OwnRun(blank, moves, {}))
              && (KeepsPointer(blank, moves) ==> found.highQc == PointerOf(live.highQc))
  {
    var blank := FreshDurable(config, keys);
    var live := Run(blank, moves);
    FreshIsDurable(config, keys);
    FreshPointed(config, keys);
    KeptRun(blank, moves, {});
    hide Run, OwnRun, FreshDurable, Replayed, Spoils, KeepsPointer, Survives, Durable, Spoiled, DurableTree;
    if Spoiled(blank) { SpoiledIsNotDurable(blank); }
    RecoverIff(config, keys, live.store);
    if Spoiled(live) {
      SpoiledIsNotDurable(live);
    } else {
      RecoverFinds(live, config, keys, OwnRun(blank, moves, {}));
      if KeepsPointer(blank, moves) { PointedRun(blank, moves); }
    }
  }

  lemma FreshPointed(config: Config, keys: KeyStore)
    ensures Pointed(FreshDurable(config, keys))
  {
    FreshIsDurable(config, keys);
    DurablePointed(FreshDurable(config, keys));
    hide Durable;
  }

  lemma RecoverFinds(live: ReplicaState, config: Config, keys: KeyStore, own: set<Hash>)
    requires Durable(live) && DurableTree(live, own)
    ensures var found := Recover(config, keys, live.store);
            && found.Ok? && found.value.currentView == live.currentView
            && KeysOf(found.value.committedLog) == KeysOf(live.committedLog)
            && found.value.committedUpTo == live.committedUpTo
            && SameTree(found.value.blockTree, live.blockTree, own)
            && (Pointed(live) ==> found.value.highQc == PointerOf(live.highQc))
  {
    hide Replayed;
  }

  // ----- What a crash loses -----

  lemma {:induction false} ReplayGrows(r: Recovered, es: seq<LogEntry>)
    requires Replay(r, es).Ok?
    ensures r.log <= Replay(r, es).value.log
    decreases |es|
  {
    if es != [] { ReplayGrows(r, es[..|es| - 1]); }
  }

  lemma SameKeysSameHashes(a: seq<Block>, b: seq<Block>)
    requires KeysOf(a) == KeysOf(b)
    ensures Hashes(a) == Hashes(b)
  {
    assert |a| == |KeysOf(a)| == |KeysOf(b)| == |b|;
    forall i | 0 <= i < |a| ensures Hashes(a)[i] == Hashes(b)[i] {
      assert KeysOf(a)[i] == KeysOf(b)[i];
    }
  }

  lemma PrefixHashes(a: seq<Block>, b: seq<Block>)
    requires a <= b
    ensures Hashes(a) <= Hashes(b)
  {
    assert forall i :: 0 <= i < |a| ==> a[i] == b[..|a|][i];
  }

  lemma HashPrefixHashes(a: seq<Block>, b: seq<Block>)
    requires HashPrefix(a, b)
    ensures Hashes(a) <= Hashes(b)
  {
  }

  /** A rejoined replica's log extends the one its disk held. */
  lemma SavedLog(s: ReplicaState, op: Op)
    requires Durable(s) && Saves(op) && KeyedDonor(op)
    ensures Hashes(s.committedLog) <= Hashes(Saver(s, op).committedLog)
    ensures Apply(s, op).committedLog == Saver(s, op).committedLog
  {
    hide Durable, DurableTree, Behind, Restarted, NextEntries, SyncWith, ReplicaState.TakeSnapshot;
    SnapshotMemory(Saver(s, op));
    SaverReady(s, op);
    if op.Rejoin? {
      DurableRestart(s);
      SameKeysSameHashes(Restarted(s).committedLog, s.committedLog);
      HashPrefixHashes(Restarted(s).committedLog, Saver(s, op).committedLog);
    }
  }

  lemma MirrorLog(s: ReplicaState)
    requires Durable(s)
    ensures Hashes(Replayed(s.store).value.log) == Hashes(s.committedLog)
  {
    SameKeysSameHashes(Replayed(s.store).value.log, s.committedLog);
    hide Replayed;
  }

  /** Appended entries of a saving operation leave the log as it was; all others lead to the log afterwards. */
  lemma AppendedLog(s: ReplicaState, op: Op)
    requires Durable(s) && KeyedDonor(op)
    ensures Replayed(s.store).Ok? && Replay(Replayed(s.store).value, NextEntries(s, op)).Ok?
    ensures Hashes(Replay(Replayed(s.store).value, NextEntries(s, op)).value.log) <= Hashes(Apply(s, op).committedLog)
  {
    hide Durable, DurableTree, Apply, NextEntries, Saver, Replayed, Extended;
    DurableAttached(s);
    EntriesReplay(s, op);
    if Saves(op) {
      SavesNoCommit(s, op);
      ReplayFirstCommit(Replayed(s.store).value, NextEntries(s, op));
      SavedLog(s, op);
      MirrorLog(s);
    } else {
      DurableOp(s, op, {});
      DurableDisk(s);
      OpStore(s, op);
      MirrorLog(Apply(s, op));
    }
  }

  /** A crash at any point of any operation loses no commit made before it and adds none but those of the
      operation, in their order. */
  lemma CrashKeepsCommits(s: ReplicaState, op: Op, writes: nat)
    requires Durable(s) && GoesOn(s, CrashIn(op, writes))
    ensures var found := Recover(s.config, s.keystore, DiskAt(s, op, writes)).value;
            Hashes(s.committedLog) <= Hashes(found.committedLog) <= Hashes(Apply(s, op).committedLog)
  {
    hide Durable, DurableTree, Apply, NextEntries, Saver, Replayed, Extended, Recover, DiskAt, Refused, DiskOk,
      HashPrefix;
    DurableAttached(s);
    CrashRefusedIff(s, op, writes);
    RecoverIff(s.config, s.keystore, DiskAt(s, op, writes));
    if Saves(op) && writes >= SavePoint(s, op) {
      SavedLogAt(s, op, writes);
    } else {
      var i := if writes < SavePoint(s, op) then writes else |NextEntries(s, op)|;
      if writes >= SavePoint(s, op) { PastEnd(s, op, writes); }
      AppendedLogAt(s, op, i);
    }
  }

  lemma SavedLogAt(s: ReplicaState, op: Op, i: nat)
    requires Durable(s) && KeyedDonor(op) && Saves(op) && i >= SavePoint(s, op) && !Refused(s, op, i)
    ensures Replayed(DiskAt(s, op, i)).Ok?
    ensures Hashes(s.committedLog) <= Hashes(Replayed(DiskAt(s, op, i)).value.log) == Hashes(Apply(s, op).committedLog)
  {
    hide Durable, NextEntries, Saver, Replayed, ReplicaState.SnapshotWrites, ReplicaState.Capture, Store.Latest,
      HasCommit, DiskAt, Apply;
    var y, k := Saver(s, op), i - |NextEntries(s, op)|;
    DurableAttached(s);
    SaveCrash(s, op, i);
    SaverReady(s, op);
    SavesNoCommit(s, op);
    BehindAttached(y);
    SnapshotCrash(y, if k < |y.SnapshotWrites()| then k else |y.SnapshotWrites()| - 1);
    SavedLog(s, op);
    if Replayed(DiskAt(s, op, i)).Ok? {
      SameKeysSameHashes(Replayed(DiskAt(s, op, i)).value.log, y.committedLog);
    }
  }

  lemma AppendedLogAt(s: ReplicaState, op: Op, i: nat)
    requires Durable(s) && KeyedDonor(op) && i < SavePoint(s, op)
    ensures Replayed(DiskAt(s, op, i)).Ok?
    ensures Hashes(s.committedLog) <= Hashes(Replayed(DiskAt(s, op, i)).value.log) <= Hashes(Apply(s, op).committedLog)
  {
    hide Durable, NextEntries, Replayed, DiskAt, Apply, Saves, DiskOk, Hashes;
    AppendCrash(s, op, i);
    AppendedLog(s, op);
    MirrorLog(s);
    var r, es := Replayed(s.store).value, NextEntries(s, op);
    ReplayPrefix(r, es, i);
    ReplayGrows(r, es[..i]);
    assert es == es[..i] + es[i..];
    ReplayConcat(r, es[..i], es[i..]);
    ReplayGrows(Replay(r, es[..i]).value, es[i..]);
    PrefixHashes(r.log, Replay(r, es[..i]).value.log);
    PrefixHashes(Replay(r, es[..i]).value.log, Replay(r, es).value.log);
  }

  lemma OnlyAppends(s: ReplicaState, op: Op, i: nat)
    requires Durable(s) && !Saves(op) && i <= |NextEntries(s, op)|
    ensures DiskAt(s, op, i) == LogWrites(s, NextEntries(s, op))[i]
  {
    DurableAttached(s);
    hide Durable, NextEntries;
  }

  /** A crash in a commit pass, after any number of its writes, recovers exactly the commits written so far. */
  lemma CommitPassCrash(s: ReplicaState, writes: nat)
    requires Durable(s) && writes <= |Commits(s.blockTree, s.committedLog)|
    ensures var found := Recover(s.config, s.keystore, DiskAt(s, CommitReady, writes));
            && found.Ok? && found.value.currentView == s.currentView
            && KeysOf(found.value.committedLog) ==
               KeysOf(s.committedLog) + KeysOf(Commits(s.blockTree, s.committedLog)[..writes])
  {
    hide Durable, Commits, Recover, DiskAt, LogWrites, CommitEntries, KeysOf;
    OnlyAppends(s, CommitReady, writes);
    CommitCrash(s, Commits(s.blockTree, s.committedLog), writes);
  }

  /** What the first few of the two certificate entries replay to. */
  lemma ReplayFormed(r: Recovered, hash: Hash, view: nat, epoch: nat, count: nat, i: nat)
    requires i <= 2
    ensures var q := Replay(r, [QCFormed(hash, view, epoch, count), HighQCUpdated(hash, view, epoch)][..i]);
            && q.Ok? && q.value.view == r.view && q.value.log == r.log
            && q.value.highQc == if i == 2 || (i == 1 && (r.highQc.None? || view > r.highQc.value.view))
                                 then Some(QuorumCert(hash, view, epoch, [])) else r.highQc
  {
    var e1, e2 := QCFormed(hash, view, epoch, count), HighQCUpdated(hash, view, epoch);
    assert [e1, e2][..0] == [] && [e1, e2][..1] == [] + [e1] && [e1, e2][..2] == ([] + [e1]) + [e2];
    ReplaySnoc(r, [], e1);
    ReplaySnoc(r, [] + [e1], e2);
  }

  lemma FormedEntries(s: ReplicaState, vote: Vote)
    requires s.HandleVote(vote).1.Some?
    ensures NextEntries(s, ReceiveVote(vote)) ==
            [QCFormed(vote.blockHash, vote.view, vote.epoch, |s.Pool(vote.blockHash)| + 1),
             HighQCUpdated(vote.blockHash, vote.view, vote.epoch)]
    ensures PointerOf(s.HandleVote(vote).1) == Some(QuorumCert(vote.blockHash, vote.view, vote.epoch, []))
  {
    hide ReplicaState.QuorumSize;
  }

  /** A crash around the two writes of a certificate recovers the pointer the disk had before them, the new one after
      them, and in between the new one if its view is larger than the other's. */
  lemma CertificateCrash(s: ReplicaState, vote: Vote, writes: nat)
    requires Durable(s) && s.HandleVote(vote).1.Some? && writes <= 2
    ensures var found := Recover(s.config, s.keystore, DiskAt(s, ReceiveVote(vote), writes));
            var formed := PointerOf(s.HandleVote(vote).1);
            && found.Ok? && found.value.currentView == s.currentView
            && KeysOf(found.value.committedLog) == KeysOf(s.committedLog)
            && found.value.highQc ==
               (var before := Replayed(s.store).value.highQc;
                if writes == 2 || (writes == 1 && (before.None? || vote.view > before.value.view)) then formed
                else before)
  {
    hide Replayed, Replay, DiskAt, DiskOk, Recover, NextEntries, ReplicaState.HandleVote, KeysOf, SameTree,
      NumbersBelow;
    var op := ReceiveVote(vote);
    FormedEntries(s, vote);
    AppendCrash(s, op, writes);
    ReplayFormed(Replayed(s.store).value, vote.blockHash, vote.view, vote.epoch, |s.Pool(vote.blockHash)| + 1, writes);
    RecoverIff(s.config, s.keystore, DiskAt(s, op, writes));
  }

  // ----- The temporary file of an unfinished truncation -----

  /** The one write after which a crash leaves the temporary file behind. */
  lemma LeftoverIff(s: ReplicaState, op: Op, writes: nat)
    requires Durable(s) && !s.store.leftover && KeyedDonor(op)
    ensures DiskAt(s, op, writes).leftover <==> Saves(op) && writes == SavePoint(s, op) + 2
  {
    hide Durable, NextEntries, Saver, ReplicaState.SnapshotWrites, ReplicaState.Capture, DiskOk, Replay, Replayed,
      Store.Latest, DiskAt;
    DurableAttached(s);
    if writes < SavePoint(s, op) {
      AppendCrash(s, op, writes);
    } else if Saves(op) {
      SaverReady(s, op);
      BehindAttached(Saver(s, op));
      SaveCrash(s, op, writes);
      WritesLeftover(Saver(s, op), writes - |NextEntries(s, op)|);
    } else {
      PastEnd(s, op, writes);
      AppendCrash(s, op, |NextEntries(s, op)|);
    }
  }

  lemma WritesLeftover(y: ReplicaState, k: nat)
    requires y.walAttached && !y.store.leftover
    ensures Pick(y.SnapshotWrites(), k).leftover <==> k == 3
  {
    hide ReplicaState.Capture, Store.Latest;
  }

  /** Once it is there it stays, through every run of operations and recoveries. */
  lemma {:induction false} LeftoverStays(s: ReplicaState, moves: seq<Move>)
    requires Kept(s) && Survives(s, moves) && s.store.leftover
    ensures Run(s, moves).store.leftover
    decreases |moves|
  {
    hide Kept, Durable, DurableTree, Moved, GoesOn, SpoilsNow;
    if moves != [] {
      KeptMove(s, moves[0], {});
      LeftoverMove(s, moves[0]);
      LeftoverStays(Moved(s, moves[0]), moves[1..]);
    }
  }

  lemma LeftoverMove(s: ReplicaState, m: Move)
    requires Kept(s) && GoesOn(s, m) && s.store.leftover
    ensures Moved(s, m).store.leftover
  {
    hide Durable, DurableTree, NextEntries, Apply, DiskAt, Recover, Replay, Replayed, Refused, Regenesis, RestartedOn,
      DiskOk, Spoiled, Saver;
    match m
    case Do(op) => LeftoverOp(s, op);
    case CrashIn(op, writes) =>
      RecoveredIsDurable(s, m);
      DurableAttached(s);
      CrashRefusedIff(s, op, writes);
      CrashDisk(s, op, writes);
      RestartedStore(s, DiskAt(s, op, writes));
      LeftoverDisk(s, op, writes);
  }

  lemma LeftoverDisk(s: ReplicaState, op: Op, writes: nat)
    requires Durable(s) && KeyedDonor(op) && s.store.leftover
    ensures DiskAt(s, op, writes).leftover
  {
    hide Durable, NextEntries, DiskAt, Saver, ReplicaState.SnapshotWrites, Behind;
    DurableAttached(s);
    if Saves(op) && writes >= SavePoint(s, op) {
      SaverReady(s, op);
      SaveCrash(s, op, writes);
      BehindLog(Saver(s, op));
      BehindAttached(Saver(s, op));
      BlockedWrites(Saver(s, op));
    } else {
      AppendedDisk(s, op, writes);
    }
  }

  lemma LeftoverOp(s: ReplicaState, op: Op)
    requires Kept(s) && GoesOn(s, Do(op)) && s.store.leftover
    ensures Apply(s, op).store.leftover
  {
    hide Durable, NextEntries, Apply, Saver, Behind, Spoiled, ReplicaState.SnapshotWrites, ReplicaState.TakeSnapshot,
      Recover;
    if Recovers(op) { RecoveredIsDurable(s, Do(op)); }
    if !Durable(s) {
      SpoiledOp(s, op);
      SpoiledParts(Apply(s, op));
    } else if Saves(op) {
      SaverReady(s, op);
      SaverTakes(s, op);
      BehindLog(Saver(s, op));
      BehindAttached(Saver(s, op));
      BlockedWrites(Saver(s, op));
    } else {
      DurableAttached(s);
      DurableDisk(s);
      OpStore(s, op);
    }
  }

  /** An operation that ends never brings the file about. */
  lemma LeftoverKept(s: ReplicaState, op: Op)
    requires Kept(s) && GoesOn(s, Do(op))
    ensures Apply(s, op).store.leftover == s.store.leftover
  {
    hide Durable, NextEntries, Apply, Saver, Spoiled, Recover;
    if s.store.leftover {
      LeftoverOp(s, op);
    } else {
      if Spoiled(s) { SpoiledParts(s); }
      if Saves(op) {
        FinishedLeaves(s, op);
      } else {
        DurableAttached(s);
        DurableDisk(s);
        OpStore(s, op);
      }
    }
  }

  /** While it is there a snapshot is saved but the log is not truncated, and the number is not used up. If the log
      holds a commit, recovery is refused at once and after every further run; if not, it is still possible. */
  lemma LeftoverSnapshot(s: ReplicaState, moves: seq<Move>)
    requires Durable(s) && s.store.leftover && Survives(s.TakeSnapshot(), moves)
    ensures var t := s.TakeSnapshot();
            && t.store.leftover && t.snapshotCounter == s.snapshotCounter
            && t.store.Latest() == Some(s.Capture())
            && t.store.Entries() == s.store.Entries() + [Marker(s)]
            && (Recover(s.config, s.keystore, t.store).Err? <==> HasCommit(s.store.Entries()))
            && (HasCommit(s.store.Entries()) ==> Recover(s.config, s.keystore, Run(t, moves).store).Err?)
  {
    hide Durable, Behind, Replayed, HasCommit, DiskOk, Spoiled, ReplicaState.TakeSnapshot, ReplicaState.Capture,
      Store.Latest, Recover, Run, Survives, Spoils, DurableTree;
    var t := s.TakeSnapshot();
    DurableBehind(s);
    DurableAttached(s);
    LeftoverWrites(s);
    BlockedSnapshot(s);
    RecoverIff(s.config, s.keystore, t.store);
    RecoverIff(s.config, s.keystore, Run(t, moves).store);
    if HasCommit(s.store.Entries()) {
      SpoiledIsNotDurable(t);
      KeptRun(t, moves, {});
      SpoiledIsNotDurable(Run(t, moves));
    } else {
      DurableAttached(t);
    }
  }

  lemma LeftoverWrites(s: ReplicaState)
    requires s.walAttached && s.store.leftover
    ensures |s.SnapshotWrites()| == 3 && s.SnapshotWrites()[2].leftover
    ensures s.SnapshotWrites()[2].Entries() == s.store.Entries() + [Marker(s)]
    ensures s.TakeSnapshot() == s.(store := s.SnapshotWrites()[2])
  {
    hide ReplicaState.Capture, Store.Latest;
  }

  // ----- Snapshot numbers -----

  /** The move gets as far as saving a snapshot. */
  ghost predicate SavesNow(s: ReplicaState, m: Move) {
    Saves(m.op) && (m.Do? || m.writes >= SavePoint(s, m.op))
  }

  /** A snapshot that was saved, and whether its number is used up by that: a truncation that fails leaves it to the
      next snapshot, unless the replica crashes. */
  datatype Save = Save(snapshot: Snapshot, used: bool)

  ghost function SaveOf(s: ReplicaState, m: Move): Save {
    Save(Saver(s, m.op).Capture(), m.CrashIn? || !s.store.leftover)
  }

  /** The snapshots a run saves, in order. */
  ghost function Saved(s: ReplicaState, moves: seq<Move>): seq<Save>
    decreases |moves|
  {
    if moves == [] then []
    else (if SavesNow(s, moves[0]) then [SaveOf(s, moves[0])] else []) + Saved(Moved(s, moves[0]), moves[1..])
  }

  /** Numbers from here on are at least low. */
  ghost predicate CounterAtLeast(s: ReplicaState, low: nat) {
    s.snapshotCounter >= low && (low > 0 ==> s.store.Latest().Some? && s.store.Latest().value.snapshotId >= low - 1)
  }

  lemma OtherOpsKeepSnapshots(s: ReplicaState, op: Op)
    requires Kept(s) && !Saves(op) && !Recovers(op)
    ensures Apply(s, op).store.Latest() == s.store.Latest() && Apply(s, op).snapshotCounter == s.snapshotCounter
  {
    hide Apply, Replayed, NextEntries, Store.Latest, Extended, Misfit;
    OpKeeps(s, op);
    OpStore(s, op);
    ExtendedReplay(s.store, NextEntries(s, op));
  }

  /** The counter a recovered replica starts from. */
  lemma RestartCounter(s: ReplicaState, low: nat)
    requires Durable(s) && CounterAtLeast(s, low)
    ensures CounterAtLeast(Restarted(s), low) && Restarted(s).store.Latest() == s.store.Latest()
  {
    hide Durable, Restarted, DurableTree;
    DurableRestart(s);
  }

  lemma SaverCounter(s: ReplicaState, op: Op, low: nat)
    requires Durable(s) && Saves(op) && KeyedDonor(op) && CounterAtLeast(s, low)
    ensures Saver(s, op).snapshotCounter >= low
    ensures Apply(s, op).snapshotCounter == Saver(s, op).snapshotCounter + if s.store.leftover then 0 else 1
    ensures Apply(s, op).store.Latest() == Some(Saver(s, op).Capture())
  {
    hide Durable, Restarted, NextEntries, DurableTree, ReplicaState.SnapshotWrites, ReplicaState.Capture, Store.Latest,
      HasCommit, SpoilsNow, Spoiled, OwnAfter;
    SaverReady(s, op);
    BehindAttached(Saver(s, op));
    RestartCounter(s, low);
    SaverTakes(s, op);
    DurableSave(s, op, {});
    hide Saver, Apply;
  }

  lemma SpoiledCounter(s: ReplicaState, op: Op)
    requires Spoiled(s) && op.Snap?
    ensures Saver(s, op) == s && Apply(s, op).snapshotCounter == s.snapshotCounter
    ensures Apply(s, op).store.Latest() == Some(s.Capture()) && s.store.leftover
  {
    hide ReplicaState.Capture, ReplicaState.SnapshotWrites, Store.Latest, Misfit;
    SpoiledOp(s, op);
  }

  lemma CounterMove(s: ReplicaState, m: Move, low: nat)
    requires Kept(s) && GoesOn(s, m) && CounterAtLeast(s, low)
    ensures Moved(s, m).store.Latest() == LatestAfter(s, m)
    ensures SavesNow(s, m) ==> var id := Saver(s, m.op).snapshotCounter;
                               id >= low && CounterAtLeast(Moved(s, m), if SaveOf(s, m).used then id + 1 else id)
    ensures !SavesNow(s, m) ==> CounterAtLeast(Moved(s, m), low)
  {
    hide Durable, Spoiled, Restarted, RestartedOn, NextEntries, ReplicaState.SnapshotWrites, Store.Latest, Saver,
      DiskAt, Apply, Recover, DurableTree;
    if m.CrashIn? || Recovers(m.op) { RecoveredIsDurable(s, m); }
    if Durable(s) && Saves(m.op) { SaverCounter(s, m.op, low); }
    match m
    case Do(op) =>
      if op.Restart? {
        RestartCounter(s, low);
        RestartIs(s, op);
      } else if !Saves(op) {
        OtherOpsKeepSnapshots(s, op);
      } else if !Durable(s) {
        SpoiledCounter(s, op);
      }
    case CrashIn(op, writes) =>
      DurableCrash(s, op, writes);
  }

  lemma RestartIs(s: ReplicaState, op: Op)
    requires op.Restart?
    ensures Apply(s, op) == Restarted(s)
  {
    hide Restarted;
  }

  ghost predicate NumbersAscend(saved: seq<Save>, low: nat) {
    && (forall i :: 0 <= i < |saved| ==> saved[i].snapshot.snapshotId >= low)
    && (forall i, j :: 0 <= i < j < |saved| ==>
          && saved[i].snapshot.snapshotId <= saved[j].snapshot.snapshotId
          && (saved[i].used ==> saved[i].snapshot.snapshotId < saved[j].snapshot.snapshotId))
  }

  function LastOf(saved: seq<Save>, before: Option<Snapshot>): Option<Snapshot> {
    if saved == [] then before else Some(saved[|saved| - 1].snapshot)
  }

  lemma {:induction false} SavedNumbers(s: ReplicaState, moves: seq<Move>, low: nat)
    requires Kept(s) && CounterAtLeast(s, low) && Survives(s, moves)
    ensures NumbersAscend(Saved(s, moves), low)
    ensures Run(s, moves).store.Latest() == LastOf(Saved(s, moves), s.store.Latest())
    decreases |moves|
  {
    hide Moved, Kept, Durable, DurableTree, ReplicaState.Capture, SavesNow, GoesOn, Saver, CounterAtLeast, LatestAfter,
      Store.Latest, SpoilsNow;
    if moves != [] {
      var m, rest, t := moves[0], moves[1..], Moved(s, moves[0]);
      KeptMove(s, m, {});
      CounterMove(s, m, low);
      SavesNowIs(s, m);
      if SavesNow(s, m) {
        var id := Saver(s, m.op).snapshotCounter;
        SavedNumbers(t, rest, if SaveOf(s, m).used then id + 1 else id);
      } else {
        SavedNumbers(t, rest, low);
      }
    }
  }

  lemma SavesNowIs(s: ReplicaState, m: Move)
    ensures LatestAfter(s, m) == if SavesNow(s, m) then Some(Saver(s, m.op).Capture()) else s.store.Latest()
    ensures Saver(s, m.op).Capture().snapshotId == Saver(s, m.op).snapshotCounter
  {
    hide Saver;
  }

  /** Over any run of operations, snapshots, restarts, rejoins and crashes, snapshot numbers never decrease and grow
      after every snapshot that used up its own, and loading the latest snapshot gives the one saved last. */
  lemma LatestIsLastSaved(config: Config, keys: KeyStore, moves: seq<Move>)
    requires Survives(FreshDurable(config, keys), moves)
    ensures var blank := FreshDurable(config, keys);
            && NumbersAscend(Saved(blank, moves), 0)
            && Run(blank, moves).store.Latest() == LastOf(Saved(blank, moves), None)
  {
    FreshIsDurable(config, keys);
    SavedNumbers(FreshDurable(config, keys), moves, 0);
  }

  // ----- A snapshot and a truncated log say the same as the whole log -----

  function Marker(s: ReplicaState): LogEntry {
    SnapshotTaken(s.snapshotCounter, s.committedUpTo)
  }

  /** The entries that reach the log before a crash after this many writes. */
  ghost function AppendedBy(s: ReplicaState, op: Op, writes: nat): seq<LogEntry> {
    if writes < SavePoint(s, op) then NextEntries(s, op)[..writes]
    else NextEntries(s, op) + if Saves(op) && writes > SavePoint(s, op) then [Marker(Saver(s, op))] else []
  }

  /** Every entry the move appends, the recovery after a crash included. */
  ghost function Appended(s: ReplicaState, m: Move): seq<LogEntry> {
    match m
    case Do(op) => NextEntries(s, op) + if Saves(op) then [Marker(Saver(s, op))] else []
    case CrashIn(op, writes) => AppendedBy(s, op, writes) + Regenesis(s.(store := DiskAt(s, op, writes)))
  }

  /** Everything ever appended over a run: the log as it would be had it never been truncated. */
  ghost function WholeLog(s: ReplicaState, moves: seq<Move>): seq<LogEntry>
    decreases |moves|
  {
    if moves == [] then [] else Appended(s, moves[0]) + WholeLog(Moved(s, moves[0]), moves[1..])
  }

  function Proposes(m: Move): set<Hash> {
    match m
    case Do(Propose(_, hash, _)) => {hash}
    case Do(ProposeNext(_, hash, _)) => {hash}
    case _ => {}
  }

  function ProposedHashes(moves: seq<Move>): set<Hash>
    decreases |moves|
  {
    if moves == [] then {} else Proposes(moves[0]) + ProposedHashes(moves[1..])
  }

  /** The same state for recovery, outside these hashes. */
  ghost predicate Alike(r: Recovered, q: Recovered, own: set<Hash>) {
    && r.view == q.view && r.highQc == q.highQc && KeysOf(r.log) == KeysOf(q.log) && r.upTo == q.upTo
    && SameTree(r.tree, q.tree, own)
  }

  lemma AlikeTrans(r: Recovered, q: Recovered, p: Recovered, own: set<Hash>)
    requires Alike(r, q, own) && Alike(q, p, own)
    ensures Alike(r, p, own)
  {
    hide Bare;
  }

  lemma AlikeMore(r: Recovered, q: Recovered, own: set<Hash>, more: set<Hash>)
    requires Alike(r, q, own) && own <= more
    ensures Alike(r, q, more)
  {
    hide Bare;
  }

  lemma AlikeEntry(r: Recovered, q: Recovered, e: LogEntry, own: set<Hash>)
    requires Alike(r, q, own) && ReplayEntry(q, e).Ok?
    ensures ReplayEntry(r, e).Ok? && Alike(ReplayEntry(r, e).value, ReplayEntry(q, e).value, own)
  {
    assert |r.log| == |KeysOf(r.log)| == |KeysOf(q.log)| == |q.log|;
    if e.BlockCommitted? {
      var b := Block(e.hash, e.parent, e.view, e.epoch, e.proposer, None, NoOp);
      KeysOfSnoc(r.log, b);
      KeysOfSnoc(q.log, b);
    }
  }

  /** Replaying the same entries keeps alike states alike. */
  lemma {:induction false} AlikeReplay(r: Recovered, q: Recovered, es: seq<LogEntry>, own: set<Hash>)
    requires Alike(r, q, own) && Replay(q, es).Ok?
    ensures Replay(r, es).Ok? && Alike(Replay(r, es).value, Replay(q, es).value, own)
    decreases |es|
  {
    hide Alike, ReplayEntry;
    if es != [] {
      var n := |es| - 1;
      AlikeReplay(r, q, es[..n], own);
      AlikeEntry(Replay(r, es[..n]).value, Replay(q, es[..n]).value, es[n], own);
    }
  }

  /** The blocks a list of entries inserts, the last one for every hash. */
  function Inserted(es: seq<LogEntry>): Tree
    decreases |es|
  {
    if es == [] then map[]
    else
      var before := Inserted(es[..|es| - 1]);
      match es[|es| - 1]
      case BlockInserted(hash, parent, view, epoch, proposer, qcHash, qcView, _) =>
        before[hash := Block(hash, parent, view, epoch, proposer, StubQc(qcHash, qcView, epoch), NoOp)]
      case _ => before
  }

  lemma {:induction false} ReplayTree(r: Recovered, es: seq<LogEntry>)
    ensures Replay(r, es).Ok? ==> Replay(r, es).value.tree == r.tree + Inserted(es)
    decreases |es|
  {
    if es != [] { ReplayTree(r, es[..|es| - 1]); }
  }

  lemma InsertedAgain(first: Tree, base: Tree, es: seq<LogEntry>, own: set<Hash>)
    requires SameTree(base, first + Inserted(es), own)
    ensures SameTree(base + Inserted(es), first + Inserted(es), own)
  {
    hide Bare, Inserted;
  }

  lemma SameTreeVia(a: Tree, b: Tree, live: Tree, own: set<Hash>)
    requires SameTree(a, live, {}) && SameTree(b, live, own)
    ensures SameTree(a, b, own)
  {
    hide Bare;
  }

  /** A crash while a snapshot is taken recovers what the disk held before it. */
  lemma SnapAlike(s: ReplicaState, i: nat, own: set<Hash>)
    requires Durable(s) && Pointed(s) && DurableTree(s, own) && 1 <= i < |s.SnapshotWrites()|
    requires Replayed(s.SnapshotWrites()[i]).Ok?
    ensures Replayed(s.store).Ok? && Alike(Replayed(s.SnapshotWrites()[i]).value, Replayed(s.store).value, own)
  {
    var d, before := s.SnapshotWrites()[i], Replayed(s.store).value;
    hide ReplicaState.SnapshotWrites, ReplicaState.Capture, Bare, Store.Latest;
    DurableBehind(s);
    WindowReplay(s, i);
    SnapshotCrash(s, i);
    var first, base, es := Base(s.store), Base(d), s.store.Entries();
    ReplayQc(first, es);
    ReplayTree(first, es);
    QcAgain(first.highQc, es);
    SameTreeVia(base.tree, before.tree, s.blockTree, own);
    hide Base;
    if i <= 3 {
      ReplayQc(base, es);
      ReplayTree(base, es);
      InsertedAgain(first.tree, base.tree, es, own);
    }
  }

  /** Replaying these entries on top of what the one disk holds gives what the other holds. */
  ghost predicate LeadsTo(before: Store, es: seq<LogEntry>, after: Store, own: set<Hash>) {
    && Replayed(before).Ok? && Replayed(after).Ok?
    && Replay(Replayed(before).value, es).Ok?
    && Alike(Replay(Replayed(before).value, es).value, Replayed(after).value, own)
  }

  lemma AlikeSelf(r: Recovered, own: set<Hash>)
    ensures Alike(r, r, own)
  {
    hide Bare;
  }

  lemma AlikeSym(r: Recovered, q: Recovered, own: set<Hash>)
    requires Alike(r, q, own)
    ensures Alike(q, r, own)
  {
    hide Bare;
  }

  lemma MarkerOnly(r: Recovered, marker: LogEntry)
    requires marker.SnapshotTaken?
    ensures Replay(r, []) == Replay(r, [] + [marker]) == Ok(r)
  {
    MarkerReplays(r, [], marker);
  }

  lemma SnapLeads(s: ReplicaState, i: nat, own: set<Hash>, es: seq<LogEntry>)
    requires Durable(s) && Pointed(s) && DurableTree(s, own) && 1 <= i < |s.SnapshotWrites()|
    requires Replayed(s.SnapshotWrites()[i]).Ok?
    requires es == [] || es == [Marker(s)]
    ensures LeadsTo(s.store, es, s.SnapshotWrites()[i], own)
  {
    SnapAlike(s, i, own);
    hide ReplicaState.SnapshotWrites, Alike, Durable, DurableTree, Pointed, Replay;
    var r := Replayed(s.store).value;
    MarkerOnly(r, Marker(s));
    assert [] + [Marker(s)] == [Marker(s)];
    AlikeSym(Replayed(s.SnapshotWrites()[i]).value, r, own);
  }

  lemma OpLeads(s: ReplicaState, op: Op, own: set<Hash>)
    requires Durable(s) && Pointed(s) && DurableTree(s, own) && !op.Rejoin? && !SpoilsNow(s, Do(op))
    ensures LeadsTo(s.store, Appended(s, Do(op)), Apply(s, op).store, own)
  {
    hide Durable, Pointed, SpoilsNow, DurableTree, Replayed, NextEntries, Apply, Alike, ReplicaState.SnapshotWrites,
      Extended, DiskOk;
    if Saves(op) {
      DurableBehind(s);
      BehindAttached(s);
      SavedStore(s, op);
      DurableSave(s, op, own);
      DurableAttached(Apply(s, op));
      SnapEntries(s, op);
      SnapLeads(s, |s.SnapshotWrites()| - 1, own, Appended(s, Do(op)));
    } else {
      if Recovers(op) { DurableDisk(s); }
      DurableAttached(s);
      EntriesReplay(s, op);
      OpStore(s, op);
      assert Appended(s, Do(op)) == NextEntries(s, op);
      DurableOp(s, op, own);
      DurableAttached(Apply(s, op));
      AlikeSelf(Replayed(Apply(s, op).store).value, own);
    }
  }

  /** Taking a snapshot appends nothing but its marker. */
  lemma SnapEntries(s: ReplicaState, op: Op)
    requires Saves(op) && !op.Rejoin?
    ensures Saver(s, op) == s && NextEntries(s, op) == [] && SavePoint(s, op) == 1
    ensures Appended(s, Do(op)) == [Marker(s)]
    ensures forall i: nat {:trigger AppendedBy(s, op, i)} ::
              AppendedBy(s, op, i) == if i > 1 then [Marker(s)] else []
  {
  }

  /** What reached the log before a crash leads to what the crash left. */
  lemma CrashLeads(s: ReplicaState, op: Op, i: nat, own: set<Hash>)
    requires Durable(s) && Pointed(s) && DurableTree(s, own) && !op.Rejoin? && Replayed(DiskAt(s, op, i)).Ok?
    ensures LeadsTo(s.store, AppendedBy(s, op, i), DiskAt(s, op, i), own)
  {
    hide Durable, Pointed, DurableTree, Replayed, NextEntries, Alike, ReplicaState.SnapshotWrites, Extended, DiskOk,
      DiskAt;
    DurableAttached(s);
    if i < SavePoint(s, op) {
      AppendCrash(s, op, i);
      AlikeSelf(Replayed(DiskAt(s, op, i)).value, own);
    } else if Saves(op) {
      DurableBehind(s);
      BehindAttached(s);
      SnapEntries(s, op);
      SaveCrash(s, op, i);
      var last := |s.SnapshotWrites()| - 1;
      SnapLeads(s, if i < last then i else last, own, AppendedBy(s, op, i));
    } else {
      var n := |NextEntries(s, op)|;
      PastEnd(s, op, i);
      AppendCrash(s, op, n);
      assert NextEntries(s, op)[..n] == NextEntries(s, op) + [];
      AlikeSelf(Replayed(DiskAt(s, op, i)).value, own);
    }
  }

  lemma LeadsFurther(before: Store, es: seq<LogEntry>, disk: Store, more: seq<LogEntry>, own: set<Hash>)
    requires LeadsTo(before, es, disk, own) && Replayed(Extended(disk, more)).Ok?
    ensures LeadsTo(before, es + more, Extended(disk, more), own)
  {
    hide Alike, Replayed, Extended;
    ExtendedReplay(disk, more);
    ReplayConcat(Replayed(before).value, es, more);
    AlikeReplay(Replay(Replayed(before).value, es).value, Replayed(disk).value, more, own);
  }

  lemma RestartedStore(s: ReplicaState, disk: Store)
    requires DiskOk(disk)
    ensures RestartedOn(s, disk).store == Extended(disk, Regenesis(s.(store := disk)))
  {
    hide DiskOk, Recover, Attached, Restarted, Regenesis;
    RestartStore(s.(store := disk));
  }

  lemma MoveLeads(s: ReplicaState, m: Move, own: set<Hash>)
    requires Durable(s) && Pointed(s) && DurableTree(s, own) && GoesOn(s, m) && !m.op.Rejoin? && !SpoilsNow(s, m)
    ensures LeadsTo(s.store, Appended(s, m), Moved(s, m).store, own)
  {
    hide Durable, Pointed, DurableTree, Replayed, NextEntries, Apply, LeadsTo, Extended, DiskOk, DiskAt, Refused,
      RestartedOn, AppendedBy, Recover, Regenesis;
    match m
    case Do(op) => OpLeads(s, op, own);
    case CrashIn(op, writes) =>
      var d := DiskAt(s, op, writes);
      CrashRefusedIff(s, op, writes);
      CrashDisk(s, op, writes);
      CrashLeads(s, op, writes, own);
      RestartedStore(s, d);
      DurableMove(s, m, own);
      DurableAttached(Moved(s, m));
      LeadsFurther(s.store, AppendedBy(s, op, writes), d, Regenesis(s.(store := d)), own);
  }

  /** The whole log replays to what the disk of s holds. */
  ghost predicate Whole(r: Recovered, s: ReplicaState, own: set<Hash>) {
    Replayed(s.store).Ok? && Alike(r, Replayed(s.store).value, own)
  }

  lemma WholeMove(r: Recovered, s: ReplicaState, m: Move, own: set<Hash>, ever: set<Hash>)
    requires Durable(s) && Pointed(s) && DurableTree(s, own) && GoesOn(s, m) && !m.op.Rejoin? && !SpoilsNow(s, m)
    requires own <= ever && Whole(r, s, ever)
    ensures Replay(r, Appended(s, m)).Ok? && Whole(Replay(r, Appended(s, m)).value, Moved(s, m), ever)
  {
    hide Durable, DurableTree, Pointed, Replayed, Moved, Alike, Appended, GoesOn, SpoilsNow;
    MoveLeads(s, m, own);
    var q, es := Replayed(s.store).value, Appended(s, m);
    AlikeReplay(r, q, es, ever);
    AlikeMore(Replay(q, es).value, Replayed(Moved(s, m).store).value, own, ever);
    AlikeTrans(Replay(r, es).value, Replay(q, es).value, Replayed(Moved(s, m).store).value, ever);
  }

  lemma OwnProposed(s: ReplicaState, m: Move, own: set<Hash>)
    ensures OwnAfter(s, m, own) <= own + Proposes(m)
  {
    hide ReplicaState.IsLeader, ReplicaState.ValidProposal;
  }

  lemma {:induction false} WholeRun(r: Recovered, s: ReplicaState, moves: seq<Move>, own: set<Hash>, ever: set<Hash>)
    requires Durable(s) && Pointed(s) && DurableTree(s, own) && Survives(s, moves) && !Spoils(s, moves)
    requires forall i :: 0 <= i < |moves| ==> !moves[i].op.Rejoin?
    requires own + ProposedHashes(moves) <= ever && Whole(r, s, ever)
    ensures Replay(r, WholeLog(s, moves)).Ok? && Whole(Replay(r, WholeLog(s, moves)).value, Run(s, moves), ever)
    decreases |moves|
  {
    hide Durable, DurableTree, Pointed, Moved, Appended, Whole, OwnAfter, Proposes, GoesOn, SpoilsNow;
    if moves != [] {
      var m, rest := moves[0], moves[1..];
      OwnProposed(s, m, own);
      DurableMove(s, m, own);
      PointedMove(s, m);
      WholeMove(r, s, m, own, ever);
      WholeRun(Replay(r, Appended(s, m)).value, Moved(s, m), rest, OwnAfter(s, m, own), ever);
      ReplayConcat(r, Appended(s, m), WholeLog(Moved(s, m), rest));
    }
  }

  /** Recovering from the last snapshot and the log after it agrees with replaying, from nothing, every entry that
      was ever appended, over any run of operations, snapshots, restarts and crashes without a rejoin that can be
      recovered at its end. */
  lemma SnapshotPlusTail(config: Config, keys: KeyStore, moves: seq<Move>)
    requires Survives(FreshDurable(config, keys), moves)
    requires forall i :: 0 <= i < |moves| ==> !moves[i].op.Rejoin?
    ensures var blank := FreshDurable(config, keys);
            var tail := Replayed(Run(blank, moves).store);
            var whole := Replay(Base(Store(map[], None, false)), blank.store.Entries() + WholeLog(blank, moves));
            && (tail.Ok? <==> !Spoils(blank, moves))
            && (tail.Ok? ==> whole.Ok? && Alike(whole.value, tail.value, ProposedHashes(moves)))
  {
    var blank := FreshDurable(config, keys);
    var empty := Base(Store(map[], None, false));
    FreshIsDurable(config, keys);
    FreshPointed(config, keys);
    FreshReplay(config, keys);
    hide Durable, DurableTree, Pointed, FreshDurable, Run, WholeLog, Survives, Alike, ProposedHashes, Base, Spoils,
      Spoiled;
    KeptRecovers(blank, moves);
    if !Spoils(blank, moves) {
      var r := Replayed(blank.store).value;
      AlikeSelf(r, ProposedHashes(moves));
      WholeRun(r, blank, moves, {}, ProposedHashes(moves));
      ReplayConcat(empty, blank.store.Entries(), WholeLog(blank, moves));
    }
  }

  /** What is on disk at the end of a run replays exactly if nothing spoiled it. */
  lemma KeptRecovers(s: ReplicaState, moves: seq<Move>)
    requires Durable(s) && DurableTree(s, {}) && Survives(s, moves)
    ensures Replayed(Run(s, moves).store).Ok? <==> !Spoils(s, moves)
  {
    hide Durable, DurableTree, Spoiled, Run, Spoils, Survives, Replayed;
    KeptRun(s, moves, {});
    if Spoiled(s) { SpoiledIsNotDurable(s); }
    if Spoiled(Run(s, moves)) { SpoiledIsNotDurable(Run(s, moves)); }
    if Durable(Run(s, moves)) { DurableAttached(Run(s, moves)); }
  }

  lemma FreshReplay(config: Config, keys: KeyStore)
    ensures var blank := FreshDurable(config, keys);
            && Replayed(blank.store) == Replay(Base(Store(map[], None, false)), blank.store.Entries())
            && Replayed(blank.store).Ok?
  {
    FreshIsDurable(config, keys);
    hide Replay, Durable;
  }
}
