/** Rebuilding a replica from its data directory: latest snapshot, then replay of the log. */
module Recovery {
  import opened Types
  import opened Ordered
  import opened Crypto
  import opened CommitRule
  import opened Storage
  import opened ReplicaModel

  datatype RecoveryError = OutOfOrderCommit(expected: nat, found: nat)

  /** The part of the state that replay rebuilds. */
  datatype Recovered = Recovered(
    tree: Tree, log: seq<Block>, upTo: Option<Hash>, highQc: Option<QuorumCert>,
    view: nat, nextHash: Hash, epoch: nat)

  function Max(a: nat, b: nat): nat {
    if a >= b then a else b
  }

  function ReplayEntry(r: Recovered, e: LogEntry): Result<Recovered, RecoveryError> {
    match e
    case BlockInserted(hash, parent, view, epoch, proposer, qcHash, qcView, _) =>
      var b := Block(hash, parent, view, epoch, proposer, StubQc(qcHash, qcView, epoch), NoOp);
      Ok(r.(tree := r.tree[hash := b], nextHash := if hash >= r.nextHash then hash + 1 else r.nextHash))
    case VoteReceived(_, _, _) => Ok(r)
    case QCFormed(hash, view, epoch, _) =>
      var qc := if r.highQc.None? || view > r.highQc.value.view
                then Some(QuorumCert(hash, view, epoch, [])) else r.highQc;
      Ok(r.(highQc := qc, epoch := Max(r.epoch, epoch)))
    case HighQCUpdated(hash, view, epoch) =>
      Ok(r.(highQc := Some(QuorumCert(hash, view, epoch, [])), epoch := Max(r.epoch, epoch)))
    case BlockCommitted(hash, parent, view, epoch, proposer, _, commitIndex) =>
      if commitIndex != |r.log| then Err(OutOfOrderCommit(|r.log|, commitIndex))
      else
        var b := Block(hash, parent, view, epoch, proposer, None, NoOp);
        Ok(r.(log := r.log + [b], upTo := Some(hash), epoch := Max(r.epoch, epoch)))
    case ViewChanged(_, newView, _) => Ok(r.(view := newView))
    case SnapshotTaken(_, _) => Ok(r)
  }

  function Replay(r: Recovered, es: seq<LogEntry>): Result<Recovered, RecoveryError>
    decreases |es|
  {
    if es == [] then Ok(r)
    else
      match Replay(r, es[..|es| - 1])
      case Err(e) => Err(e)
      case Ok(q) => ReplayEntry(q, es[|es| - 1])
  }

  function Base(store: Store): Recovered {
    match store.Latest()
    case None => Recovered(map[], [], None, None, 0, 1, 0)
    case Some(s) =>
      Recovered(TreeOf(s.blockTree), BlocksOf(s.committedLog), s.committedUpTo, s.highQc,
                s.currentView, s.nextHash, s.configEpoch)
  }

  function Replayed(store: Store): Result<Recovered, RecoveryError> {
    Replay(Base(store), store.Entries())
  }

  /** The recovered replica has no log attached yet; its log file exists from now on. */
  function Rebuilt(config: Config, keys: KeyStore, store: Store, r: Recovered): ReplicaState {
    var snap := store.Latest();
    var tree := if r.tree == map[] then map[0 := GENESIS] else r.tree;
    ReplicaState(
      config, r.view, tree, r.highQc, map[], r.nextHash, r.log, r.upTo,
      if snap.Some? then ToSet(snap.value.activeValidators) else Ids(config.n),
      r.epoch, keys, false, store.(log := Some(store.Entries())),
      if snap.Some? then snap.value.snapshotId + 1 else 0,
      [], false, 0, 0)
  }

  function Recover(config: Config, keys: KeyStore, store: Store): Result<ReplicaState, RecoveryError> {
    match Replayed(store)
    case Err(e) => Err(e)
    case Ok(r) => Ok(Rebuilt(config, keys, store, r))
  }

  // ----- What the disk must say about the memory -----

  /** The fields of a committed block that survive replay. */
  datatype CommitKey = CommitKey(hash: Hash, parent: Option<Hash>, view: nat, epoch: nat, proposer: ReplicaId)

  function KeyOf(b: Block): CommitKey {
    CommitKey(b.hash, b.parent, b.view, b.epoch, b.proposer)
  }

  function KeysOf(log: seq<Block>): (r: seq<CommitKey>)
    ensures |r| == |log|
    ensures forall i :: 0 <= i < |log| ==> r[i] == KeyOf(log[i])
  {
    seq(|log|, i requires 0 <= i < |log| => KeyOf(log[i]))
  }

  lemma KeysOfSnoc(log: seq<Block>, b: Block)
    ensures KeysOf(log + [b]) == KeysOf(log) + [KeyOf(b)]
  {
  }

  /** The recovered part agrees with the memory, the certificate pointer aside. */
  ghost predicate Holds(r: Recovered, s: ReplicaState) {
    && r.view == s.currentView
    && KeysOf(r.log) == KeysOf(s.committedLog)
    && r.upTo == s.committedUpTo
    && r.tree != map[]
  }

  ghost predicate Mirrors(r: Recovered, s: ReplicaState) {
    Holds(r, s) && r.highQc == PointerOf(s.highQc)
  }

  /** A block as replay restores it: certificate pointer kept, command lost. */
  function Bare(b: Block): Block {
    Stub(b).(command := NoOp)
  }

  /** Outside own, the hashes this replica proposed itself, both trees hold the same blocks. */
  ghost predicate SameTree(recovered: Tree, live: Tree, own: set<Hash>) {
    forall h :: h !in own ==>
      && (h in recovered <==> h in live)
      && (h in recovered ==> Bare(recovered[h]) == Bare(live[h]))
  }

  /** Every snapshot on disk has a number below the next one, but a snapshot that failed has not used up its own. */
  predicate NumbersKept(s: ReplicaState) {
    NumbersBelow(s.store, s.snapshotCounter + if s.store.leftover then 1 else 0)
  }

  /** The log is attached and the disk alone gives back what memory holds; the certificate pointer it may get wrong
      while the temporary file of an unfinished truncation is there. */
  ghost predicate Durable(s: ReplicaState) {
    && s.walAttached && s.store.log.Some?
    && Keyed(s.blockTree) && s.blockTree != map[]
    && NumbersKept(s)
    && Replayed(s.store).Ok?
    && Holds(Replayed(s.store).value, s)
    && Replayed(s.store).value.highQc == PointerOf(Replayed(s.store).value.highQc)
    && (!s.store.leftover ==> Replayed(s.store).value.highQc == PointerOf(s.highQc))
  }

  /** The disk gives back the certificate pointer, too. */
  ghost predicate Pointed(s: ReplicaState) {
    Replayed(s.store).Ok? && Replayed(s.store).value.highQc == PointerOf(s.highQc)
  }

  ghost predicate DurableTree(s: ReplicaState, own: set<Hash>) {
    Replayed(s.store).Ok? && SameTree(Replayed(s.store).value.tree, s.blockTree, own)
  }

  // ----- Each operation keeps it -----

  lemma ReplaySnoc(r: Recovered, es: seq<LogEntry>, e: LogEntry)
    requires Replay(r, es).Ok?
    ensures Replay(r, es + [e]) == ReplayEntry(Replay(r, es).value, e)
  {
    assert (es + [e])[..|es|] == es;
  }

  lemma LoggedReplay(s: ReplicaState, e: LogEntry)
    requires Durable(s)
    ensures Replayed(s.Logged(e).store) == ReplayEntry(Replayed(s.store).value, e)
    ensures s.Logged(e) == s.(store := s.Logged(e).store)
    ensures s.Logged(e).store.log.Some?
    ensures NumbersKept(s.Logged(e))
  {
    ReplaySnoc(Base(s.store), s.store.Entries(), e);
    assert s.Logged(e).store.Latest() == s.store.Latest();
  }

  lemma DurableHighQc(s: ReplicaState, qc: QuorumCert, own: set<Hash>)
    requires Durable(s)
    ensures Durable(s.ApplyHighQc(qc))
    ensures DurableTree(s, own) ==> DurableTree(s.ApplyHighQc(qc), own)
  {
    hide Replayed, NumbersBelow, SameTree, Keyed, ReplicaState.Newer, KeysOf;
    LoggedReplay(s, HighQCUpdated(qc.blockHash, qc.view, qc.epoch));
  }

  lemma TwoReplay(s: ReplicaState, first: LogEntry, second: LogEntry)
    requires Durable(s) && ReplayEntry(Replayed(s.store).value, first).Ok?
    ensures var t := s.Logged(first).Logged(second);
            && Replayed(t.store) == ReplayEntry(ReplayEntry(Replayed(s.store).value, first).value, second)
            && t == s.(store := t.store) && t.store.log.Some? && NumbersKept(t)
            && t.store.leftover == s.store.leftover
  {
    hide Replay, Base, ReplayEntry;
    LoggedReplay(s, first);
    var u := s.Logged(first);
    ReplaySnoc(Base(u.store), u.store.Entries(), second);
    BaseSame(u.store, second);
  }

  lemma BaseSame(store: Store, e: LogEntry)
    ensures Base(store.Append(e)) == Base(store) && store.Append(e).Entries() == store.Entries() + [e]
  {
    assert store.Append(e).Latest() == store.Latest();
  }

  lemma DurableFormQc(s: ReplicaState, hash: Hash, view: nat, epoch: nat, own: set<Hash>)
    requires Durable(s)
    ensures Durable(s.TryFormQc(hash, view, epoch).0)
    ensures DurableTree(s, own) ==> DurableTree(s.TryFormQc(hash, view, epoch).0, own)
  {
    hide Replayed, NumbersBelow, SameTree, Keyed, KeysOf, ReplicaState.QuorumSize, ReplicaState.Pool,
      ReplicaState.Logged;
    TwoReplay(s, QCFormed(hash, view, epoch, |s.Pool(hash)|), HighQCUpdated(hash, view, epoch));
    LoggedQc(s, hash, view, epoch);
  }

  /** Taking over a certificate commutes with logging it. */
  lemma LoggedQc(s: ReplicaState, hash: Hash, view: nat, epoch: nat)
    requires s.walAttached
    ensures var e1, e2 := QCFormed(hash, view, epoch, |s.Pool(hash)|), HighQCUpdated(hash, view, epoch);
            s.TryFormQc(hash, view, epoch).0 ==
            if |s.Pool(hash)| >= s.QuorumSize()
            then s.Logged(e1).Logged(e2).(highQc := Some(QuorumCert(hash, view, epoch, s.Pool(hash)))) else s
  {
    hide ReplicaState.QuorumSize, ReplicaState.Pool;
  }

  lemma DurableVote(s: ReplicaState, vote: Vote, own: set<Hash>)
    requires Durable(s)
    ensures Durable(s.HandleVote(vote).0)
    ensures DurableTree(s, own) ==> DurableTree(s.HandleVote(vote).0, own)
  {
    if s.Accepts(vote) {
      assert Durable(s.Pooled(vote));
      DurableFormQc(s.Pooled(vote), vote.blockHash, vote.view, vote.epoch, own);
    }
  }

  /** A proposal is in memory only: its hash joins own. */
  lemma DurablePropose(s: ReplicaState, b: Block, now: nat, own: set<Hash>)
    requires Durable(s)
    ensures Durable(s.Proposed(b, now))
    ensures DurableTree(s, own) ==> DurableTree(s.Proposed(b, now), own + {b.hash})
  {
  }

  lemma InsertedTree(r: Recovered, b: Block)
    ensures ReplayEntry(r, InsertedEntry(b)) ==
            Ok(r.(tree := r.tree[b.hash := Bare(b)],
                  nextHash := ReplayEntry(r, InsertedEntry(b)).value.nextHash))
  {
  }

  lemma SameInserted(recovered: Tree, live: Tree, b: Block, own: set<Hash>)
    requires SameTree(recovered, live, own)
    ensures SameTree(recovered[b.hash := Bare(b)], live[b.hash := b], own - {b.hash})
  {
    assert Bare(Bare(b)) == Bare(b);
    hide Bare;
  }

  lemma DurableReceive(s: ReplicaState, b: Block, own: set<Hash>, t: ReplicaState)
    requires Durable(s)
    requires t == s.Logged(InsertedEntry(b)).(blockTree := s.blockTree[b.hash := b])
    ensures Durable(t)
    ensures DurableTree(s, own) ==> DurableTree(t, own - {b.hash})
  {
    hide Replayed, ReplayEntry, NumbersBelow, SameTree, KeysOf, Bare, InsertedEntry;
    LoggedReplay(s, InsertedEntry(b));
    InsertedTree(Replayed(s.store).value, b);
    if DurableTree(s, own) { SameInserted(Replayed(s.store).value.tree, s.blockTree, b, own); }
    assert b.hash in t.blockTree;
  }

  /** A received block is logged first: its hash leaves own. */
  lemma DurableInsert(s: ReplicaState, b: Block, own: set<Hash>)
    requires Durable(s)
    ensures Durable(s.InsertProposal(b))
    ensures DurableTree(s, own) ==>
            DurableTree(s.InsertProposal(b), if s.ValidProposal(b) then own - {b.hash} else own)
  {
    var t := s.Logged(InsertedEntry(b)).(blockTree := s.blockTree[b.hash := b]);
    DurableReceive(s, b, own, t);
    hide Durable, DurableTree, ReplicaState.ValidProposal, ReplicaState.Logged;
  }

  /** The fields Durable speaks of. */
  ghost predicate SameDurableFields(s: ReplicaState, t: ReplicaState) {
    && s.walAttached == t.walAttached && s.store == t.store && s.snapshotCounter == t.snapshotCounter
    && s.blockTree == t.blockTree && s.committedLog == t.committedLog && s.committedUpTo == t.committedUpTo
    && s.highQc == t.highQc && s.currentView == t.currentView
  }

  lemma MembershipKeepsDurableFields(s: ReplicaState, command: Command)
    ensures SameDurableFields(s, s.ApplyMembership(command))
  {
  }

  lemma DurableAppendCommit(s: ReplicaState, b: Block, t: ReplicaState)
    requires Durable(s)
    requires t == s.Logged(CommittedEntry(b, |s.committedLog|))
                   .(committedLog := s.committedLog + [b], committedUpTo := Some(b.hash))
    ensures Durable(t)
    ensures Replayed(t.store).value.tree == Replayed(s.store).value.tree
  {
    LoggedReplay(s, CommittedEntry(b, |s.committedLog|));
    var r := Replayed(s.store).value;
    assert |r.log| == |KeysOf(r.log)| == |KeysOf(s.committedLog)| == |s.committedLog|;
    var c := Block(b.hash, b.parent, b.view, b.epoch, b.proposer, None, NoOp);
    KeysOfSnoc(s.committedLog, b);
    KeysOfSnoc(r.log, c);
  }

  lemma DurableCommit(s: ReplicaState, b: Block, own: set<Hash>)
    requires Durable(s)
    ensures Durable(s.ExecuteAndCommit(b))
    ensures DurableTree(s, own) ==> DurableTree(s.ExecuteAndCommit(b), own)
  {
    var t := s.Logged(CommittedEntry(b, |s.committedLog|))
              .(committedLog := s.committedLog + [b], committedUpTo := Some(b.hash));
    DurableAppendCommit(s, b, t);
    MembershipKeepsDurableFields(t, b.command);
  }

  lemma {:induction false} DurableCommitEach(s: ReplicaState, bs: seq<Block>, own: set<Hash>)
    requires Durable(s)
    ensures Durable(s.CommitEach(bs))
    ensures DurableTree(s, own) ==> DurableTree(s.CommitEach(bs), own)
    decreases |bs|
  {
    if bs != [] {
      DurableCommit(s, bs[0], own);
      DurableCommitEach(s.ExecuteAndCommit(bs[0]), bs[1..], own);
    }
  }

  lemma DurableAdvance(s: ReplicaState, reason: Reason, own: set<Hash>)
    requires Durable(s)
    ensures Durable(s.AdvanceView(reason))
    ensures DurableTree(s, own) ==> DurableTree(s.AdvanceView(reason), own)
  {
    var e := ViewChanged(s.currentView, s.currentView + 1, reason);
    LoggedReplay(s, e);
    assert s.AdvanceView(reason).store == s.Logged(e).store;
  }

  // ----- Snapshots -----

  lemma {:induction false} TreeOfBlocks(t: Tree, hashes: seq<Hash>)
    requires Keyed(t)
    requires forall i :: 0 <= i < |hashes| ==> hashes[i] in t
    ensures var u := TreeOf(SnapsOf(BlocksAt(t, hashes)));
            && (forall h :: h in u <==> h in hashes)
            && (forall h :: h in u ==> h in t && u[h] == Stub(t[h]))
    decreases |hashes|
  {
    if hashes != [] {
      var n := |hashes| - 1;
      TreeOfBlocks(t, hashes[..n]);
      assert SnapsOf(BlocksAt(t, hashes))[..n] == SnapsOf(BlocksAt(t, hashes[..n]));
      assert hashes == hashes[..n] + [hashes[n]];
    }
  }

  /** Saving a tree and loading it gives the same blocks with their certificates reduced to pointers. */
  lemma TreeRoundTrip(t: Tree)
    requires Keyed(t)
    ensures var u := TreeOf(SnapsOf(Values(t)));
            u.Keys == t.Keys && forall h :: h in t ==> u[h] == Stub(t[h])
  {
    AscendingSorted(t.Keys);
    TreeOfBlocks(t, Ascending(t.Keys));
  }

  /** What a captured snapshot restores mirrors the replica it was taken from. */
  lemma CaptureMirrors(s: ReplicaState, store: Store)
    requires Keyed(s.blockTree) && s.blockTree != map[]
    requires store.Latest() == Some(s.Capture())
    ensures Mirrors(Base(store), s)
    ensures SameTree(Base(store).tree, s.blockTree, {})
  {
    TreeRoundTrip(s.blockTree);
    var r := Base(store);
    assert KeysOf(r.log) == KeysOf(s.committedLog);
    assert r.tree.Keys == s.blockTree.Keys;
  }

  lemma SavedIsLatest(s: ReplicaState, saved: Store)
    requires NumbersBelow(s.store, s.snapshotCounter + 1)
    requires saved.snapshots == s.store.Save(s.Capture()).snapshots
    ensures saved.Latest() == saved.Cleanup(3).Latest() == Some(s.Capture())
    ensures NumbersBelow(saved, s.snapshotCounter + 1)
    ensures NumbersBelow(saved.Cleanup(3), s.snapshotCounter + 1)
  {
    LatestIs(saved, s.snapshotCounter);
    CleanupKeepsLatest(saved, s.snapshotCounter, 3);
  }

  /** The saved snapshot is the latest at every point after its save. */
  lemma SnapshotIsLatest(s: ReplicaState, i: nat)
    requires NumbersBelow(s.store, s.snapshotCounter + 1)
    requires 1 <= i < |s.SnapshotWrites()|
    ensures s.SnapshotWrites()[i].Latest() == Some(s.Capture())
    ensures NumbersBelow(s.SnapshotWrites()[i], s.snapshotCounter + 1)
  {
    var last := |s.SnapshotWrites()| - 1;
    if i < last || s.Blocked() {
      SavedIsLatest(s, s.SnapshotWrites()[i]);
    } else {
      SavedIsLatest(s, s.SnapshotWrites()[last - 1]);
    }
  }

  lemma SnapshotLeaves(s: ReplicaState)
    requires s.walAttached && !s.store.leftover
    ensures |s.SnapshotWrites()| == 6 && s.SnapshotWrites()[5].log == Some([])
    ensures s.TakeSnapshot() == s.(store := s.SnapshotWrites()[5], snapshotCounter := s.snapshotCounter + 1)
    ensures !s.TakeSnapshot().store.leftover
  {
    hide ReplicaState.Capture;
  }

  lemma EmptyLogReplays(store: Store)
    requires store.log == Some([])
    ensures Replayed(store) == Ok(Base(store))
  {
    hide Base;
  }

  /** Taking a snapshot makes the whole state durable, whatever the disk held before. */
  lemma DurableSnapshot(s: ReplicaState)
    requires s.walAttached && !s.store.leftover && Keyed(s.blockTree) && s.blockTree != map[]
    requires NumbersBelow(s.store, s.snapshotCounter + 1)
    ensures Durable(s.TakeSnapshot()) && DurableTree(s.TakeSnapshot(), {}) && !s.TakeSnapshot().store.leftover
  {
    hide ReplicaState.SnapshotWrites, ReplicaState.Capture, ReplicaState.TakeSnapshot, Base, SameTree, Replayed,
      NumbersBelow, Store.Latest, Keyed, KeysOf;
    SnapshotLeaves(s);
    SnapshotIsLatest(s, 5);
    var d := s.SnapshotWrites()[5];
    CaptureMirrors(s, d);
    EmptyLogReplays(d);
  }
}
