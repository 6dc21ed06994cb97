/** A replica and its data directory across crashes: attaching a log, restarting from disk, and what a crash
    between the durable writes of a commit or a snapshot leaves. */
module Durability {
  import opened Types
  import opened Ordered
  import opened Crypto
  import opened CommitRule
  import opened Storage
  import opened ReplicaModel
  import opened Recovery

  /** Attaching a log to a recovered replica; a store that was empty gets the genesis block logged. */
  function Attached(s: ReplicaState): ReplicaState {
    var t := s.(walAttached := true);
    if t.store.Entries() == [] && t.blockTree.Keys == {0} then t.Logged(InsertedEntry(t.blockTree[0])) else t
  }

  /** A crash loses the memory; recovery rebuilds it from disk. A failed recovery leaves the replica down. */
  function Restarted(s: ReplicaState): ReplicaState {
    match Recover(s.config, s.keystore, s.store)
    case Ok(t) => Attached(t)
    case Err(_) => s
  }

  /** A crash that leaves this data directory behind, and the recovery after it. */
  function RestartedOn(s: ReplicaState, disk: Store): ReplicaState {
    Restarted(s.(store := disk))
  }

  // ----- Restarting -----

  lemma {:induction false} TreeOfKeyed(ss: seq<SnapBlock>)
    ensures Keyed(TreeOf(ss))
    decreases |ss|
  {
    if ss != [] { TreeOfKeyed(ss[..|ss| - 1]); }
  }

  lemma {:induction false} ReplayKeyed(r: Recovered, es: seq<LogEntry>)
    requires Keyed(r.tree)
    ensures Replay(r, es).Ok? ==> Keyed(Replay(r, es).value.tree)
    decreases |es|
  {
    if es != [] { ReplayKeyed(r, es[..|es| - 1]); }
  }

  lemma ReplayedKeyed(store: Store)
    ensures Replayed(store).Ok? ==> Keyed(Replayed(store).value.tree)
  {
    if store.Latest().Some? { TreeOfKeyed(store.Latest().value.blockTree); }
    ReplayKeyed(Base(store), store.Entries());
  }

  predicate NumbersMatch(store: Store) {
    forall k :: k in store.snapshots ==> store.snapshots[k].snapshotId == k
  }

  /** A data directory from which recovery succeeds. */
  ghost predicate DiskOk(store: Store) {
    && store.log.Some?
    && NumbersMatch(store)
    && Replayed(store).Ok? && Replayed(store).value.tree != map[]
    && Replayed(store).value.highQc == PointerOf(Replayed(store).value.highQc)
  }

  lemma DurableDisk(s: ReplicaState)
    requires Durable(s)
    ensures DiskOk(s.store)
  {
    hide Replayed;
  }

  lemma LatestBounds(store: Store)
    requires NumbersMatch(store)
    ensures store.Latest().None? ==> NumbersBelow(store, 0)
    ensures store.Latest().Some? ==> NumbersBelow(store, store.Latest().value.snapshotId + 1)
  {
    AscendingSorted(store.snapshots.Keys);
    var ids := Ascending(store.snapshots.Keys);
    forall k | k in store.snapshots ensures k <= ids[|ids| - 1] {
      var i :| 0 <= i < |ids| && ids[i] == k;
    }
  }

  lemma DurableAttach(s: ReplicaState)
    requires Durable(s.(walAttached := true)) && DurableTree(s, {})
    ensures Durable(Attached(s)) && DurableTree(Attached(s), {})
  {
    var t := s.(walAttached := true);
    if t.store.Entries() == [] && t.blockTree.Keys == {0} {
      LoggedReplay(t, InsertedEntry(t.blockTree[0]));
    }
  }

  lemma RebuiltDurable(config: Config, keys: KeyStore, store: Store)
    requires DiskOk(store)
    ensures var t := Rebuilt(config, keys, store, Replayed(store).value);
            t.store == store && Durable(t.(walAttached := true)) && DurableTree(t, {})
  {
    var r := Replayed(store).value;
    ReplayedKeyed(store);
    LatestBounds(store);
    assert store.(log := Some(store.Entries())) == store;
    hide Replayed, Store.Latest;
  }

  /** Attaching the log changes nothing but the log. */
  lemma AttachedIs(s: ReplicaState)
    ensures Attached(s) == s.(walAttached := true, store := Attached(s).store)
    ensures Attached(s).store.snapshots == s.store.snapshots
  {
  }

  /** Recovering from a good directory and attaching the log gives a durable replica that holds exactly
      what replay found. */
  lemma DiskRestart(config: Config, keys: KeyStore, store: Store)
    requires DiskOk(store)
    ensures Recover(config, keys, store).Ok?
    ensures var t := Attached(Recover(config, keys, store).value);
            var r := Replayed(store).value;
            && Durable(t) && DurableTree(t, {})
            && t.config == config && t.currentView == r.view && t.highQc == r.highQc
            && t.committedLog == r.log && t.blockTree == r.tree
            && t.store.snapshots == store.snapshots && t.snapshotCounter ==
               (if store.Latest().Some? then store.Latest().value.snapshotId + 1 else 0)
            && t.activeValidators == Rebuilt(config, keys, store, r).activeValidators
            && t.clientQueue == [] && t.votePool == map[]
  {
    hide Replayed, Durable, DurableTree, Attached, Store.Latest, Keyed;
    var t := Rebuilt(config, keys, store, Replayed(store).value);
    RebuiltDurable(config, keys, store);
    DurableAttach(t);
    AttachedIs(t);
  }

  /** A restart of a durable replica succeeds and gives back its view, certificate pointer and log. */
  lemma DurableRestart(s: ReplicaState)
    requires Durable(s)
    ensures Recover(s.config, s.keystore, s.store).Ok?
    ensures Durable(Restarted(s)) && DurableTree(Restarted(s), {})
    ensures Restarted(s).store.Latest() == s.store.Latest()
    ensures Restarted(s).snapshotCounter ==
            if s.store.Latest().Some? then s.store.Latest().value.snapshotId + 1 else 0
    ensures Restarted(s).currentView == s.currentView
    ensures Pointed(s) ==> Restarted(s).highQc == PointerOf(s.highQc)
    ensures KeysOf(Restarted(s).committedLog) == KeysOf(s.committedLog)
    ensures Restarted(s).votePool == map[]
  {
    DurableDisk(s);
    DiskRestart(s.config, s.keystore, s.store);
    hide Attached, Recover, Replayed;
  }

  /** The replica comes back durable, with no votes, from a directory whose latest snapshot is this one. */
  ghost predicate BackFrom(t: ReplicaState, latest: Option<Snapshot>) {
    && Durable(t) && DurableTree(t, {}) && t.votePool == map[]
    && t.store.Latest() == latest
    && t.snapshotCounter == if latest.Some? then latest.value.snapshotId + 1 else 0
  }

  lemma {:induction false} ReplayPointers(r: Recovered, es: seq<LogEntry>)
    requires r.tree != map[] && r.highQc == PointerOf(r.highQc)
    ensures Replay(r, es).Ok? ==>
              Replay(r, es).value.tree != map[] && Replay(r, es).value.highQc == PointerOf(Replay(r, es).value.highQc)
    decreases |es|
  {
    if es != [] { ReplayPointers(r, es[..|es| - 1]); }
  }

  lemma DiskBack(s: ReplicaState, disk: Store)
    requires DiskOk(disk)
    ensures BackFrom(RestartedOn(s, disk), disk.Latest())
  {
    DiskRestart(s.config, s.keystore, disk);
    LatestSame(Attached(Recover(s.config, s.keystore, disk).value).store, disk);
    hide Durable, DurableTree, DiskOk, Attached, Recover, Store.Latest;
  }

  lemma LatestSame(a: Store, b: Store)
    requires a.snapshots == b.snapshots
    ensures a.Latest() == b.Latest()
  {
  }

  // ----- A fresh start -----

  /** A replica with an empty data directory, the genesis block logged. */
  function FreshDurable(config: Config, keys: KeyStore): ReplicaState {
    Attached(Rebuilt(config, keys, Store(map[], None, false), Recovered(map[], [], None, None, 0, 1, 0)))
  }

  lemma FreshIsDurable(config: Config, keys: KeyStore)
    ensures Recover(config, keys, Store(map[], None, false)).Ok?
    ensures FreshDurable(config, keys) == Attached(Recover(config, keys, Store(map[], None, false)).value)
    ensures Durable(FreshDurable(config, keys)) && DurableTree(FreshDurable(config, keys), {})
  {
    var s := FreshDurable(config, keys);
    var t := s.(store := Store(map[], Some([]), false));
    assert s == t.Logged(InsertedEntry(GENESIS));
    ReplaySnoc(Base(t.store), [], InsertedEntry(GENESIS));
    assert Base(s.store) == Base(t.store);
  }

  // ----- What does not depend on the disk -----

  /** The state without its disk. */
  function Memory(s: ReplicaState): ReplicaState {
    s.(store := Store(map[], None, false), snapshotCounter := 0)
  }

  lemma SnapshotMemory(s: ReplicaState)
    ensures Memory(s.TakeSnapshot()) == Memory(s)
  {
    hide ReplicaState.SnapshotWrites;
  }

  // ----- What leaves the snapshots alone -----

  lemma {:induction false} CommitEachSnapshots(s: ReplicaState, bs: seq<Block>)
    ensures s.CommitEach(bs).store.snapshots == s.store.snapshots
    ensures s.CommitEach(bs).store.leftover == s.store.leftover
    ensures s.CommitEach(bs).snapshotCounter == s.snapshotCounter
    decreases |bs|
  {
    if bs != [] {
      MembershipSnapshots(s.Logged(CommittedEntry(bs[0], |s.committedLog|))
                           .(committedLog := s.committedLog + [bs[0]], committedUpTo := Some(bs[0].hash)),
                          bs[0].command);
      CommitEachSnapshots(s.ExecuteAndCommit(bs[0]), bs[1..]);
    }
  }

  lemma MembershipSnapshots(s: ReplicaState, command: Command)
    ensures s.ApplyMembership(command).store == s.store
    ensures s.ApplyMembership(command).snapshotCounter == s.snapshotCounter
  {
  }

  lemma VoteSnapshots(s: ReplicaState, vote: Vote)
    ensures s.HandleVote(vote).0.store.snapshots == s.store.snapshots
    ensures s.HandleVote(vote).0.snapshotCounter == s.snapshotCounter
  {
  }

  lemma ProposalSnapshots(s: ReplicaState, view: nat, hash: Hash, now: nat)
    ensures s.ProposeNextWithHash(view, hash, now).0.store == s.store
    ensures s.ProposeNextWithHash(view, hash, now).0.snapshotCounter == s.snapshotCounter
  {
  }

  // ----- Appends one by one -----

  function Extended(store: Store, es: seq<LogEntry>): Store {
    store.(log := Some(store.Entries() + es))
  }

  /** The data directory before and after each of these appends. */
  function LogWrites(s: ReplicaState, es: seq<LogEntry>): (stores: seq<Store>)
    ensures |stores| == (if s.walAttached then |es| + 1 else 1) && stores[0] == s.store
    ensures forall i :: 1 <= i < |stores| ==> stores[i] == Extended(s.store, es[..i])
  {
    if s.walAttached
    then seq(|es| + 1, i requires 0 <= i <= |es| => if i == 0 then s.store else Extended(s.store, es[..i]))
    else [s.store]
  }

  /** What one more append adds to the list. */
  lemma LogWritesSnoc(s: ReplicaState, es: seq<LogEntry>, e: LogEntry)
    ensures LogWrites(s, es + [e]) ==
            LogWrites(s, es) + if s.walAttached then [Extended(s.store, es + [e])] else []
  {
    assert (es + [e])[..|es| + 1] == es + [e];
    assert forall i :: 0 <= i <= |es| ==> (es + [e])[..i] == es[..i];
  }

  lemma {:induction false} ReplayConcat(r: Recovered, a: seq<LogEntry>, b: seq<LogEntry>)
    ensures Replay(r, a).Ok? ==> Replay(r, a + b) == Replay(Replay(r, a).value, b)
    ensures Replay(r, a).Err? ==> Replay(r, a + b) == Replay(r, a)
    decreases |b|
  {
    if b == [] {
      assert a + b == a;
    } else {
      var n := |b| - 1;
      ReplayConcat(r, a, b[..n]);
      assert (a + b)[..|a + b| - 1] == a + b[..n];
    }
  }

  lemma ExtendedReplay(store: Store, es: seq<LogEntry>)
    ensures Replayed(store).Ok? ==> Replayed(Extended(store, es)) == Replay(Replayed(store).value, es)
    ensures Extended(store, es).Latest() == store.Latest()
  {
    LatestSame(store, Extended(store, es));
    ReplayConcat(Base(store), store.Entries(), es);
  }

  lemma ExtendedTwice(store: Store, a: seq<LogEntry>, b: seq<LogEntry>)
    ensures Extended(Extended(store, a), b) == Extended(store, a + b)
    ensures store.log.Some? ==> Extended(store, []) == store
  {
    assert store.Entries() + (a + b) == store.Entries() + a + b;
    assert store.Entries() + [] == store.Entries();
  }

  /** Appending entries that replay leaves a good directory. */
  lemma ExtendedDisk(store: Store, es: seq<LogEntry>)
    requires DiskOk(store) && Replay(Replayed(store).value, es).Ok?
    ensures DiskOk(Extended(store, es)) && Extended(store, es).Latest() == store.Latest()
    ensures Replayed(Extended(store, es)) == Replay(Replayed(store).value, es)
  {
    ExtendedReplay(store, es);
    ReplayPointers(Replayed(store).value, es);
    assert NumbersMatch(Extended(store, es));
    assert Replayed(Extended(store, es)).value.tree.Keys != {};
  }

  lemma ReplayPrefix(r: Recovered, es: seq<LogEntry>, i: nat)
    requires i <= |es| && Replay(r, es).Ok?
    ensures Replay(r, es[..i]).Ok?
  {
    assert es == es[..i] + es[i..];
    ReplayConcat(r, es[..i], es[i..]);
  }

  // ----- Crashes while taking a snapshot -----

  predicate HasCommit(es: seq<LogEntry>) {
    exists i :: 0 <= i < |es| && es[i].BlockCommitted?
  }

  function FirstIndex(es: seq<LogEntry>): nat
    requires HasCommit(es)
    decreases |es|
  {
    var init := es[..|es| - 1];
    if HasCommit(init) then FirstIndex(init)
    else
      assert es == init + [es[|es| - 1]];
      es[|es| - 1].commitIndex
  }

  /** Replay accepts the first commit of a log only at the length its base has, and keeps the base's log
      when there is none. */
  lemma {:induction false} ReplayFirstCommit(r: Recovered, es: seq<LogEntry>)
    ensures !HasCommit(es) ==> Replay(r, es).Ok? && Replay(r, es).value.log == r.log
                               && Replay(r, es).value.upTo == r.upTo
    ensures HasCommit(es) && FirstIndex(es) != |r.log|
            ==> Replay(r, es) == Err(OutOfOrderCommit(|r.log|, FirstIndex(es)))
    ensures HasCommit(es) && Replay(r, es).Ok? ==> |Replay(r, es).value.log| > |r.log|
    decreases |es|
  {
    if es != [] {
      var n := |es| - 1;
      var init := es[..n];
      assert es == init + [es[n]];
      ReplayFirstCommit(r, init);
      assert HasCommit(es) <==> HasCommit(init) || es[n].BlockCommitted?;
    }
  }

  /** The view replay ends with is that of the last view change, or the base's. */
  lemma {:induction false} ReplayView(r: Recovered, q: Recovered, es: seq<LogEntry>)
    requires Replay(r, es).Ok? && Replay(q, es).Ok?
    requires q.view == Replay(r, es).value.view
    ensures Replay(q, es).value.view == q.view
    decreases |es|
  {
    if es != [] {
      var n := |es| - 1;
      if !es[n].ViewChanged? {
        ReplayView(r, q, es[..n]);
      }
    }
  }

  /** Replay ends with the certificate of the last pointer entry or of a newer certificate entry after it. */
  function QcAfter(qc: Option<QuorumCert>, es: seq<LogEntry>): Option<QuorumCert>
    decreases |es|
  {
    if es == [] then qc
    else
      var before := QcAfter(qc, es[..|es| - 1]);
      match es[|es| - 1]
      case HighQCUpdated(hash, view, epoch) => Some(QuorumCert(hash, view, epoch, []))
      case QCFormed(hash, view, epoch, _) =>
        if before.None? || view > before.value.view then Some(QuorumCert(hash, view, epoch, [])) else before
      case _ => before
  }

  lemma {:induction false} ReplayQc(r: Recovered, es: seq<LogEntry>)
    ensures Replay(r, es).Ok? ==> Replay(r, es).value.highQc == QcAfter(r.highQc, es)
    decreases |es|
  {
    if es != [] { ReplayQc(r, es[..|es| - 1]); }
  }

  predicate HasPointer(es: seq<LogEntry>) {
    exists i :: 0 <= i < |es| && es[i].HighQCUpdated?
  }

  /** No certificate entry of es is newer than top. */
  predicate NoneAbove(es: seq<LogEntry>, top: Option<QuorumCert>) {
    forall i :: 0 <= i < |es| && es[i].QCFormed? ==> top.Some? && es[i].view <= top.value.view
  }

  lemma {:induction false} QcFromPointer(a: Option<QuorumCert>, b: Option<QuorumCert>, es: seq<LogEntry>)
    requires HasPointer(es)
    ensures QcAfter(a, es) == QcAfter(b, es)
    decreases |es|
  {
    var n := |es| - 1;
    if !es[n].HighQCUpdated? {
      assert HasPointer(es[..n]) by {
        var i :| 0 <= i < |es| && es[i].HighQCUpdated?;
        assert es[..n][i].HighQCUpdated?;
      }
      QcFromPointer(a, b, es[..n]);
    }
  }

  lemma {:induction false} QcIsTop(qc: Option<QuorumCert>, es: seq<LogEntry>)
    requires !HasPointer(es)
    ensures NoneAbove(es, QcAfter(qc, es))
    decreases |es|
  {
    if es != [] {
      var n := |es| - 1;
      assert !HasPointer(es[..n]) by { assert forall i :: 0 <= i < n ==> es[..n][i] == es[i]; }
      QcIsTop(qc, es[..n]);
      assert forall i :: 0 <= i < n ==> es[..n][i] == es[i];
    }
  }

  lemma {:induction false} QcStays(top: Option<QuorumCert>, es: seq<LogEntry>)
    requires !HasPointer(es) && NoneAbove(es, top)
    ensures QcAfter(top, es) == top
    decreases |es|
  {
    if es != [] {
      var n := |es| - 1;
      assert forall i :: 0 <= i < n ==> es[..n][i] == es[i];
      QcStays(top, es[..n]);
    }
  }

  /** Replaying the same entries once more from the certificate they led to changes nothing. */
  lemma QcAgain(qc: Option<QuorumCert>, es: seq<LogEntry>)
    ensures QcAfter(QcAfter(qc, es), es) == QcAfter(qc, es)
  {
    if HasPointer(es) {
      QcFromPointer(QcAfter(qc, es), qc, es);
    } else {
      QcIsTop(qc, es);
      QcStays(QcAfter(qc, es), es);
    }
  }

  /** Replaying a live log on top of a snapshot of the state it led to, or of one whose log is longer. */
  lemma ReplayOnSnapshot(first: Recovered, base: Recovered, es: seq<LogEntry>)
    requires Replay(first, es).Ok?
    requires |Replay(first, es).value.log| <= |base.log| && Replay(first, es).value.view == base.view
    ensures var r := Replay(base, es);
            if HasCommit(es) then r == Err(OutOfOrderCommit(|base.log|, |first.log|)) && |first.log| < |base.log|
            else r.Ok? && r.value.log == base.log && r.value.upTo == base.upTo && r.value.view == base.view
  {
    ReplayFirstCommit(first, es);
    ReplayFirstCommit(base, es);
    if !HasCommit(es) { ReplayView(first, base, es); }
  }

  /** The log is attached, blocks are filed under their hashes, and the snapshots have the numbers they should. */
  ghost predicate Filed(s: ReplicaState) {
    && s.walAttached && s.store.log.Some?
    && Keyed(s.blockTree) && s.blockTree != map[]
    && NumbersKept(s)
  }

  /** The disk replays to the view in memory and to no longer a committed log: what taking a snapshot needs. */
  ghost predicate Behind(s: ReplicaState) {
    && Filed(s)
    && Replayed(s.store).Ok?
    && Replayed(s.store).value.view == s.currentView
    && |Replayed(s.store).value.log| <= |s.committedLog|
  }

  lemma DurableBehind(s: ReplicaState)
    requires Durable(s)
    ensures Behind(s)
  {
    hide Replayed;
    var r := Replayed(s.store).value;
    assert |r.log| == |KeysOf(r.log)| == |KeysOf(s.committedLog)| == |s.committedLog|;
  }

  lemma MarkerReplays(r: Recovered, es: seq<LogEntry>, marker: LogEntry)
    requires marker.SnapshotTaken?
    ensures Replay(r, es + [marker]) == Replay(r, es)
  {
    assert (es + [marker])[..|es|] == es;
  }

  /** From the save on, the disk replays the old log, or nothing, on top of the new snapshot. */
  lemma WindowReplay(s: ReplicaState, i: nat)
    requires Filed(s) && 1 <= i < |s.SnapshotWrites()|
    ensures var d := s.SnapshotWrites()[i];
            && d.log.Some? && d.Latest() == Some(s.Capture()) && NumbersBelow(d, s.snapshotCounter + 1)
            && Mirrors(Base(d), s) && SameTree(Base(d).tree, s.blockTree, {})
            && Replayed(d) == Replay(Base(d), if i <= 3 then s.store.Entries() else [])
  {
    var d := s.SnapshotWrites()[i];
    var marker := SnapshotTaken(s.snapshotCounter, s.committedUpTo);
    assert i == 1 ==> d.Entries() == s.store.Entries();
    assert i == 2 || i == 3 ==> d.Entries() == s.store.Entries() + [marker];
    assert i > 3 ==> d.Entries() == [];
    assert d.log.Some?;
    hide ReplicaState.SnapshotWrites, ReplicaState.Capture;
    SnapshotIsLatest(s, i);
    CaptureMirrors(s, d);
    MarkerReplays(Base(d), s.store.Entries(), marker);
  }

  /** A crash after the save of a snapshot recovers the committed log and view exactly, or refuses. It refuses
      exactly between the save and the truncation, when the log holds a commit. */
  lemma SnapshotCrash(s: ReplicaState, i: nat)
    requires Behind(s) && 1 <= i < |s.SnapshotWrites()|
    ensures var d := s.SnapshotWrites()[i];
            && (Replayed(d).Err? <==> i <= 3 && HasCommit(s.store.Entries()))
            && (Replayed(d).Err? ==> Replayed(d).error.expected == |s.committedLog| > Replayed(d).error.found)
            && (Replayed(d).Ok? ==> && DiskOk(d)
                                    && KeysOf(Replayed(d).value.log) == KeysOf(s.committedLog)
                                    && Replayed(d).value.upTo == s.committedUpTo
                                    && Replayed(d).value.view == s.currentView)
  {
    var d := s.SnapshotWrites()[i];
    WindowReplay(s, i);
    var base := Base(d);
    assert |base.log| == |KeysOf(base.log)| == |s.committedLog|;
    hide ReplicaState.SnapshotWrites, ReplicaState.Capture, SameTree, Store.Latest, HasCommit;
    ReplayOnSnapshot(Base(s.store), base, s.store.Entries());
    hide Base;
    if Replayed(d).Ok? { ReplayPointers(base, if i <= 3 then s.store.Entries() else []); }
  }

  // ----- Snapshots over a log that cannot be truncated -----

  /** The log's first commit does not continue the snapshot below it. */
  ghost predicate Misfit(store: Store) {
    HasCommit(store.Entries()) && FirstIndex(store.Entries()) < |Base(store).log|
  }

  /** A snapshot was saved over a log with a commit that could not be truncated: the replica goes on, but cannot be
      recovered. */
  ghost predicate Spoiled(s: ReplicaState) {
    Filed(s) && s.store.leftover && Misfit(s.store) && |Base(s.store).log| <= |s.committedLog|
  }

  lemma MisfitRefused(store: Store)
    requires Misfit(store)
    ensures Replayed(store).Err?
  {
    ReplayFirstCommit(Base(store), store.Entries());
  }

  lemma {:induction false} FirstIndexStays(es: seq<LogEntry>, more: seq<LogEntry>)
    requires HasCommit(es)
    ensures HasCommit(es + more) && FirstIndex(es + more) == FirstIndex(es)
    decreases |more|
  {
    if more == [] {
      assert es + more == es;
    } else {
      var n := |more| - 1;
      FirstIndexStays(es, more[..n]);
      assert (es + more)[..|es + more| - 1] == es + more[..n];
      var i :| 0 <= i < |es| && es[i].BlockCommitted?;
      assert (es + more)[i].BlockCommitted?;
    }
  }

  lemma MisfitStays(store: Store, es: seq<LogEntry>)
    requires Misfit(store)
    ensures Misfit(Extended(store, es))
  {
    FirstIndexStays(store.Entries(), es);
    ExtendedReplay(store, es);
    hide HasCommit, FirstIndex, Store.Latest;
  }

  lemma BlockedWrites(s: ReplicaState)
    requires s.walAttached && s.store.leftover && s.store.log.Some?
    ensures |s.SnapshotWrites()| == 3
    ensures forall i :: 0 <= i < 3 ==> s.SnapshotWrites()[i].leftover && s.SnapshotWrites()[i].log.Some?
    ensures s.SnapshotWrites()[1].Entries() == s.store.Entries()
    ensures s.SnapshotWrites()[2].Entries() == s.store.Entries() + [SnapshotTaken(s.snapshotCounter, s.committedUpTo)]
    ensures s.TakeSnapshot() == s.(store := s.SnapshotWrites()[2])
  {
    hide ReplicaState.Capture, Store.Latest;
  }

  /** Once a snapshot is saved over a log whose first commit is older than the memory, log and snapshot do not fit. */
  lemma SavedMisfits(s: ReplicaState, i: nat)
    requires Filed(s) && s.store.leftover && 1 <= i < |s.SnapshotWrites()|
    requires HasCommit(s.store.Entries()) && FirstIndex(s.store.Entries()) < |s.committedLog|
    ensures var d := s.SnapshotWrites()[i];
            Misfit(d) && |Base(d).log| == |s.committedLog| && d.Latest() == Some(s.Capture())
  {
    var d, marker := s.SnapshotWrites()[i], SnapshotTaken(s.snapshotCounter, s.committedUpTo);
    BlockedWrites(s);
    WindowReplay(s, i);
    var base := Base(d);
    assert |base.log| == |KeysOf(base.log)| == |KeysOf(s.committedLog)| == |s.committedLog|;
    FirstIndexStays(s.store.Entries(), [marker]);
    hide HasCommit, FirstIndex, ReplicaState.SnapshotWrites, Base, Store.Latest;
  }

  /** A snapshot whose truncation fails: with a commit in the log the replica is spoiled, without one the disk still
      gives back everything, the certificate pointer aside. */
  lemma BlockedSnapshot(s: ReplicaState)
    requires Behind(s) && s.store.leftover
    ensures var t := s.TakeSnapshot();
            && t.store.Latest() == Some(s.Capture())
            && (HasCommit(s.store.Entries()) ==> Spoiled(t))
            && (!HasCommit(s.store.Entries()) ==> Durable(t))
  {
    hide ReplicaState.SnapshotWrites, ReplicaState.Capture, Store.Latest, HasCommit, ReplicaState.TakeSnapshot, Base,
      Replayed, FirstIndex, SameTree, NumbersBelow;
    BlockedWrites(s);
    WindowReplay(s, 2);
    SnapshotCrash(s, 2);
    if HasCommit(s.store.Entries()) {
      OldFirstCommit(s);
      SavedMisfits(s, 2);
    }
  }

  lemma OldFirstCommit(s: ReplicaState)
    requires Behind(s) && HasCommit(s.store.Entries())
    ensures FirstIndex(s.store.Entries()) < |s.committedLog|
  {
    ReplayFirstCommit(Base(s.store), s.store.Entries());
  }

  /** Further snapshots do not help. */
  lemma SpoiledSnapshot(s: ReplicaState)
    requires Spoiled(s)
    ensures Spoiled(s.TakeSnapshot()) && s.TakeSnapshot().store.Latest() == Some(s.Capture())
  {
    hide ReplicaState.SnapshotWrites, ReplicaState.Capture, Store.Latest, HasCommit, ReplicaState.TakeSnapshot, Base,
      Replayed, FirstIndex, SameTree, NumbersBelow;
    BlockedWrites(s);
    WindowReplay(s, 2);
    SavedMisfits(s, 2);
  }

  // ----- Crashes in a commit pass -----

  /** The entries a commit pass appends, with the length the log has before it. */
  function CommitEntries(bs: seq<Block>, length: nat): (es: seq<LogEntry>)
    ensures |es| == |bs|
  {
    seq(|bs|, i requires 0 <= i < |bs| => CommittedEntry(bs[i], length + i))
  }

  lemma CommitAppends(s: ReplicaState, b: Block)
    ensures s.ExecuteAndCommit(b).committedLog == s.committedLog + [b]
    ensures s.ExecuteAndCommit(b).store == s.Logged(CommittedEntry(b, |s.committedLog|)).store
    ensures s.ExecuteAndCommit(b).walAttached == s.walAttached
  {
  }

  lemma {:induction false} CommitEachAppends(s: ReplicaState, bs: seq<Block>)
    ensures s.CommitEach(bs).committedLog == s.committedLog + bs
    ensures s.walAttached && s.store.log.Some? ==>
              s.CommitEach(bs).store == Extended(s.store, CommitEntries(bs, |s.committedLog|))
    decreases |bs|
  {
    if bs == [] {
      ExtendedTwice(s.store, [], []);
    } else {
      var t := s.ExecuteAndCommit(bs[0]);
      CommitAppends(s, bs[0]);
      hide ReplicaState.ExecuteAndCommit;
      CommitEachAppends(t, bs[1..]);
      var e := CommittedEntry(bs[0], |s.committedLog|);
      assert CommitEntries(bs, |s.committedLog|) == [e] + CommitEntries(bs[1..], |t.committedLog|);
      ExtendedTwice(s.store, [e], CommitEntries(bs[1..], |t.committedLog|));
    }
  }

  lemma CommitEntriesPrefix(bs: seq<Block>, length: nat, i: nat)
    requires i <= |bs|
    ensures CommitEntries(bs, length)[..i] == CommitEntries(bs[..i], length)
  {
  }

  lemma {:induction false} CommitEachView(s: ReplicaState, bs: seq<Block>)
    ensures s.CommitEach(bs).currentView == s.currentView
    decreases |bs|
  {
    if bs != [] {
      CommitEachView(s.ExecuteAndCommit(bs[0]), bs[1..]);
    }
  }

  /** A durable replica comes back with its own view, log and certificate pointer. */
  lemma RecoverKeys(s: ReplicaState, config: Config, keys: KeyStore)
    requires Durable(s)
    ensures var r := Recover(config, keys, s.store);
            && r.Ok? && r.value.currentView == s.currentView && (Pointed(s) ==> r.value.highQc == PointerOf(s.highQc))
            && KeysOf(r.value.committedLog) == KeysOf(s.committedLog)
  {
    hide Replayed;
  }

  /** A crash in a commit pass, after any number of its writes, recovers exactly the commits written so far. */
  lemma CommitCrash(s: ReplicaState, bs: seq<Block>, i: nat)
    requires Durable(s) && i <= |bs|
    ensures var r := Recover(s.config, s.keystore, LogWrites(s, CommitEntries(bs, |s.committedLog|))[i]);
            && r.Ok?
            && r.value.currentView == s.currentView
            && KeysOf(r.value.committedLog) == KeysOf(s.committedLog) + KeysOf(bs[..i])
  {
    hide ReplicaState.CommitEach, Durable, DurableTree, LogWrites, Recover, CommitEntries, KeysOf;
    var t := s.CommitEach(bs[..i]);
    CommitWritten(s, bs, i);
    DurableCommitEach(s, bs[..i], {});
    CommitEachView(s, bs[..i]);
    CommitEachAppends(s, bs[..i]);
    assert KeysOf(s.committedLog + bs[..i]) == KeysOf(s.committedLog) + KeysOf(bs[..i]);
    RecoverKeys(t, s.config, s.keystore);
  }

  lemma CommitWritten(s: ReplicaState, bs: seq<Block>, i: nat)
    requires Durable(s) && i <= |bs|
    ensures LogWrites(s, CommitEntries(bs, |s.committedLog|))[i] == s.CommitEach(bs[..i]).store
  {
    CommitEachAppends(s, bs[..i]);
    CommitEntriesPrefix(bs, |s.committedLog|, i);
    ExtendedTwice(s.store, [], []);
    hide ReplicaState.CommitEach, CommitEntries;
    assert bs[..0] == [];
  }
}
