/** Stopping the whole system inside a step and starting another one on its directories: when the start is refused,
    and when a view is proposed in a second time. */
module Stops {
  import opened Types
  import opened Ordered
  import opened Crypto
  import opened CommitRule
  import opened Storage
  import opened ReplicaModel
  import opened Recovery
  import opened Durability
  import opened StateSync
  import opened Runs
  import opened SimModel
  import opened RoundOps
  import opened Agreement
  import opened OneProposal
  import Phases

  // ----- The view on disk -----

  predicate ViewsFrom(es: seq<LogEntry>, v: nat) {
    forall i :: 0 <= i < |es| && es[i].ViewChanged? ==> es[i].newView >= v
  }

  predicate NoViews(es: seq<LogEntry>) {
    forall i :: 0 <= i < |es| ==> !es[i].ViewChanged?
  }

  lemma {:induction false} ReplayViewsFrom(r: Recovered, es: seq<LogEntry>, v: nat)
    requires Replay(r, es).Ok? && r.view >= v && ViewsFrom(es, v)
    ensures Replay(r, es).value.view >= v
    ensures NoViews(es) ==> Replay(r, es).value.view == r.view
    decreases |es|
  {
    if es != [] {
      var n := |es| - 1;
      assert forall i :: 0 <= i < n ==> es[..n][i] == es[i];
      ReplayViewsFrom(r, es[..n], v);
    }
  }

  lemma {:induction false} ViewEntriesFrom(view: nat, target: nat)
    ensures ViewsFrom(ViewEntries(view, target), view)
    decreases target - view
  {
    if view < target { ViewEntriesFrom(view + 1, target); }
  }

  lemma CommitsNoViews(bs: seq<Block>, length: nat)
    ensures NoViews(CommitEntries(bs, length))
  {
  }

  lemma QuietNoViews(s: ReplicaState, op: Op)
    requires !Recovers(op) && !op.Advance?
    ensures NoViews(NextEntries(s, op))
  {
    hide ReplicaState.Accepts, ReplicaState.Newer, ReplicaState.ValidProposal, Commits, ReplicaState.Pool,
      ReplicaState.QuorumSize, CommitEntries;
    if op.CommitReady? { CommitsNoViews(Commits(s.blockTree, s.committedLog), |s.committedLog|); }
  }

  lemma EntriesFrom(s: ReplicaState, op: Op)
    requires Durable(s) && (op.Restart? ==> false)
    ensures ViewsFrom(NextEntries(s, op), s.currentView)
  {
    hide Durable, Recover, Restarted, CommitEntries;
    if op.Rejoin? {
      DurableRestart(s);
      ViewEntriesFrom(s.currentView, op.target);
    } else if !op.Advance? {
      QuietNoViews(s, op);
    }
  }

  lemma SaverFrom(s: ReplicaState, op: Op)
    requires Durable(s) && Saves(op)
    ensures Saver(s, op).currentView >= s.currentView
    ensures op.Snap? ==> Saver(s, op).currentView == s.currentView
  {
    hide Durable, DurableTree, Restarted, Import, AdvanceTo;
    if op.Rejoin? {
      DurableRestart(s);
      if op.donor.Some? { ImportParts(Restarted(s), op.donor.value); }
    }
  }

  /** After its save the directory is at the view of the state the snapshot was taken from. */
  lemma SavedView(s: ReplicaState, op: Op, i: nat)
    requires Durable(s) && KeyedDonor(op) && Saves(op) && i >= SavePoint(s, op) && Replayed(DiskAt(s, op, i)).Ok?
    ensures Replayed(DiskAt(s, op, i)).value.view == Saver(s, op).currentView
  {
    hide Durable, NextEntries, Saver, Replayed, ReplicaState.SnapshotWrites, ReplicaState.Capture, Store.Latest,
      HasCommit, DiskAt, DiskOk, Behind;
    var y, k := Saver(s, op), i - |NextEntries(s, op)|;
    DurableAttached(s);
    SaveCrash(s, op, i);
    SaverReady(s, op);
    BehindAttached(y);
    SnapshotCrash(y, if k < |y.SnapshotWrites()| then k else |y.SnapshotWrites()| - 1);
  }

  lemma DurableView(s: ReplicaState)
    requires Durable(s)
    ensures Replayed(s.store).Ok? && Replayed(s.store).value.view == s.currentView
  {
    hide Replayed;
  }

  /** A crash does not take a replica back to an earlier view, nor further than its last view change. */
  lemma CrashView(s: ReplicaState, op: Op, writes: nat)
    requires Durable(s) && KeyedDonor(op) && !op.Restart? && Replayed(DiskAt(s, op, writes)).Ok?
    ensures var view := Replayed(DiskAt(s, op, writes)).value.view;
            && view >= s.currentView
            && (!op.Rejoin? ==> view == s.currentView + if op.Advance? && writes >= 1 then 1 else 0)
  {
    hide Durable, Replayed, Replay, NextEntries, Saver, DiskAt, Extended, DiskOk, ReplicaState.SnapshotWrites;
    if Saves(op) && writes >= SavePoint(s, op) {
      SavedView(s, op, writes);
      SaverFrom(s, op);
    } else {
      var i := if writes < SavePoint(s, op) then writes else |NextEntries(s, op)|;
      if writes >= SavePoint(s, op) { PastEnd(s, op, writes); }
      AppendCrash(s, op, i);
      PrefixView(s, op, i);
      if op.Advance? { AdvanceEntries(s, op); }
    }
  }

  lemma AdvanceEntries(s: ReplicaState, op: Op)
    requires op.Advance?
    ensures NextEntries(s, op) == [ViewChanged(s.currentView, s.currentView + 1, op.reason)]
  {
  }

  lemma PrefixView(s: ReplicaState, op: Op, i: nat)
    requires Durable(s) && KeyedDonor(op) && !op.Restart? && i <= |NextEntries(s, op)|
    ensures Replayed(s.store).Ok?
    ensures var q := Replay(Replayed(s.store).value, NextEntries(s, op)[..i]);
            q.Ok? ==> && q.value.view >= s.currentView
                      && (!op.Rejoin? ==> q.value.view == s.currentView + if op.Advance? && i >= 1 then 1 else 0)
  {
    hide Durable, Replayed, NextEntries;
    DurableView(s);
    var r, es := Replayed(s.store).value, NextEntries(s, op);
    EntriesFrom(s, op);
    assert forall k :: 0 <= k < i ==> es[..i][k] == es[k];
    if Replay(r, es[..i]).Ok? { ReplayViewsFrom(r, es[..i], s.currentView); }
    if op.Advance? {
      AdvanceEntries(s, op);
      if i == 1 { assert es[..1] == [] + [es[0]]; }
    } else if !op.Rejoin? {
      QuietNoViews(s, op);
    }
  }

  // ----- The snapshots on disk -----

  /** The snapshots a crash leaves are those there were, and perhaps the one the operation takes. */
  lemma DiskSnapshots(s: ReplicaState, op: Op, writes: nat)
    requires s.walAttached && s.store.log.Some?
    ensures var d := DiskAt(s, op, writes);
            forall k :: k in d.snapshots ==>
              || (k in s.store.snapshots && d.snapshots[k] == s.store.snapshots[k])
              || (Saves(op) && d.snapshots[k] == Saver(s, op).Capture())
              || (Saves(op) && k in Saver(s, op).store.snapshots
                  && d.snapshots[k] == Saver(s, op).store.snapshots[k])
  {
    hide NextEntries, Saver, ReplicaState.SnapshotWrites, ReplicaState.Capture, DiskAt;
    if Saves(op) && writes >= SavePoint(s, op) {
      var all, k := Saver(s, op).SnapshotWrites(), writes - |NextEntries(s, op)|;
      SaveCrash(s, op, writes);
      WritesSnapshots(Saver(s, op), if k < |all| then k else |all| - 1);
    } else {
      AppendedDisk(s, op, writes);
    }
  }

  lemma CutStatic(s: ReplicaState, i: nat, n: nat, op: Op, writes: nat)
    requires s.walAttached && s.store.log.Some? && StaticDisk(s.store, n)
    requires Saves(op) ==> StaticNode(Saver(s, op), i, n) && Keyed(Saver(s, op).blockTree)
    ensures StaticDisk(DiskAt(s, op, writes), n)
  {
    hide NextEntries, Saver, ReplicaState.Capture, DiskAt, StaticSnapshot;
    DiskSnapshots(s, op, writes);
    if Saves(op) { CaptureStatic(Saver(s, op), i, n); }
  }

  // ----- One replica stopped in its operations -----

  /** How far a replica got: the operations it finished, and the durable writes of the next one it made. */
  datatype Cut = Cut(done: nat, writes: nat)

  /** The state after the operations that were finished. */
  ghost function Reached(r: ReplicaState, ops: seq<Op>, cut: Cut): ReplicaState {
    ApplyAll(r, if cut.done < |ops| then ops[..cut.done] else ops)
  }

  ghost function CutDisk(r: ReplicaState, ops: seq<Op>, cut: Cut): Store {
    var q := Reached(r, ops, cut);
    if cut.done < |ops| then DiskAt(q, ops[cut.done], cut.writes) else q.store
  }

  /** It was stopped between the save of a snapshot and the truncation of a log that holds a commit. */
  ghost predicate InWindow(r: ReplicaState, ops: seq<Op>, cut: Cut) {
    cut.done < |ops| && Runs.Refused(Reached(r, ops, cut), ops[cut.done], cut.writes)
  }

  /** Recovery from this directory cannot succeed: the replica was in that window, or spoiled before. */
  ghost predicate CutRefused(r: ReplicaState, ops: seq<Op>, cut: Cut) {
    InWindow(r, ops, cut) || Misfit(Reached(r, ops, cut).store)
  }

  /** What matters of a directory the system was stopped with: recovery is refused or starts in this view. */
  ghost predicate DiskAtView(d: Store, n: nat, refused: bool, view: nat) {
    && StaticDisk(d, n)
    && (Replayed(d).Err? <==> refused)
    && (Replayed(d).Ok? ==> DiskOk(d) && Replayed(d).value.view == view)
  }

  lemma SpoiledOrDurable(r: ReplicaState)
    requires Kept(r)
    ensures r.walAttached && r.store.log.Some?
    ensures Durable(r) <==> !Misfit(r.store)
    ensures !Durable(r) ==> Spoiled(r)
  {
    if Misfit(r.store) { MisfitRefused(r.store); }
    hide Replayed, Misfit;
  }

  lemma OpCut(r: ReplicaState, i: nat, n: nat, op: Op, writes: nat)
    requires NodeOk(r, i, n) && StaticOp(op)
    ensures DiskAtView(DiskAt(r, op, writes), n, Misfit(r.store) || Runs.Refused(r, op, writes),
                       r.currentView + if op.Advance? && writes >= 1 then 1 else 0)
  {
    hide Kept, Durable, Spoiled, Misfit, DiskAt, DiskOk, Runs.Refused, Replayed, StaticDisk;
    SpoiledOrDurable(r);
    if Saves(op) { SaverSelf(r, op); }
    KeptKeyed(r);
    NodeDiskStatic(r, i, n);
    CutStatic(r, i, n, op, writes);
    if Durable(r) {
      CrashDisk(r, op, writes);
      if Replayed(DiskAt(r, op, writes)).Ok? { CrashView(r, op, writes); }
    } else {
      SpoiledCrash(r, op, writes);
      MisfitRefused(DiskAt(r, op, writes));
    }
  }

  lemma SaverSelf(r: ReplicaState, op: Op)
    requires op.Snap?
    ensures Saver(r, op) == r
  {
  }

  lemma NodeDiskStatic(r: ReplicaState, i: nat, n: nat)
    requires NodeOk(r, i, n)
    ensures StaticNode(r, i, n) && StaticDisk(r.store, n)
  {
  }

  lemma NodeStore(r: ReplicaState, i: nat, n: nat)
    requires NodeOk(r, i, n)
    ensures DiskAtView(r.store, n, Misfit(r.store), r.currentView)
  {
    hide Kept, Durable, Spoiled, Misfit, DiskOk, Replayed;
    SpoiledOrDurable(r);
    if Durable(r) {
      DurableDisk(r);
      DurableView(r);
    } else {
      MisfitRefused(r.store);
    }
  }

  /** The last of the operations, the change to the next view, is on disk. */
  predicate ViewLogged(ops: seq<Op>, cut: Cut) {
    cut.done >= |ops| || (cut.done == |ops| - 1 && cut.writes >= 1)
  }

  lemma QuietPrefix(ops: seq<Op>, k: nat)
    requires AllQuiet(ops) && k <= |ops|
    ensures AllQuiet(ops[..k])
  {
    hide Quiet;
    assert forall j :: 0 <= j < k ==> ops[..k][j] == ops[j];
  }

  /** A replica in order, stopped anywhere in a round. */
  lemma NodeCut(r: ReplicaState, i: nat, n: nat, work: seq<Op>, reason: Reason, cut: Cut)
    requires NodeOk(r, i, n) && AllQuiet(work)
    ensures var ops := work + [Advance(reason)];
            DiskAtView(CutDisk(r, ops, cut), n, CutRefused(r, ops, cut),
                       r.currentView + if ViewLogged(ops, cut) then 1 else 0)
  {
    hide NodeOk, Apply, ApplyAll, DiskAt, Runs.Refused, DiskAtView, Misfit, Quiet;
    var ops, q := work + [Advance(reason)], Reached(r, work + [Advance(reason)], cut);
    if cut.done < |work| {
      QuietPrefix(work, cut.done);
      assert ops[..cut.done] == work[..cut.done] && ops[cut.done] == work[cut.done];
      assert Quiet(work[cut.done]);
      NodeOps(r, i, n, work[..cut.done]);
      QuietIs(ops[cut.done]);
      OpCut(q, i, n, ops[cut.done], cut.writes);
    } else {
      NodeOps(r, i, n, work);
      if cut.done == |work| {
        assert ops[..cut.done] == work && ops[cut.done] == Advance(reason);
        OpCut(q, i, n, ops[cut.done], cut.writes);
      } else {
        ApplyLast(r, work, Advance(reason));
        NodeOp(ApplyAll(r, work), i, n, Advance(reason));
        NodeStore(q, i, n);
      }
    }
  }

  lemma QuietIs(op: Op)
    requires Quiet(op)
    ensures StaticOp(op) && !op.Advance?
  {
  }

  // ----- A rejoin stopped in its writes -----

  lemma RejoinSaver(s: SimState, id: nat)
    requires Sound(s) && CanRejoin(s, id) && DiskOk(s.replicas[id].store)
    ensures var y := Saver(OnDisk(s, id), RejoinOp(s, id)); StaticNode(y, id, s.N()) && Keyed(y.blockTree)
  {
    var r := s.replicas[id];
    assert Status(s, id);
    NodeRecovers(r, id, s.N(), s.keystores[id]);
    RecoverIff(r.config, s.keystores[id], r.store);
    var a := Attached(Recover(r.config, s.keystores[id], r.store).value);
    KeptKeyed(a);
    SyncedKeeps(s, id, a);
    RejoinKeyed(s, id);
    OnDiskDurable(s, id);
    OnDiskRestarts(s, id);
    SyncedRuns(s, id, a);
    hide Attached, Synced, Recover, Replayed, NodeOk, Sound, Kept, DiskOk, StaticNode, RejoinOp, OnDisk, Durable,
      SyncWith;
  }

  lemma RejoinCut(s: SimState, id: nat, cut: Cut)
    requires Sound(s) && CanRejoin(s, id) && DiskOk(s.replicas[id].store)
    ensures var x, ops := OnDisk(s, id), [RejoinOp(s, id)];
            var d := CutDisk(x, ops, cut);
            && StaticDisk(d, s.N())
            && (Replayed(d).Err? <==> CutRefused(x, ops, cut))
            && (Replayed(d).Ok? ==> DiskOk(d) && Replayed(d).value.view >= x.currentView)
  {
    hide Sound, Durable, DiskOk, Replayed, Misfit, OnDisk, RejoinOp, DiskAt, Runs.Refused, Saver, StaticNode, NodeOk,
      Recover, Apply, StaticDisk;
    SoundShaped(s);
    var x, op := OnDisk(s, id), RejoinOp(s, id);
    OnDiskDurable(s, id);
    RejoinKeyed(s, id);
    DurableAttached(x);
    DurableKept(x);
    SpoiledOrDurable(x);
    if cut.done < |[op]| {
      assert [op][..cut.done] == [] && Reached(x, [op], cut) == x;
      RejoinSaver(s, id);
      CrashedStatic(s, id);
      CutStatic(x, id, s.N(), op, cut.writes);
      CrashDisk(x, op, cut.writes);
      if Replayed(DiskAt(x, op, cut.writes)).Ok? { CrashView(x, op, cut.writes); }
    } else {
      ApplyOne(x, op);
      RejoinRuns(s, id);
      RejoinRestores(s, id);
      var q := Apply(x, op);
      assert q.currentView >= x.currentView by { OnDiskView(s, id); }
      NodeStore(q, id, s.N());
    }
  }

  lemma OnDiskView(s: SimState, id: nat)
    requires s.Shaped() && id < s.N()
    requires Recover(s.replicas[id].config, s.keystores[id], s.replicas[id].store).Ok?
    ensures OnDisk(s, id).currentView ==
            Recover(s.replicas[id].config, s.keystores[id], s.replicas[id].store).value.currentView
  {
    hide Recover;
  }

  lemma CrashedStatic(s: SimState, id: nat)
    requires Sound(s) && id < s.N() && id in s.crashed
    ensures StaticDisk(s.replicas[id].store, s.N())
  {
    assert Status(s, id);
  }

  // ----- The whole system stopped in a step -----

  /** The operations replica i performs in a step. */
  ghost function StepOps(s: SimState, a: Action, i: nat): seq<Op>
    requires s.Shaped() && i < s.N()
  {
    match a
    case RunRound(kind, now) =>
      var t := Started(s);
      if SimModel.Refused(t) || i in t.Down() then []
      else RoundWork(t, kind, now, i) + [Advance(EndReason(t, kind, now))]
    case RejoinReplica(id) =>
      if i == id && CanRejoin(s, id) && Recover(s.replicas[id].config, s.keystores[id], s.replicas[id].store).Ok?
      then [RejoinOp(s, id)] else []
    case _ => []
  }

  /** The state these operations start from: for a rejoin, what is found on disk. */
  function StepFrom(s: SimState, a: Action, i: nat): ReplicaState
    requires s.Shaped() && i < s.N()
  {
    if a.RejoinReplica? && i == a.id && CanRejoin(s, i) then OnDisk(s, i) else s.replicas[i]
  }

  /** The directories left behind when every replica was stopped at its cut. */
  ghost function StoppedStores(s: SimState, a: Action, cuts: seq<Cut>): (stores: seq<Store>)
    requires s.Shaped() && |cuts| == s.N()
    ensures |stores| == s.N()
    ensures forall i :: 0 <= i < s.N() ==>
              stores[i] == CutDisk(StepFrom(s, a, i), StepOps(s, a, i), cuts[i])
  {
    seq(s.N(), i requires 0 <= i < s.N() => CutDisk(StepFrom(s, a, i), StepOps(s, a, i), cuts[i]))
  }

  /** Replica i was stopped where recovery is refused. */
  ghost predicate StopRefused(s: SimState, a: Action, i: nat, cut: Cut)
    requires s.Shaped() && i < s.N()
  {
    CutRefused(StepFrom(s, a, i), StepOps(s, a, i), cut)
  }

  /** A replica that works in a round is up from before the round's clock tick on. */
  lemma StartedUp(s: SimState, i: nat)
    requires s.Shaped() && i < s.N() && i !in Started(s).Down()
    ensures i !in s.crashed && Started(s).replicas[i] == s.replicas[i]
  {
  }

  lemma StartedDown(s: SimState, i: nat)
    requires s.Shaped() && i < s.N()
    ensures Started(s).replicas[i].store == s.replicas[i].store
  {
  }

  /** What the leader of a started round proposes is static. */
  lemma StartedProposal(s: SimState, kind: RoundKind, now: nat)
    requires Sound(s) && !SimModel.Refused(Started(s))
    ensures var t := Started(s);
            && t.Shaped() && t.N() == s.N() > 0
            && (CurrentLeader(t) !in t.Down() && Proposal(t, kind, now).1.Some? ==>
                  var b := Proposal(t, kind, now).1.value;
                  && Static(b.command) && CurrentLeader(t) !in t.crashed && CurrentLeader(t) < t.N()
                  && b.view == t.replicas[CurrentLeader(t)].currentView && b.view % t.N() == CurrentLeader(t))
  {
    hide Sound, Started, CurrentLeader, Proposal, SimState.Down, SimState.Shaped;
    SoundShaped(s);
    var t := Started(s);
    StartedSound(s);
    SoundShaped(t);
    RefusedEmpty(t);
    if CurrentLeader(t) !in t.Down() { SoundProposal(t, kind, now); }
  }

  lemma RoundStop(s: SimState, kind: RoundKind, now: nat, i: nat, cut: Cut)
    requires Sound(s) && i < s.N() && !SimModel.Refused(Started(s)) && i !in Started(s).Down()
    ensures var a := RunRound(kind, now);
            var ops := StepOps(s, a, i);
            && StepFrom(s, a, i) == s.replicas[i] && i !in s.crashed
            && DiskAtView(CutDisk(s.replicas[i], ops, cut), s.N(), CutRefused(s.replicas[i], ops, cut),
                          s.replicas[i].currentView + if ViewLogged(ops, cut) then 1 else 0)
  {
    hide NodeOk, CrashedOk, Started, RoundWork, EndReason, CutDisk, CutRefused, DiskAtView, SimState.Down,
      SimState.Shaped, CurrentLeader, Proposal, AllQuiet;
    assert Status(s, i);
    SoundShaped(s);
    StartedUp(s, i);
    StartedProposal(s, kind, now);
    var t := Started(s);
    WorkQuiet(t, kind, now, i);
    NodeCut(s.replicas[i], i, s.N(), RoundWork(t, kind, now, i), EndReason(t, kind, now), cut);
  }

  /** A replica that does nothing in the step. */
  lemma IdleStop(s: SimState, i: nat, cut: Cut)
    requires Sound(s) && i < s.N()
    ensures var d := CutDisk(s.replicas[i], [], cut);
            && d == s.replicas[i].store && StaticDisk(d, s.N())
            && (Replayed(d).Err? <==> CutRefused(s.replicas[i], [], cut))
            && (Replayed(d).Ok? ==> DiskOk(d))
            && forall v: nat :: Past(s, i, v) ==> DiskPast(d, v)
  {
    hide Replayed, Misfit, DiskOk, Durable, DiskPast, Spoiled;
    var r := s.replicas[i];
    assert Status(s, i);
    if i !in s.crashed {
      NodeDisk(r, i, s.N());
      NodeStore(r, i, s.N());
    } else if Misfit(r.store) {
      MisfitRefused(r.store);
    } else {
      DiskOkReplays(r.store);
    }
  }

  lemma DiskOkReplays(store: Store)
    requires DiskOk(store)
    ensures Replayed(store).Ok?
  {
    hide Replayed;
  }

  /** Where a replica may be stopped in a step: recovery from its directory is refused in the cases named above, and
      otherwise starts in no earlier view. */
  lemma StopNode(s: SimState, a: Action, i: nat, cut: Cut)
    requires Sound(s) && i < s.N()
    ensures var d := CutDisk(StepFrom(s, a, i), StepOps(s, a, i), cut);
            && StaticDisk(d, s.N())
            && (Replayed(d).Err? <==> StopRefused(s, a, i, cut))
            && (Replayed(d).Ok? ==> DiskOk(d))
            && forall v: nat :: Past(s, i, v) ==> DiskPast(d, v)
  {
    hide CutDisk, CutRefused, Replayed, DiskOk, Started, RoundWork, EndReason, StaticDisk, CrashedOk, NodeOk,
      OnDisk, RejoinOp, Recover, SimState.Down;
    SoundShaped(s);
    match a
    case RunRound(kind, now) =>
      if SimModel.Refused(Started(s)) || i in Started(s).Down() {
        IdleStop(s, i, cut);
      } else {
        RoundStop(s, kind, now, i, cut);
      }
    case RejoinReplica(id) =>
      if i == id && CanRejoin(s, id) {
        assert Status(s, id);
        RejoinStop(s, id, cut);
      } else {
        IdleStop(s, i, cut);
      }
    case _ => IdleStop(s, i, cut);
  }

  lemma RejoinStop(s: SimState, id: nat, cut: Cut)
    requires Sound(s) && CanRejoin(s, id)
    ensures var a := RejoinReplica(id);
            var d := CutDisk(StepFrom(s, a, id), StepOps(s, a, id), cut);
            && StaticDisk(d, s.N())
            && (Replayed(d).Err? <==> StopRefused(s, a, id, cut))
            && (Replayed(d).Ok? ==> DiskOk(d))
            && forall v: nat :: Past(s, id, v) ==> DiskPast(d, v)
  {
    hide CutDisk, CutRefused, Replayed, DiskOk, StaticDisk, Recover, Misfit, OnDisk, RejoinOp, Durable, StaticNode;
    var r := s.replicas[id];
    assert Status(s, id);
    CrashedRecovers(r.store, r.config, s.keystores[id]);
    if DiskOk(r.store) {
      DiskOkReplays(r.store);
      RejoinCut(s, id, cut);
      OnDiskDurable(s, id);
    } else {
      OnDiskNone(s, id);
      IdleStop(s, id, cut);
    }
  }

  lemma OnDiskNone(s: SimState, id: nat)
    requires s.Shaped() && id < s.N()
    requires Recover(s.replicas[id].config, s.keystores[id], s.replicas[id].store).Err?
    ensures OnDisk(s, id) == s.replicas[id]
  {
    hide Recover;
  }

  /** Cuts behind all operations leave the directories the step ends with. */
  lemma WholeStep(s: SimState, a: Action, i: nat, cut: Cut)
    requires Sound(s) && FixedMembership(a) && i < s.N() && cut.done >= |StepOps(s, a, i)|
    ensures Step(s, a).N() == s.N()
    ensures CutDisk(StepFrom(s, a, i), StepOps(s, a, i), cut) == Step(s, a).replicas[i].store
  {
    hide Started, RoundBody, RoundWork, EndReason, Apply, NodeOk, CrashedOk, OnDisk, RejoinOp, Recover, CurrentLeader,
      SimModel.Rejoin, SimState.Down, DiskOk, Misfit;
    SoundShaped(s);
    StepShaped(s, a);
    match a
    case RunRound(kind, now) => RoundStores(s, kind, now, i);
    case RejoinReplica(id) =>
      if CanRejoin(s, id) {
        CrashedDisk(s, id);
        CrashedRecovers(s.replicas[id].store, s.replicas[id].config, s.keystores[id]);
        if Recover(s.replicas[id].config, s.keystores[id], s.replicas[id].store).Ok? {
          OnDiskDurable(s, id);
          RejoinRuns(s, id);
          RejoinParts(s, id);
          ApplyOne(OnDisk(s, id), RejoinOp(s, id));
        } else {
          OnDiskNone(s, id);
          RejoinRestoresDisk(s, id);
        }
      } else {
        assert SimModel.Rejoin(s, id) == s by { NoRejoin(s, id); }
      }
    case EnqueueCommand(_) => assert CurrentLeader(s) < s.N() || s.N() == 0;
    case _ =>
  }

  lemma CrashedDisk(s: SimState, id: nat)
    requires Sound(s) && id < s.N() && id in s.crashed
    ensures DiskKept(s.replicas[id].store)
  {
    assert Status(s, id);
  }

  lemma NoRejoin(s: SimState, id: nat)
    requires s.Shaped() && !CanRejoin(s, id)
    ensures SimModel.Rejoin(s, id) == s
  {
  }

  lemma RoundStores(s: SimState, kind: RoundKind, now: nat, i: nat)
    requires s.Shaped() && i < s.N()
    ensures Round(s, kind, now).N() == s.N()
    ensures Round(s, kind, now).replicas[i].store == ApplyAll(s.replicas[i], StepOps(s, RunRound(kind, now), i)).store
  {
    hide Started, RoundBody, RoundWork, EndReason, Apply, CurrentLeader, SimState.Down, ProcessTimeouts, ApplyAll;
    var t := Started(s);
    StartedDown(s, i);
    NothingApplied(s.replicas[i]);
    if !SimModel.Refused(t) {
      RefusedEmpty(t);
      RoundBodyShaped(t, kind, now);
      RoundRuns(t, kind, now, i);
      TimeoutStores(RoundBody(t, kind, now), i);
      if i !in t.Down() { StartedUp(s, i); }
    }
  }

  lemma NothingApplied(r: ReplicaState)
    ensures ApplyAll(r, []) == r
  {
  }

  lemma TimeoutStores(s: SimState, i: nat)
    requires s.Shaped() && i < s.N()
    ensures ProcessTimeouts(s).replicas[i].store == s.replicas[i].store
  {
  }

  // ----- Starting on the directories a stopped system left -----

  /** The first replica from k on whose directory cannot be recovered decides that the start is refused. */
  lemma StartRefused(f: nat, maxSteps: nat, keystores: seq<KeyStore>, stores: seq<Store>)
    requires |stores| == |keystores|
    ensures ResumeSim(f, maxSteps, keystores, stores).Err? <==>
            exists i :: 0 <= i < |stores| && Replayed(stores[i]).Err?
  {
    var n := |stores|;
    forall i | 0 <= i < n
      ensures Recover(Config(n, f, i, 5000), keystores[i], stores[i]).Err? <==> Replayed(stores[i]).Err?
    {
      RecoverIff(Config(n, f, i, 5000), keystores[i], stores[i]);
    }
    hide Recover, Attached, Replayed;
  }

  lemma NodeResumes(config: Config, keys: KeyStore, store: Store, i: nat)
    requires DiskOk(store) && StaticDisk(store, config.n) && config.id == i && i < config.n
    ensures Recover(config, keys, store).Ok?
    ensures var t := Attached(Recover(config, keys, store).value);
            NodeOk(t, i, config.n) && t.currentView == Replayed(store).value.view
  {
    var blank := Blank(config, keys, store);
    BlankStatic(config, keys, store);
    NodeRecovers(blank, i, config.n, keys);
    DiskOkReplays(store);
    hide DiskOk, Recover, Attached, NodeOk, Replayed, StaticDisk;
  }

  lemma BlankStatic(config: Config, keys: KeyStore, store: Store)
    requires StaticDisk(store, config.n)
    ensures StaticNode(Blank(config, keys, store), config.id, config.n)
  {
  }

  /** Everybody is up, in the view recovery found. */
  ghost predicate StartsFrom(t: SimState, stores: seq<Store>) {
    && |stores| == t.N() && t.crashed == {} && t.unresponsive == {} && t.step == 0
    && forall i :: 0 <= i < t.N() ==>
         Replayed(stores[i]).Ok? && t.replicas[i].currentView == Replayed(stores[i]).value.view
  }

  /** A system stopped anywhere inside a step, each replica on its own, can be started again, with new keys, unless
      recovery of some replica is refused; every replica is then in order and in no earlier view. */
  lemma ResumeSound(s: SimState, a: Action, cuts: seq<Cut>, f: nat, maxSteps: nat, keystores: seq<KeyStore>)
    requires Sound(s) && |cuts| == |keystores| == s.N()
    ensures s.Shaped()
    ensures var r := ResumeSim(f, maxSteps, keystores, StoppedStores(s, a, cuts));
            && (r.Err? <==> exists i: nat :: i < s.N() && StopRefused(s, a, i, cuts[i]))
            && (r.Ok? ==> r.value.Shaped() && Sound(r.value) && ViewsGrow(s, r.value)
                          && StartsFrom(r.value, StoppedStores(s, a, cuts)))
  {
    hide NodeOk, Recover, Attached, Sound, SimState.Shaped, StopRefused, DiskOk, Replayed, StaticDisk, CutDisk,
      StepOps, StepFrom, DiskPast;
    SoundShaped(s);
    var n, stores := s.N(), StoppedStores(s, a, cuts);
    forall i: nat | i < n
      ensures StaticDisk(stores[i], n) && (Replayed(stores[i]).Err? <==> StopRefused(s, a, i, cuts[i]))
      ensures Replayed(stores[i]).Ok? ==> DiskOk(stores[i])
      ensures forall v: nat :: Past(s, i, v) ==> DiskPast(stores[i], v)
    {
      StopNode(s, a, i, cuts[i]);
    }
    StartRefused(f, maxSteps, keystores, stores);
    if ResumeSim(f, maxSteps, keystores, stores).Ok? { Resumes(s, stores, f, maxSteps, keystores); }
  }

  lemma Resumes(s: SimState, stores: seq<Store>, f: nat, maxSteps: nat, keystores: seq<KeyStore>)
    requires |stores| == |keystores| == s.N() && ResumeSim(f, maxSteps, keystores, stores).Ok?
    requires forall i: nat :: i < s.N() ==> StaticDisk(stores[i], s.N()) && DiskOk(stores[i])
    requires forall i: nat, v: nat :: i < s.N() && Past(s, i, v) ==> DiskPast(stores[i], v)
    ensures var t := ResumeSim(f, maxSteps, keystores, stores).value;
            t.Shaped() && Sound(t) && ViewsGrow(s, t) && StartsFrom(t, stores) && t.maxSteps == maxSteps
  {
    hide NodeOk, Recover, Attached, SimState.Shaped, DiskOk, StaticDisk, Replayed;
    var t, n := ResumeSim(f, maxSteps, keystores, stores).value, s.N();
    ResumeShaped(f, maxSteps, keystores, stores);
    forall i: nat | i < n
      ensures NodeOk(t.replicas[i], i, n)
      ensures Replayed(stores[i]).Ok? && t.replicas[i].currentView == Replayed(stores[i]).value.view
    {
      DiskOkReplays(stores[i]);
      NodeResumes(Config(n, f, i, 5000), keystores[i], stores[i], i);
    }
    SoundWhenUp(t);
  }

  lemma SoundWhenUp(t: SimState)
    requires t.persistence && t.Shaped() && t.crashed == {}
    requires forall i: nat :: i < t.N() ==> NodeOk(t.replicas[i], i, t.N())
    ensures Sound(t)
  {
    hide NodeOk, CrashedOk;
    forall i: nat | i < t.N() ensures Status(t, i) {}
  }

  /** Block hashes are given out from 1 again: the first proposal of the restarted system replaces a block of that
      hash in the leader's tree. */
  lemma ResumeReusesHashes(f: nat, maxSteps: nat, keystores: seq<KeyStore>, stores: seq<Store>, kind: RoundKind,
                           now: nat)
    requires |stores| == |keystores| > 0 && ResumeSim(f, maxSteps, keystores, stores).Ok?
    ensures var t := ResumeSim(f, maxSteps, keystores, stores).value;
            && t.N() > 0
            && var (p, b) := Proposal(t, kind, now);
               b.Some? ==> b.value.hash == 1 &&
                           p.blockTree == t.replicas[CurrentLeader(t)].blockTree[1 := b.value]
  {
    hide CurrentLeader, Proposal, Recover, Attached;
    ProposalHash(ResumeSim(f, maxSteps, keystores, stores).value, kind, now);
  }

  lemma ProposalHash(s: SimState, kind: RoundKind, now: nat)
    requires s.N() > 0
    ensures var (p, b) := Proposal(s, kind, now);
            b.Some? ==> b.value.hash == s.nextGlobalHash
                        && p.blockTree == s.replicas[CurrentLeader(s)].blockTree[s.nextGlobalHash := b.value]
  {
    hide CurrentLeader, ReplicaState.IsLeader, ReplicaState.ShouldProposeDummy, LatestHash;
  }

  // ----- Proposing in the same view again -----

  /** Crashing every replica below k except one. */
  function CrashOthers(but: nat, k: nat): (actions: seq<Action>)
    ensures forall i :: 0 <= i < |actions| ==> FixedMembership(actions[i])
  {
    if k == 0 then []
    else CrashOthers(but, k - 1) + if k - 1 == but then [] else [Crash(k - 1)]
  }

  /** Everybody else is down. */
  ghost predicate Alone(s: SimState, t: SimState, l: nat, k: nat) {
    && t.Shaped() && t.N() == s.N() && l < s.N() && t.replicas[l] == s.replicas[l]
    && t.persistence && t.unresponsive == {} && t.step == s.step && t.maxSteps == s.maxSteps
    && forall i :: i in t.crashed <==> 0 <= i < k && i != l
  }

  lemma CrashStep(s: SimState, t: SimState, l: nat, k: nat)
    requires Alone(s, t, l, k) && k < s.N()
    ensures Alone(s, if k == l then t else CrashReplica(t, k), l, k + 1)
    ensures ProposedIn(t, Crash(k)) == []
  {
    hide Blank;
    Phases.CrashIs(t, k);
  }

  lemma DriveLast(s: SimState, init: seq<Action>, a: Action)
    requires s.Shaped()
    ensures Drive(s, init + [a]) == Step(Drive(s, init), a)
    ensures Proposals(s, init + [a]) == Proposals(s, init) + ProposedIn(Drive(s, init), a)
  {
    hide Step, ProposedIn;
    assert (init + [a])[..|init + [a]| - 1] == init;
  }

  lemma CrashOnce(s: SimState, t: SimState, l: nat, k: nat)
    requires Alone(s, t, l, k) && k < s.N()
    ensures t.Shaped() && Alone(s, if k == l then t else Step(t, Crash(k)), l, k + 1)
    ensures ProposedIn(t, Crash(k)) == []
  {
    hide CrashReplica;
    CrashStep(s, t, l, k);
  }

  lemma {:induction false} OthersCrash(s: SimState, l: nat, k: nat)
    requires Alone(s, s, l, 0) && s.Shaped() && k <= s.N()
    ensures Alone(s, Drive(s, CrashOthers(l, k)), l, k) && Proposals(s, CrashOthers(l, k)) == []
    decreases k
  {
    hide Alone, Step, ProposedIn, SimState.Shaped, CrashOthers;
    CrashOthersIs(l, k);
    if k > 0 {
      var init := CrashOthers(l, k - 1);
      OthersCrash(s, l, k - 1);
      CrashOnce(s, Drive(s, init), l, k - 1);
      if k - 1 != l { DriveLast(s, init, Crash(k - 1)); }
    }
  }

  lemma CrashOthersIs(l: nat, k: nat)
    ensures CrashOthers(l, k) ==
            if k == 0 then []
            else if k - 1 == l then CrashOthers(l, k - 1)
            else CrashOthers(l, k - 1) + [Crash(k - 1)]
  {
  }

  /** A replica that is alone in a view it leads proposes in it. */
  lemma AloneProposes(s: SimState, t: SimState, l: nat)
    requires Alone(s, t, l, s.N()) && s.step < s.maxSteps
    requires t.replicas[l].IsLeader(t.replicas[l].currentView) && t.replicas[l].currentView % t.N() == l
    ensures var bs := ProposedIn(t, RunRound(Plain, 0)); |bs| == 1 && bs[0].view == t.replicas[l].currentView
  {
    hide ReplicaState.IsLeader, MaxView, CurrentLeader;
    var u := Started(t);
    AloneStarts(s, t, l);
    AloneLeads(s, u, l);
    RefusedEmpty(u);
    ProposesPlain(u.replicas[l], u.nextGlobalHash, 0);
  }

  lemma ProposesPlain(r: ReplicaState, hash: Hash, now: nat)
    requires r.IsLeader(r.currentView)
    ensures var b := ProposeKind(r, Plain, r.currentView, hash, now).1; b.Some? && b.value.view == r.currentView
  {
    hide ReplicaState.IsLeader, LatestHash;
  }

  lemma AloneStarts(s: SimState, t: SimState, l: nat)
    requires Alone(s, t, l, s.N()) && s.step < s.maxSteps
    ensures Alone(s, Started(t), l, s.N()) && !SimModel.Refused(Started(t)) && l !in Started(t).Down()
  {
    NothingOverdue(t);
    hide Started;
    NotAll(s, Started(t), l);
  }

  /** Without unresponsive replicas the clock is all that moves before a round. */
  lemma NothingOverdue(t: SimState)
    requires t.Shaped() && t.unresponsive == {}
    ensures Started(t) == t.(time := t.time + t.roundTime)
  {
    hide Blank;
    var u := t.(time := t.time + t.roundTime);
    assert TimedOut(u) == {};
    assert CrashSet(u, {}).replicas == u.replicas;
    assert CrashSet(u, {}).crashed == u.crashed;
  }

  lemma NotAll(s: SimState, t: SimState, l: nat)
    requires Alone(s, t, l, s.N())
    ensures |t.crashed| < t.N()
  {
    assert l in Ids(t.N()) && t.crashed <= Ids(t.N()) - {l};
    AscendingIds(t.N());
    Fewer(t.crashed, Ids(t.N()) - {l});
  }

  lemma Fewer(a: set<nat>, b: set<nat>)
    requires a <= b
    ensures |a| <= |b|
  {
    assert b == a + (b - a);
  }

  lemma AloneLeads(s: SimState, t: SimState, l: nat)
    requires Alone(s, t, l, s.N()) && t.replicas[l].currentView % t.N() == l
    ensures CurrentLeader(t) == l
  {
    var v := MaxView(t.replicas, t.crashed);
    assert l !in t.crashed;
    assert v == t.replicas[l].currentView;
    assert (v + 0) % t.N() == l;
  }

  /** A system whose replica l starts in a view it leads may propose in that view. */
  lemma Reproposes(t: SimState, l: nat) returns (actions: seq<Action>)
    requires Sound(t) && t.crashed == {} && t.unresponsive == {} && t.step < t.maxSteps && l < t.N()
    requires t.replicas[l].currentView % t.N() == l
    ensures t.Shaped() && forall i :: 0 <= i < |actions| ==> FixedMembership(actions[i])
    ensures var bs := Proposals(t, actions); |bs| == 1 && bs[0].view == t.replicas[l].currentView
  {
    hide CrashOthers, ProposedIn, Sound, Alone, ReplicaState.IsLeader;
    SoundShaped(t);
    assert Alone(t, t, l, 0) by { AloneAtFirst(t, l); }
    LeadsItsView(t, l);
    var init := CrashOthers(l, t.N());
    OthersCrash(t, l, t.N());
    var u := Drive(t, init);
    assert u.replicas[l] == t.replicas[l] && u.N() == t.N() by { AloneSame(t, u, l); }
    AloneProposes(t, u, l);
    actions := init + [RunRound(Plain, 0)];
    assert actions[..|actions| - 1] == init;
  }

  lemma AloneAtFirst(t: SimState, l: nat)
    requires t.Shaped() && t.persistence && t.crashed == {} && t.unresponsive == {} && l < t.N()
    ensures Alone(t, t, l, 0)
  {
  }

  lemma AloneSame(s: SimState, t: SimState, l: nat)
    requires Alone(s, t, l, s.N())
    ensures t.replicas[l] == s.replicas[l] && t.N() == s.N()
  {
  }

  lemma LeadsItsView(t: SimState, l: nat)
    requires Sound(t) && l < t.N() && l !in t.crashed && t.replicas[l].currentView % t.N() == l
    ensures t.replicas[l].IsLeader(t.replicas[l].currentView)
  {
    assert Status(t, l);
    hide ReplicaState.IsLeader, Kept;
    OnlyOneLeader(t.replicas[l], l, t.N(), t.replicas[l].currentView);
  }

  // ----- One proposal per view across restarts -----

  /** Whatever the system does from here on, it proposes in no view of these blocks and in none of its own twice. */
  ghost predicate NoViewTwice(earlier: seq<Block>, t: SimState)
    requires t.Shaped()
  {
    forall actions {:trigger Proposals(t, actions)} ::
      (forall i :: 0 <= i < |actions| ==> FixedMembership(actions[i]))
      ==> DistinctViews(earlier + Proposals(t, actions))
  }

  lemma NeverTwice(earlier: seq<Block>, t: SimState)
    requires Sound(t) && t.Shaped() && AllPassed(t, earlier) && DistinctViews(earlier)
    ensures NoViewTwice(earlier, t)
  {
    hide Sound, AllPassed, DistinctViews, FixedMembership, Drive, Proposals, SimState.Shaped;
    forall actions {:trigger Proposals(t, actions)} | forall i :: 0 <= i < |actions| ==> FixedMembership(actions[i])
      ensures DistinctViews(earlier + Proposals(t, actions))
    {
      RunSound(t, earlier, actions);
    }
  }

  lemma PassedLater(s: SimState, t: SimState, bs: seq<Block>)
    requires AllPassed(s, bs) && ViewsGrow(s, t)
    ensures AllPassed(t, bs)
  {
    hide Past;
    forall i | 0 <= i < |bs| ensures Passed(t, bs[i]) { assert Passed(s, bs[i]); }
  }

  /** What a stop inside the round that proposes b leaves of its leader. */
  lemma LeaderStop(s: SimState, a: Action, cuts: seq<Cut>)
    requires Sound(s) && |cuts| == s.N()
    ensures s.Shaped()
    ensures ProposedIn(s, a) != [] ==>
              var b := ProposedIn(s, a)[0];
              && s.N() > 0
              && var l := b.view % s.N();
                 var d := StoppedStores(s, a, cuts)[l];
                 && ProposedIn(s, a) == [b] && !Past(s, l, b.view)
                 && (Replayed(d).Ok? ==>
                       Replayed(d).value.view == b.view + if ViewLogged(StepOps(s, a, l), cuts[l]) then 1 else 0)
  {
    hide Sound, Started, CurrentLeader, Proposal, SimState.Shaped, StepOps, CutDisk, CutRefused, DiskOk, StaticDisk,
      Replayed;
    SoundShaped(s);
    if ProposedIn(s, a) != [] {
      var u, b := Started(s), ProposedIn(s, a)[0];
      StartedProposal(s, a.kind, a.now);
      var l := CurrentLeader(u);
      StartedUp(s, l);
      RoundStop(s, a.kind, a.now, l, cuts[l]);
    }
  }

  /** A block whose proposer is not past its view is none of those whose proposers are. */
  lemma NewView(s: SimState, earlier: seq<Block>, b: Block)
    requires s.N() > 0 && AllPassed(s, earlier) && DistinctViews(earlier) && !Past(s, b.view % s.N(), b.view)
    ensures DistinctViews(earlier + [b])
  {
    hide Past;
    var all := earlier + [b];
    forall i, j | 0 <= i < j < |all| ensures all[i].view != all[j].view {
      assert Passed(s, earlier[i]);
    }
  }

  lemma OneMorePassed(t: SimState, bs: seq<Block>, b: Block)
    requires AllPassed(t, bs) && Passed(t, b)
    ensures AllPassed(t, bs + [b])
  {
    hide Passed;
  }

  /** The block a round was about when the system was stopped in it: its view is safe from a second proposal exactly
      if its leader had logged the change to the next view. */
  lemma ProposedAgainIff(s: SimState, earlier: seq<Block>, a: Action, cuts: seq<Cut>, f: nat, maxSteps: nat,
                         keystores: seq<KeyStore>)
    requires Sound(s) && s.Shaped() && AllPassed(s, earlier) && DistinctViews(earlier)
    requires |cuts| == |keystores| == s.N() && maxSteps > 0
    requires ProposedIn(s, a) != [] && ResumeSim(f, maxSteps, keystores, StoppedStores(s, a, cuts)).Ok?
    ensures var t := ResumeSim(f, maxSteps, keystores, StoppedStores(s, a, cuts)).value;
            var b := ProposedIn(s, a)[0];
            && t.Shaped() && s.N() > 0
            && (NoViewTwice(earlier + [b], t) <==>
                ViewLogged(StepOps(s, a, b.view % s.N()), cuts[b.view % s.N()]))
  {
    hide Sound, SimState.Shaped, AllPassed, DistinctViews, StoppedStores, StepOps, ViewLogged, Replayed, ViewsGrow,
      ProposedIn, StopRefused, NoViewTwice;
    ResumeSound(s, a, cuts, f, maxSteps, keystores);
    LeaderStop(s, a, cuts);
    var t, b := ResumeSim(f, maxSteps, keystores, StoppedStores(s, a, cuts)).value, ProposedIn(s, a)[0];
    var l := b.view % s.N();
    GrowCount(s, t);
    NewView(s, earlier, b);
    PassedLater(s, t, earlier);
    if ViewLogged(StepOps(s, a, l), cuts[l]) {
      OneMorePassed(t, earlier, b);
      NeverTwice(earlier + [b], t);
    } else {
      var actions := Reproposes(t, l);
      SecondTime(earlier, b, t, actions);
    }
  }

  lemma GrowCount(s: SimState, t: SimState)
    requires ViewsGrow(s, t)
    ensures t.N() == s.N()
  {
  }

  lemma SecondTime(earlier: seq<Block>, b: Block, t: SimState, actions: seq<Action>)
    requires t.Shaped() && forall i :: 0 <= i < |actions| ==> FixedMembership(actions[i])
    requires |Proposals(t, actions)| == 1 && Proposals(t, actions)[0].view == b.view
    ensures !NoViewTwice(earlier + [b], t)
  {
    hide Proposals, FixedMembership, SimState.Shaped;
    var all, n := earlier + [b] + Proposals(t, actions), |earlier|;
    assert all[n].view == all[n + 1].view;
    assert !DistinctViews(all);
  }

  /** In a system without left-over temporary files nobody is spoiled. */
  lemma ReachedFits(r: ReplicaState, i: nat, n: nat, work: seq<Op>, reason: Reason, cut: Cut)
    requires NodeOk(r, i, n) && AllQuiet(work) && !r.store.leftover
    ensures !Misfit(Reached(r, work + [Advance(reason)], cut).store)
  {
    hide NodeOk, Apply, ApplyAll, Misfit, Quiet;
    var ops := work + [Advance(reason)];
    if cut.done < |work| {
      QuietPrefix(work, cut.done);
      assert ops[..cut.done] == work[..cut.done];
      NodeOps(r, i, n, work[..cut.done]);
    } else {
      NodeOps(r, i, n, work);
      if cut.done == |work| {
        assert ops[..cut.done] == work;
      } else {
        ApplyLast(r, work, Advance(reason));
        NodeOp(ApplyAll(r, work), i, n, Advance(reason));
      }
    }
    NodeFits(Reached(r, ops, cut), i, n);
  }

  lemma NodeFits(r: ReplicaState, i: nat, n: nat)
    requires NodeOk(r, i, n) && !r.store.leftover
    ensures !Misfit(r.store)
  {
    hide Durable, Misfit, Filed;
    SpoiledOrDurable(r);
  }

  lemma CleanStop(s: SimState, a: Action, i: nat, cut: Cut)
    requires Sound(s) && i < s.N() && !s.replicas[i].store.leftover
    ensures s.Shaped()
    ensures StopRefused(s, a, i, cut) <==> InWindow(StepFrom(s, a, i), StepOps(s, a, i), cut)
  {
    hide NodeOk, CrashedOk, Started, RoundWork, EndReason, Apply, InWindow, OnDisk, RejoinOp, Recover, SimState.Down,
      SimState.Shaped, Sound, CurrentLeader, Proposal, Misfit, DiskOk, AllQuiet, Replayed;
    SoundShaped(s);
    CleanRecovers(s, i);
    OkFits(s.replicas[i].store);
    match a
    case RunRound(kind, now) =>
      var t := Started(s);
      if !SimModel.Refused(t) && i !in t.Down() {
        StatusUp(s, i);
        StartedProposal(s, kind, now);
        WorkQuiet(t, kind, now, i);
        ReachedFits(s.replicas[i], i, s.N(), RoundWork(t, kind, now, i), EndReason(t, kind, now), cut);
      }
    case RejoinReplica(id) =>
      if i == id && CanRejoin(s, id) { CleanRejoin(s, id, cut); }
    case _ =>
  }

  lemma StatusUp(s: SimState, i: nat)
    requires Sound(s) && s.Shaped() && i < s.N() && i !in Started(s).Down()
    ensures NodeOk(s.replicas[i], i, s.N())
  {
    StartedUp(s, i);
    assert Status(s, i);
  }

  lemma OkFits(store: Store)
    requires DiskOk(store)
    ensures !Misfit(store)
  {
    if Misfit(store) { MisfitRefused(store); }
    hide Replayed, Misfit;
  }

  lemma CleanRejoin(s: SimState, id: nat, cut: Cut)
    requires Sound(s) && s.Shaped() && CanRejoin(s, id) && !s.replicas[id].store.leftover
    requires DiskOk(s.replicas[id].store)
    ensures Recover(s.replicas[id].config, s.keystores[id], s.replicas[id].store).Ok?
    ensures !Misfit(Reached(OnDisk(s, id), [RejoinOp(s, id)], cut).store)
  {
    hide Sound, SimState.Shaped, DiskOk, Misfit, Recover, OnDisk, RejoinOp, Durable, Apply, NodeOk, Replayed;
    var x, op := OnDisk(s, id), RejoinOp(s, id);
    OnDiskDurable(s, id);
    if cut.done == 0 {
      assert [op][..0] == [];
      OkFits(x.store);
    } else {
      ApplyOne(x, op);
      RejoinRuns(s, id);
      RejoinRestores(s, id);
      NodeFits(Apply(x, op), id, s.N());
    }
  }

  /** The same for any system in order, whatever blocks were proposed before. */
  lemma RestartKeeps(s: SimState, earlier: seq<Block>, a: Action, cuts: seq<Cut>, f: nat, maxSteps: nat,
                     keystores: seq<KeyStore>)
    requires Sound(s) && s.Shaped() && AllPassed(s, earlier) && DistinctViews(earlier)
    requires |cuts| == |keystores| == s.N()
    ensures var second := ResumeSim(f, maxSteps, keystores, StoppedStores(s, a, cuts));
            second.Ok? ==>
              && second.value.Shaped() && NoViewTwice(earlier, second.value)
              && (ProposedIn(s, a) != [] && maxSteps > 0 ==>
                    var b := ProposedIn(s, a)[0];
                    && s.N() > 0
                    && (NoViewTwice(earlier + [b], second.value) <==>
                        ViewLogged(StepOps(s, a, b.view % s.N()), cuts[b.view % s.N()])))
  {
    hide Sound, AllPassed, DistinctViews, ViewsGrow, ResumeSim, SimState.Shaped, StopRefused, StepOps, StoppedStores,
      NoViewTwice, ProposedIn, ViewLogged, StartsFrom;
    ResumeSound(s, a, cuts, f, maxSteps, keystores);
    var second := ResumeSim(f, maxSteps, keystores, StoppedStores(s, a, cuts));
    if second.Ok? {
      PassedLater(s, second.value, earlier);
      NeverTwice(earlier, second.value);
      if ProposedIn(s, a) != [] && maxSteps > 0 { ProposedAgainIff(s, earlier, a, cuts, f, maxSteps, keystores); }
    }
  }

  /** Where the start of a system on the directories of one without left-over files is refused. */
  lemma CleanStart(s: SimState, a: Action, cuts: seq<Cut>, f: nat, maxSteps: nat, keystores: seq<KeyStore>)
    requires Sound(s) && Clean(s) && s.Shaped() && |cuts| == |keystores| == s.N()
    ensures ResumeSim(f, maxSteps, keystores, StoppedStores(s, a, cuts)).Err? <==>
            exists i: nat :: i < s.N() && InWindow(StepFrom(s, a, i), StepOps(s, a, i), cuts[i])
  {
    hide Sound, ViewsGrow, ResumeSim, SimState.Shaped, InWindow, StopRefused, StepFrom, StepOps, StoppedStores,
      StartsFrom;
    ResumeSound(s, a, cuts, f, maxSteps, keystores);
    forall i: nat | i < s.N()
      ensures StopRefused(s, a, i, cuts[i]) <==> InWindow(StepFrom(s, a, i), StepOps(s, a, i), cuts[i])
    {
      CleanStop(s, a, i, cuts[i]);
    }
  }

  /** Every reachable state of a new system is in order and without left-over files, and its proposals are passed. */
  lemma NewSimRun(f: nat, maxSteps: nat, keystores: seq<KeyStore>, actions: seq<Action>)
    requires forall i :: 0 <= i < |actions| ==> FixedMembership(actions[i])
    ensures var first := NewSim(f, maxSteps, true, keystores);
            var s, bs := Drive(first, actions), Proposals(first, actions);
            s.N() == |keystores| && Sound(s) && Clean(s) && s.Shaped() && AllPassed(s, bs) && DistinctViews(bs)
  {
    hide NewSim, Drive, Sound, AllPassed, DistinctViews, Proposals, SimState.Shaped, FixedMembership;
    var first := NewSim(f, maxSteps, true, keystores);
    StartSound(f, maxSteps, keystores);
    NoneYet(first);
    RunSound(first, [], actions);
    assert [] + Proposals(first, actions) == Proposals(first, actions);
  }

  /** With persistence on and a fixed membership, stop a new system anywhere inside any step, each replica at any of its
      operations and durable writes, and start another one, with new keys, on its directories. The start is refused
      exactly if a replica was between the save of a snapshot and the truncation of a log with a commit. Otherwise no
      view is ever proposed in twice by the rounds that ended. The view of a round that was stopped, too, is never
      proposed in again exactly if its leader had logged the change to the next view. */
  lemma OneProposalAcrossRestarts(f: nat, maxSteps: nat, keystores: seq<KeyStore>, actions: seq<Action>, a: Action,
                                  cuts: seq<Cut>, f2: nat, maxSteps2: nat, keystores2: seq<KeyStore>)
    requires forall i :: 0 <= i < |actions| ==> FixedMembership(actions[i])
    requires |cuts| == |keystores| == |keystores2|
    ensures var first := NewSim(f, maxSteps, true, keystores);
            var s, n := Drive(first, actions), |keystores|;
            var second := ResumeSim(f2, maxSteps2, keystores2, StoppedStores(s, a, cuts));
            && (second.Err? <==> exists i: nat :: i < n && InWindow(StepFrom(s, a, i), StepOps(s, a, i), cuts[i]))
            && (second.Ok? ==> second.value.Shaped() && NoViewTwice(Proposals(first, actions), second.value))
            && (second.Ok? && ProposedIn(s, a) != [] && maxSteps2 > 0 ==>
                  var b := ProposedIn(s, a)[0];
                  && n > 0
                  && (NoViewTwice(Proposals(first, actions) + [b], second.value) <==>
                      ViewLogged(StepOps(s, a, b.view % n), cuts[b.view % n])))
  {
    hide NewSim, Drive, Sound, Clean, AllPassed, DistinctViews, ResumeSim, Proposals, SimState.Shaped, InWindow,
      StepFrom, StepOps, StoppedStores, NoViewTwice, ProposedIn, ViewLogged, FixedMembership;
    var first := NewSim(f, maxSteps, true, keystores);
    NewSimRun(f, maxSteps, keystores, actions);
    CleanStart(Drive(first, actions), a, cuts, f2, maxSteps2, keystores2);
    RestartKeeps(Drive(first, actions), Proposals(first, actions), a, cuts, f2, maxSteps2, keystores2);
  }

  // ----- Any number of restarts -----

  /** What one system does until it is stopped in its last step, and the start of the next one. */
  datatype Life = Life(actions: seq<Action>, last: Action, cuts: seq<Cut>, f: nat, maxSteps: nat,
                       keystores: seq<KeyStore>)

  ghost predicate FixedLife(life: Life, n: nat) {
    && (forall i :: 0 <= i < |life.actions| ==> FixedMembership(life.actions[i]))
    && |life.cuts| == |life.keystores| == n
  }

  /** The block of a round that was stopped after its leader had logged the change to the next view. */
  ghost function Passing(s: SimState, a: Action, cuts: seq<Cut>): seq<Block>
    requires s.Shaped() && |cuts| == s.N()
  {
    var bs := ProposedIn(s, a);
    if bs != [] && s.N() > 0 && ViewLogged(StepOps(s, a, bs[0].view % s.N()), cuts[bs[0].view % s.N()]) then bs else []
  }

  /** What these systems propose one after the other, up to the first start that is refused. */
  ghost function LivesProposals(s: SimState, lives: seq<Life>): seq<Block>
    requires s.Shaped() && forall i :: 0 <= i < |lives| ==> FixedLife(lives[i], s.N())
    decreases |lives|
  {
    if lives == [] then []
    else
      var life := lives[0];
      assert FixedLife(life, s.N());
      var u := Drive(s, life.actions);
      var stores := StoppedStores(u, life.last, life.cuts);
      Proposals(s, life.actions) + Passing(u, life.last, life.cuts) +
      match ResumeSim(life.f, life.maxSteps, life.keystores, stores)
      case Err(_) => []
      case Ok(t) =>
        ResumeShaped(life.f, life.maxSteps, life.keystores, stores);
        LivesProposals(t, lives[1..])
  }

  lemma {:induction false} LivesKeep(s: SimState, earlier: seq<Block>, lives: seq<Life>)
    requires Sound(s) && s.Shaped() && forall i :: 0 <= i < |lives| ==> FixedLife(lives[i], s.N())
    requires AllPassed(s, earlier) && DistinctViews(earlier)
    ensures DistinctViews(earlier + LivesProposals(s, lives))
    decreases |lives|
  {
    hide Sound, AllPassed, DistinctViews, SimState.Shaped, Drive, Proposals, FixedMembership, StoppedStores, Passing,
      ResumeSim;
    if lives == [] {
      assert earlier + LivesProposals(s, lives) == earlier;
    } else {
      var life := lives[0];
      var u, now := Drive(s, life.actions), earlier + Proposals(s, life.actions);
      var stores := StoppedStores(u, life.last, life.cuts);
      RunSound(s, earlier, life.actions);
      var all := now + Passing(u, life.last, life.cuts);
      LifeEnds(u, now, life);
      match ResumeSim(life.f, life.maxSteps, life.keystores, stores) {
        case Err(_) => assert earlier + LivesProposals(s, lives) == all;
        case Ok(t) =>
          ResumeShaped(life.f, life.maxSteps, life.keystores, stores);
          LivesKeep(t, all, lives[1..]);
          assert earlier + LivesProposals(s, lives) == all + LivesProposals(t, lives[1..]);
      }
    }
  }

  /** The blocks so far, and the one of the stopped round if it counts, are passed where the next system starts. */
  lemma LifeEnds(u: SimState, earlier: seq<Block>, life: Life)
    requires Sound(u) && u.Shaped() && FixedLife(life, u.N()) && AllPassed(u, earlier) && DistinctViews(earlier)
    ensures var all := earlier + Passing(u, life.last, life.cuts);
            var r := ResumeSim(life.f, life.maxSteps, life.keystores, StoppedStores(u, life.last, life.cuts));
            && DistinctViews(all) && (r.Ok? ==> Sound(r.value) && AllPassed(r.value, all))
  {
    hide Sound, AllPassed, DistinctViews, SimState.Shaped, ProposedIn, StoppedStores, StepOps, ViewLogged, ResumeSim,
      StopRefused, ViewsGrow, Replayed;
    var a, cuts := life.last, life.cuts;
    ResumeSound(u, a, cuts, life.f, life.maxSteps, life.keystores);
    LeaderStop(u, a, cuts);
    var r := ResumeSim(life.f, life.maxSteps, life.keystores, StoppedStores(u, a, cuts));
    if r.Ok? { PassedLater(u, r.value, earlier); }
    if Passing(u, a, cuts) == [] {
      assert earlier + Passing(u, a, cuts) == earlier;
    } else {
      var b := ProposedIn(u, a)[0];
      NewView(u, earlier, b);
      if r.Ok? {
        GrowCount(u, r.value);
        OneMorePassed(r.value, earlier, b);
      }
    }
  }

  /** Over any number of restarts, with each system stopped anywhere inside its last step, no view is proposed in twice
      by rounds that ended or whose leader had logged the change to the next view. */
  lemma OneProposalOverLives(f: nat, maxSteps: nat, keystores: seq<KeyStore>, lives: seq<Life>)
    requires forall i :: 0 <= i < |lives| ==> FixedLife(lives[i], |keystores|)
    ensures DistinctViews(LivesProposals(NewSim(f, maxSteps, true, keystores), lives))
  {
    var first := NewSim(f, maxSteps, true, keystores);
    hide NewSim, LivesProposals, FixedLife;
    StartSound(f, maxSteps, keystores);
    NoneYet(first);
    LivesKeep(first, [], lives);
    assert [] + LivesProposals(first, lives) == LivesProposals(first, lives);
  }
}
