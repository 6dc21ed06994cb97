/** What two of the driver's own decisions come to: whom it picks as leader, and what a rejoining replica holds. */
module Driver {
  import opened Types
  import opened Ordered
  import opened Storage
  import opened ReplicaModel
  import opened Recovery
  import opened Durability
  import opened StateSync
  import opened SimModel

  // ----- The leader -----

  lemma FarFromZero(c: int, n: nat)
    ensures c != 0 ==> c * n >= n || c * n <= -(n as int)
  {
    if c >= 1 {
      assert (c - 1) * n >= 0;
    } else if c <= -1 {
      assert (-1 - c) * n >= 0;
    }
  }

  lemma Distribute(q: int, d: int, n: int)
    ensures (q - d) * n == q * n - d * n
  {
  }

  lemma ModMultiple(q: nat, n: nat, m: nat)
    requires m < n
    ensures (q * n + m) % n == m
  {
    var x := q * n + m;
    var d := x / n;
    Distribute(q, d, n);
    FarFromZero(q - d, n);
  }

  /** Going round from any base reaches every id within n steps. */
  lemma Reaches(n: nat, base: nat, id: nat) returns (k: nat)
    requires id < n
    ensures k < n && Turn(n, base, k) == id
  {
    var m := base % n;
    var q := base / n;
    assert base == q * n + m;
    k := if id >= m then id - m else id + n - m;
    if id >= m {
      ModMultiple(q, n, id);
      assert base + k == q * n + id;
    } else {
      ModMultiple(q + 1, n, id);
      assert base + k == (q + 1) * n + id by { assert (q + 1) * n == q * n + n; }
    }
  }

  /** The id k steps after base, going round. */
  function Turn(n: nat, base: nat, k: nat): (id: nat)
    requires n > 0
    ensures id < n
  {
    (base + k) % n
  }

  /** leader is the first uncrashed id at or after base, going round. */
  ghost predicate FirstUncrashedFrom(leader: nat, n: nat, crashed: set<nat>, base: nat, offset: nat)
    requires n > 0
  {
    exists k :: offset <= k < n && leader == Turn(n, base, k) && leader !in crashed
                && forall j :: offset <= j < k ==> Turn(n, base, j) in crashed
  }

  lemma {:induction false} LeaderFromIs(n: nat, crashed: set<nat>, base: nat, offset: nat, k: nat)
    requires n > 0 && offset <= k < n && Turn(n, base, k) !in crashed
    ensures FirstUncrashedFrom(LeaderFrom(n, crashed, base, offset), n, crashed, base, offset)
    decreases n - offset
  {
    if Turn(n, base, offset) in crashed {
      LeaderFromIs(n, crashed, base, offset + 1, k);
      var l := LeaderFrom(n, crashed, base, offset + 1);
      var j :| offset + 1 <= j < n && l == Turn(n, base, j) && l !in crashed
               && forall i :: offset + 1 <= i < j ==> Turn(n, base, i) in crashed;
      assert forall i :: offset <= i < j ==> Turn(n, base, i) in crashed;
    } else {
      assert LeaderFrom(n, crashed, base, offset) == Turn(n, base, offset);
    }
  }

  /** As long as anybody is uncrashed, the leader is: the first from the highest uncrashed view on, going round. */
  lemma LeaderIsFirstUncrashed(s: SimState, id: nat)
    requires id < s.N() && id !in s.crashed
    ensures var base := MaxView(s.replicas, s.crashed);
            && (forall i :: 0 <= i < s.N() && i !in s.crashed ==> s.replicas[i].currentView <= base)
            && (base == 0 || exists i :: 0 <= i < s.N() && i !in s.crashed && s.replicas[i].currentView == base)
            && FirstUncrashedFrom(CurrentLeader(s), s.N(), s.crashed, base, 0)
  {
    var base := MaxView(s.replicas, s.crashed);
    var k := Reaches(s.N(), base, id);
    LeaderFromIs(s.N(), s.crashed, base, 0, k);
  }

  lemma Position(all: set<ReplicaId>, id: ReplicaId) returns (i: nat)
    requires id in all
    ensures i < |Ascending(all)| && Ascending(all)[i] == id
  {
    AscendingSorted(all);
    i :| 0 <= i < |Ascending(all)| && Ascending(all)[i] == id;
  }

  lemma LeaderIsTurn(r: ReplicaState, view: nat, k: nat)
    requires r.activeValidators != {}
    ensures var ids := Ascending(r.activeValidators);
            |ids| > 0 && r.LeaderFor(view + k) == ids[Turn(|ids|, view, k)]
  {
    assert |Ascending(r.activeValidators)| == |r.activeValidators|;
  }

  /** A replica's own rotation is fair: within as many views as there are validators, from any view on, every
      active validator leads; and only active validators ever do. */
  lemma LeadersRotate(r: ReplicaState, view: nat, id: ReplicaId) returns (k: nat)
    requires id in r.activeValidators
    ensures r.LeaderFor(view) in r.activeValidators
    ensures k < |r.activeValidators| && r.LeaderFor(view + k) == id
  {
    hide ReplicaState.LeaderFor, Turn;
    var ids := Ascending(r.activeValidators);
    var i := Position(r.activeValidators, id);
    k := Reaches(|ids|, view, i);
    LeaderIsTurn(r, view, k);
    LeaderIsTurn(r, view, 0);
  }

  // ----- Rejoining -----

  predicate Later(qc: QuorumCert, than: Option<QuorumCert>) {
    than.None? || qc.epoch > than.value.epoch || (qc.epoch == than.value.epoch && qc.view > than.value.view)
  }

  /** What a replica that found r on its disk holds after state sync from donor. */
  ghost predicate SyncedWith(donor: ReplicaState, r: ReplicaState, q: ReplicaState) {
    && q.blockTree == donor.blockTree + r.blockTree
    && q.committedLog ==
       (if |donor.committedLog| > |r.committedLog| && HashPrefix(r.committedLog, donor.committedLog)
        then donor.committedLog else r.committedLog)
    && q.highQc == (if donor.highQc.Some? && Later(donor.highQc.value, r.highQc) then donor.highQc else r.highQc)
    && forall h :: h in q.blockTree ==> h < q.nextHash
  }

  lemma AheadIs(r: ReplicaState)
    ensures Ahead(r) == r.(nextHash := Ahead(r).nextHash)
    ensures forall h :: h in r.blockTree ==> h < Ahead(r).nextHash
  {
    AscendingSorted(r.blockTree.Keys);
    var ids := Ascending(r.blockTree.Keys);
    forall h | h in r.blockTree ensures h < Ahead(r).nextHash {
      assert h in ids;
    }
  }

  lemma AdoptedLogIs(r: ReplicaState, donor: ReplicaState)
    ensures var q := AdoptedLog(r, donor);
            && q.blockTree == r.blockTree && q.highQc == r.highQc && q.currentView == r.currentView
            && q.committedLog ==
               (if |donor.committedLog| > |r.committedLog| && HashPrefix(r.committedLog, donor.committedLog)
                then donor.committedLog else r.committedLog)
  {
    hide HashPrefix;
  }

  lemma AdoptedQcIs(r: ReplicaState, donor: ReplicaState)
    ensures var q := AdoptedQc(r, donor);
            && q.blockTree == r.blockTree && q.committedLog == r.committedLog && q.currentView == r.currentView
            && q.highQc == if donor.highQc.Some? && Later(donor.highQc.value, r.highQc) then donor.highQc else r.highQc
  {
  }

  lemma ImportSyncs(r: ReplicaState, donor: ReplicaState)
    ensures SyncedWith(donor, r, Import(r, donor)) && Import(r, donor).currentView == r.currentView
  {
    hide AdoptedLog, AdoptedQc, Ahead, HashPrefix, Later;
    var m := AdoptedBlocks(r, donor);
    AdoptedLogIs(m, donor);
    AdoptedQcIs(AdoptedLog(m, donor), donor);
    AheadIs(AdoptedQc(AdoptedLog(m, donor), donor));
  }

  /** The parts of the state that sync sets and views do not touch. */
  ghost predicate SameSync(a: ReplicaState, b: ReplicaState) {
    && a.blockTree == b.blockTree && a.committedLog == b.committedLog
    && a.highQc == b.highQc && a.nextHash == b.nextHash
  }

  lemma {:induction false} AdvanceToSyncs(r: ReplicaState, target: nat)
    ensures SameSync(AdvanceTo(r, target), r)
    decreases target - r.currentView
  {
    if r.currentView < target {
      AdvanceToSyncs(r.AdvanceView(Timeout), target);
    }
  }

  lemma SnapshotSyncs(r: ReplicaState)
    ensures SameSync(r.TakeSnapshot(), r) && r.TakeSnapshot().currentView == r.currentView
  {
    hide ReplicaState.SnapshotWrites;
  }

  /** A rejoined replica holds exactly what its disk gave back, plus what its donor adds: all the donor's blocks,
      the donor's log if that is longer and extends its own, and the donor's certificate if that is later. Its view
      is the larger of its own and the highest live one; without a donor nothing changes. */
  lemma RejoinSyncs(s: SimState, id: nat)
    requires s.Shaped() && CanRejoin(s, id)
    requires Recover(s.replicas[id].config, s.keystores[id], s.replicas[id].store).Ok?
    ensures var r := Attached(Recover(s.replicas[id].config, s.keystores[id], s.replicas[id].store).value);
            var q := Rejoin(s, id).replicas[id];
            match FirstDonor(s, id, 0)
            case None => SameSync(q, r) && q.currentView == r.currentView
            case Some(d) =>
              && SyncedWith(s.replicas[d], r, q)
              && q.currentView == Max(r.currentView, MaxView(s.replicas, s.crashed + {id}))
  {
    hide Attached, Recover, Import, MaxView, FirstDonor, AdvanceTo, ReplicaState.TakeSnapshot, HashPrefix, Later;
    var r := Attached(Recover(s.replicas[id].config, s.keystores[id], s.replicas[id].store).value);
    var d := FirstDonor(s, id, 0);
    var imported := if d.Some? then Import(r, s.replicas[d.value]) else r;
    var target := if d.Some? then MaxView(s.replicas, s.crashed + {id}) else imported.currentView;
    if d.Some? { ImportSyncs(r, s.replicas[d.value]); }
    AdvanceToSyncs(imported, target);
    SnapshotSyncs(AdvanceTo(imported, target));
    assert Rejoin(s, id).replicas[id] == AdvanceTo(imported, target).TakeSnapshot();
  }
}
