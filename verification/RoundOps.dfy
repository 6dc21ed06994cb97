/** What the driver's steps come to on each replica: a list of operations, one durable write after the other. */
module RoundOps {
  import opened Types
  import opened Crypto
  import opened Storage
  import opened ReplicaModel
  import opened Recovery
  import opened StateSync
  import opened Durability
  import opened SimModel
  import opened Runs

  ghost function ApplyAll(r: ReplicaState, ops: seq<Op>): ReplicaState
    decreases |ops|
  {
    if ops == [] then r else ApplyAll(Apply(r, ops[0]), ops[1..])
  }

  lemma {:induction false} ApplyConcat(r: ReplicaState, a: seq<Op>, b: seq<Op>)
    ensures ApplyAll(r, a + b) == ApplyAll(ApplyAll(r, a), b)
    decreases |a|
  {
    hide Apply;
    if a == [] {
      assert a + b == b;
    } else {
      assert (a + b)[0] == a[0] && (a + b)[1..] == a[1..] + b;
      ApplyConcat(Apply(r, a[0]), a[1..], b);
    }
  }

  lemma ApplyOne(r: ReplicaState, op: Op)
    ensures ApplyAll(r, [op]) == Apply(r, op)
  {
    hide Apply;
    assert [op][1..] == [];
  }

  lemma ApplyLast(r: ReplicaState, ops: seq<Op>, op: Op)
    ensures ApplyAll(r, ops + [op]) == Apply(ApplyAll(r, ops), op)
  {
    hide Apply, ApplyAll;
    ApplyConcat(r, ops, [op]);
    ApplyOne(ApplyAll(r, ops), op);
  }

  // ----- A round -----

  function LearnOps(qc: Option<QuorumCert>): seq<Op> {
    if qc.Some? then [LearnQc(qc.value)] else []
  }

  function VoteOps(votes: seq<Vote>): (ops: seq<Op>)
    ensures |ops| == |votes|
  {
    seq(|votes|, i requires 0 <= i < |votes| => ReceiveVote(votes[i]))
  }

  /** Committing what can commit, and the snapshot that is due afterwards. */
  ghost function CommitOps(r: ReplicaState, persistence: bool): seq<Op> {
    [CommitReady] + if persistence && r.CommitAll().ShouldSnapshot() then [Snap] else []
  }

  function ProposeOp(kind: RoundKind, view: nat, hash: Hash, now: nat): Op {
    if kind.Plain? then Propose(view, hash, now) else ProposeNext(view, hash, now)
  }

  ghost function FollowerWork(r: ReplicaState, b: Block, qc: Option<QuorumCert>, persistence: bool): seq<Op> {
    [ReceiveBlock(b)] + LearnOps(qc) + CommitOps(Learn(r.InsertProposal(b), qc), persistence)
  }

  /** The leader, who is p once it has proposed. */
  ghost function LeaderWork(p: ReplicaState, propose: Op, votes: seq<Vote>, persistence: bool): seq<Op> {
    [propose] + VoteOps(votes) + CommitOps(Collect(p, votes).0, persistence)
  }

  /** What replica i does in a started round before it moves to the next view. */
  ghost function RoundWork(s: SimState, kind: RoundKind, now: nat, i: nat): seq<Op>
    requires s.Shaped() && i < s.N()
  {
    var leader := CurrentLeader(s);
    if leader in s.Down() then []
    else
      match Proposal(s, kind, now)
      case (_, None) => []
      case (p, Some(b)) =>
        var votes := VotesFor(s.replicas, s.Down(), leader, b, s.N());
        if i == leader
        then LeaderWork(p, ProposeOp(kind, s.replicas[leader].currentView, s.nextGlobalHash, now), votes, s.persistence)
        else FollowerWork(s.replicas[i], b, Collect(p, votes).1, s.persistence)
  }

  /** Why replicas leave the view: nothing was proposed, or the round is over. */
  ghost function EndReason(s: SimState, kind: RoundKind, now: nat): Reason
    requires s.N() > 0
  {
    if CurrentLeader(s) in s.Down() then Timeout
    else if Proposal(s, kind, now).1.None? && kind.Plain? then Timeout
    else Commit
  }

  lemma CommitsRun(r: ReplicaState, persistence: bool)
    ensures ApplyAll(r, CommitOps(r, persistence)) == Checkpoint(r.CommitAll(), persistence)
  {
    hide ReplicaState.CommitAll, ReplicaState.TakeSnapshot, ReplicaState.ShouldSnapshot;
    ApplyOne(r, CommitReady);
    if persistence && r.CommitAll().ShouldSnapshot() {
      ApplyLast(r, [CommitReady], Snap);
    } else {
      assert CommitOps(r, persistence) == [CommitReady];
    }
  }

  lemma LearnRuns(r: ReplicaState, qc: Option<QuorumCert>)
    ensures ApplyAll(r, LearnOps(qc)) == Learn(r, qc)
  {
    hide ReplicaState.ApplyHighQc;
    if qc.Some? { ApplyOne(r, LearnQc(qc.value)); }
  }

  lemma {:induction false} VotesRun(r: ReplicaState, votes: seq<Vote>)
    ensures ApplyAll(r, VoteOps(votes)) == Collect(r, votes).0
    decreases |votes|
  {
    hide ReplicaState.HandleVote;
    if votes != [] {
      var n := |votes| - 1;
      VotesRun(r, votes[..n]);
      assert VoteOps(votes) == VoteOps(votes[..n]) + [ReceiveVote(votes[n])];
      ApplyLast(r, VoteOps(votes[..n]), ReceiveVote(votes[n]));
    }
  }

  lemma FollowerRuns(r: ReplicaState, b: Block, qc: Option<QuorumCert>, persistence: bool)
    ensures ApplyAll(r, FollowerWork(r, b, qc, persistence) + [Advance(Commit)]) ==
            FollowerRound(r, b, qc, persistence)
  {
    hide ReplicaState.InsertProposal, Learn, LearnOps, CommitOps, Checkpoint, ReplicaState.CommitAll, ApplyAll,
      ReplicaState.AdvanceView;
    var t := r.InsertProposal(b);
    ApplyOne(r, ReceiveBlock(b));
    LearnRuns(t, qc);
    CommitsRun(Learn(t, qc), persistence);
    ApplyConcat(r, [ReceiveBlock(b)], LearnOps(qc));
    ApplyConcat(r, [ReceiveBlock(b)] + LearnOps(qc), CommitOps(Learn(t, qc), persistence));
    ApplyLast(r, FollowerWork(r, b, qc, persistence), Advance(Commit));
  }

  lemma LeaderRuns(r: ReplicaState, p: ReplicaState, propose: Op, votes: seq<Vote>, persistence: bool)
    requires p == Apply(r, propose)
    ensures ApplyAll(r, LeaderWork(p, propose, votes, persistence) + [Advance(Commit)]) ==
            Finish(Collect(p, votes).0, persistence)
  {
    var l := Collect(p, votes).0;
    ApplyOne(r, propose);
    LeaderEnds(ApplyAll(r, LeaderWork(p, propose, votes, persistence)));
    hide Collect, VoteOps, CommitOps, Checkpoint, ReplicaState.CommitAll, ApplyAll, ReplicaState.AdvanceView, Apply;
    VotesRun(p, votes);
    CommitsRun(l, persistence);
    ApplyConcat(r, [propose], VoteOps(votes));
    ApplyConcat(r, [propose] + VoteOps(votes), CommitOps(l, persistence));
    ApplyLast(r, LeaderWork(p, propose, votes, persistence), Advance(Commit));
  }

  lemma LeaderEnds(r: ReplicaState)
    ensures Apply(r, Advance(Commit)) == r.AdvanceView(Commit)
  {
  }

  lemma ProposeRuns(r: ReplicaState, kind: RoundKind, view: nat, hash: Hash, now: nat)
    ensures Apply(r, ProposeOp(kind, view, hash, now)) == ProposeKind(r, kind, view, hash, now).0
  {
    hide ReplicaState.ProposeWithHash, ReplicaState.ProposeNextWithHash;
  }

  lemma AdvanceRuns(r: ReplicaState, reason: Reason)
    ensures ApplyAll(r, [] + [Advance(reason)]) == r.AdvanceView(reason)
  {
    hide ReplicaState.AdvanceView;
    ApplyOne(r, Advance(reason));
    assert [] + [Advance(reason)] == [Advance(reason)];
  }

  /** Every replica that is up ends the round where its operations lead; the others stay as they are. */
  lemma RoundRuns(s: SimState, kind: RoundKind, now: nat, i: nat)
    requires s.Shaped() && i < s.N()
    ensures |RoundBody(s, kind, now).replicas| == s.N()
    ensures RoundBody(s, kind, now).replicas[i] ==
            if i in s.Down() then s.replicas[i]
            else ApplyAll(s.replicas[i], RoundWork(s, kind, now, i) + [Advance(EndReason(s, kind, now))])
  {
    hide SimState.Down, CurrentLeader, Collect, VotesFor, Finish, FollowerRound, LeaderWork, FollowerWork, ApplyAll,
      ProposeKind, ReplicaState.AdvanceView, ProposeOp, Apply;
    var leader := CurrentLeader(s);
    var r := s.replicas[leader];
    AdvanceRuns(s.replicas[i], EndReason(s, kind, now));
    match Proposal(s, kind, now) {
      case (_, None) =>
      case (p, Some(b)) =>
        if leader !in s.Down() && i !in s.Down() {
          var votes := VotesFor(s.replicas, s.Down(), leader, b, s.N());
          ProposeRuns(r, kind, r.currentView, s.nextGlobalHash, now);
          if i == leader {
            LeaderRuns(r, p, ProposeOp(kind, r.currentView, s.nextGlobalHash, now), votes, s.persistence);
          } else {
            FollowerRuns(s.replicas[i], b, Collect(p, votes).1, s.persistence);
          }
        }
    }
  }

  // ----- A rejoin -----

  /** The crashed replica as its directory gives it back, the log about to be attached. */
  function OnDisk(s: SimState, id: nat): ReplicaState
    requires s.Shaped() && id < s.N()
  {
    match Recover(s.replicas[id].config, s.keystores[id], s.replicas[id].store)
    case Ok(r) => r.(walAttached := true)
    case Err(_) => s.replicas[id]
  }

  /** Its rejoin: the donor, if there is one, and the view to reach. */
  function RejoinOp(s: SimState, id: nat): Op
    requires s.Shaped() && id < s.N()
  {
    var d := FirstDonor(s, id, 0);
    if d.Some? then Op.Rejoin(Some(s.replicas[d.value]), MaxView(s.replicas, s.crashed + {id}))
    else Op.Rejoin(None, OnDisk(s, id).currentView)
  }

  lemma OnDiskRestarts(s: SimState, id: nat)
    requires s.Shaped() && id < s.N()
    requires Recover(s.replicas[id].config, s.keystores[id], s.replicas[id].store).Ok?
    requires OnDisk(s, id).store == s.replicas[id].store
    ensures var r := Recover(s.replicas[id].config, s.keystores[id], s.replicas[id].store).value;
            Restarted(OnDisk(s, id)) == Attached(r) && Attached(r).currentView == OnDisk(s, id).currentView
  {
    var r := Recover(s.replicas[id].config, s.keystores[id], s.replicas[id].store).value;
    RebuiltOwners(s.replicas[id].config, s.keystores[id], s.replicas[id].store);
    AttachedIs(r);
    hide Recover, Attached;
  }

  lemma SyncedRuns(s: SimState, id: nat, r: ReplicaState)
    requires s.Shaped() && id < s.N() && r.currentView == OnDisk(s, id).currentView
    ensures var op := RejoinOp(s, id); op.Rejoin? && Synced(s, id, r) == SyncWith(r, op.donor, op.target)
  {
    hide OnDisk, SyncWith, MaxView;
  }

  lemma RejoinRuns(s: SimState, id: nat)
    requires s.Shaped() && CanRejoin(s, id)
    requires Recover(s.replicas[id].config, s.keystores[id], s.replicas[id].store).Ok?
    requires OnDisk(s, id).store == s.replicas[id].store
    ensures |SimModel.Rejoin(s, id).replicas| == s.N()
    ensures SimModel.Rejoin(s, id).replicas[id] == Apply(OnDisk(s, id), RejoinOp(s, id))
  {
    hide Recover, Attached, SyncWith, ReplicaState.TakeSnapshot, OnDisk, RejoinOp, Synced, Restarted, Apply;
    var r := Recover(s.replicas[id].config, s.keystores[id], s.replicas[id].store).value;
    OnDiskRestarts(s, id);
    SyncedRuns(s, id, Attached(r));
    SaverTakes(OnDisk(s, id), RejoinOp(s, id));
    RevivedKeepsId(s, id);
  }

  lemma RebuiltOwners(config: Config, keys: KeyStore, store: Store)
    requires Recover(config, keys, store).Ok?
    ensures Recover(config, keys, store).value.config == config && Recover(config, keys, store).value.keystore == keys
  {
    hide Replayed;
  }
}
