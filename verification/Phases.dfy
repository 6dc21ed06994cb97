/** What each phase of the driver's work makes of the system state, between one action's start and its end. */
module Phases {
  import opened Types
  import opened Ordered
  import opened Storage
  import opened ReplicaModel
  import opened Recovery
  import opened Durability
  import opened StateSync
  import opened SimModel
  import opened NetworkImpl

  // ----- Votes and messages of a round -----

  /** The vote replica i, in state r, sends for b, unless it is down or rejects it. */
  function Ballot(r: ReplicaState, down: set<nat>, i: nat, leader: nat, b: Block): seq<Message> {
    if i !in down && r.ValidProposal(b) then [VoteMsg(i, leader, VoteOf(r, b))] else []
  }

  /** The vote messages the first k replicas send to the leader. */
  function VoteMsgs(rs: seq<ReplicaState>, down: set<nat>, leader: nat, b: Block, k: nat): seq<Message>
    requires k <= |rs|
  {
    if k == 0 then []
    else
      VoteMsgs(rs, down, leader, b, k - 1)
      + if k - 1 == leader then [] else Ballot(rs[k - 1], down, k - 1, leader, b)
  }

  lemma VoteMsgsStep(rs: seq<ReplicaState>, down: set<nat>, leader: nat, b: Block, k: nat)
    requires leader < |rs| && k + 1 < |rs|
    ensures Receiver(leader, k) < |rs| && Receiver(leader, k + 1) <= |rs|
    ensures var to := Receiver(leader, k);
            VoteMsgs(rs, down, leader, b, Receiver(leader, k + 1))
            == VoteMsgs(rs, down, leader, b, to) + Ballot(rs[to], down, to, leader, b)
  {
    hide Ballot;
  }

  /** The replicas after those below k, the leader aside, have handled the proposal. */
  function InsertedUpTo(rs: seq<ReplicaState>, down: set<nat>, leader: nat, b: Block, k: nat): (r: seq<ReplicaState>)
    ensures |r| == |rs|
    ensures forall i :: 0 <= i < |rs| ==>
              r[i] == if i == leader || i in down || i >= k then rs[i] else rs[i].InsertProposal(b)
  {
    seq(|rs|, i requires 0 <= i < |rs| =>
      if i == leader || i in down || i >= k then rs[i] else rs[i].InsertProposal(b))
  }

  /** The replicas after those below k, the leader aside, have handled the certificate. */
  function AppliedUpTo(rs: seq<ReplicaState>, down: set<nat>, leader: nat, qc: QuorumCert, k: nat)
    : (r: seq<ReplicaState>)
    ensures |r| == |rs|
    ensures forall i :: 0 <= i < |rs| ==>
              r[i] == if i == leader || i in down || i >= k then rs[i] else rs[i].ApplyHighQc(qc)
  {
    seq(|rs|, i requires 0 <= i < |rs| =>
      if i == leader || i in down || i >= k then rs[i] else rs[i].ApplyHighQc(qc))
  }

  lemma InsertedStep(rs: seq<ReplicaState>, down: set<nat>, leader: nat, b: Block, k: nat)
    requires leader < |rs| && k + 1 < |rs|
    ensures var to := Receiver(leader, k);
            && InsertedUpTo(rs, down, leader, b, to)[to] == rs[to]
            && InsertedUpTo(rs, down, leader, b, Receiver(leader, k + 1))
               == InsertedUpTo(rs, down, leader, b, to)[to := if to in down then rs[to] else rs[to].InsertProposal(b)]
  {
    hide ReplicaState.InsertProposal;
  }

  lemma InsertedNone(rs: seq<ReplicaState>, down: set<nat>, leader: nat, b: Block)
    ensures InsertedUpTo(rs, down, leader, b, Receiver(leader, 0)) == rs
  {
    hide ReplicaState.InsertProposal;
  }

  lemma AppliedStep(rs: seq<ReplicaState>, down: set<nat>, leader: nat, qc: QuorumCert, k: nat)
    requires leader < |rs| && k + 1 < |rs|
    ensures var to := Receiver(leader, k);
            && to < |rs| && Receiver(leader, k + 1) <= |rs|
            && AppliedUpTo(rs, down, leader, qc, to)[to] == rs[to]
            && AppliedUpTo(rs, down, leader, qc, Receiver(leader, k + 1))
               == AppliedUpTo(rs, down, leader, qc, to)[to := if to in down then rs[to] else rs[to].ApplyHighQc(qc)]
  {
    hide ReplicaState.ApplyHighQc;
  }

  lemma AppliedAll(rs: seq<ReplicaState>, down: set<nat>, leader: nat, qc: QuorumCert)
    requires leader < |rs|
    ensures AppliedUpTo(rs, down, leader, qc, Receiver(leader, |rs| - 1)) == AppliedUpTo(rs, down, leader, qc, |rs|)
  {
    hide ReplicaState.ApplyHighQc;
  }

  lemma AppliedNone(rs: seq<ReplicaState>, down: set<nat>, leader: nat, qc: QuorumCert)
    ensures AppliedUpTo(rs, down, leader, qc, Receiver(leader, 0)) == rs
  {
    hide ReplicaState.ApplyHighQc;
  }

  lemma NothingCounted(c: Counters)
    ensures CountAll(c, []) == c
  {
  }

  lemma FirstReceiver(rs: seq<ReplicaState>, down: set<nat>, leader: nat, b: Block)
    requires leader < |rs|
    ensures Receiver(leader, 0) <= |rs| && VoteMsgs(rs, down, leader, b, Receiver(leader, 0)) == []
  {
  }

  /** The votes among ms, in order. */
  function Ballots(ms: seq<Message>): (votes: seq<Vote>)
    decreases |ms|
  {
    if ms == [] then []
    else Ballots(ms[..|ms| - 1]) + if ms[|ms| - 1].VoteMsg? then [ms[|ms| - 1].vote] else []
  }

  predicate AllVotesTo(ms: seq<Message>, leader: nat) {
    forall i :: 0 <= i < |ms| ==> ms[i].VoteMsg? && ms[i].to == leader
  }

  /** What handling all messages of a round makes of every replica. */
  ghost predicate MessagesHandled(before: seq<ReplicaState>, after: seq<ReplicaState>, down: set<nat>, leader: nat,
                                  b: Block)
  {
    && |after| == |before| && leader < |before|
    && var (l, qc) := Collect(before[leader], Ballots(VoteMsgs(before, down, leader, b, |before|)));
       forall i :: 0 <= i < |before| ==>
         after[i] == if i == leader then l
                     else if i in down then before[i] else Learn(before[i].InsertProposal(b), qc)
  }

  /** The three message phases one after the other. */
  lemma MessagesComposed(rs: seq<ReplicaState>, down: set<nat>, leader: nat, b: Block)
    requires leader < |rs| && leader !in down
    ensures var inserted := InsertedUpTo(rs, down, leader, b, |rs|);
            var (l, qc) := Collect(inserted[leader], Ballots(VoteMsgs(rs, down, leader, b, |rs|)));
            var collected := inserted[leader := l];
            MessagesHandled(rs, if qc.Some? then AppliedUpTo(collected, down, leader, qc.value, |rs|) else collected,
                            down, leader, b)
  {
    hide Collect, Ballots, VoteMsgs, ReplicaState.InsertProposal, ReplicaState.ApplyHighQc;
  }

  function RoundCounts(c: Counters, rs: seq<ReplicaState>, down: set<nat>, leader: nat, b: Block): Counters
    requires leader < |rs|
  {
    var msgs := VoteMsgs(rs, down, leader, b, |rs|);
    var sent := CountAll(CountAll(c, ProposalsTo(leader, |rs|, b)), msgs);
    var qc := Collect(rs[leader], Ballots(msgs)).1;
    if qc.Some? then CountAll(sent, CertificatesTo(leader, |rs|, qc.value, qc.value.blockHash)) else sent
  }

  lemma ProposalKeeps(r: ReplicaState, kind: RoundKind, view: nat, hash: Hash, now: nat)
    ensures var (p, b) := ProposeKind(r, kind, view, hash, now);
            p.config == r.config && (b.None? ==> p == r)
  {
    hide ReplicaState.ShouldProposeDummy;
  }

  lemma {:induction false} VotesSame(rs: seq<ReplicaState>, down: set<nat>, leader: nat, p: ReplicaState, b: Block,
                                     k: nat)
    requires k <= |rs| && leader < |rs|
    ensures Ballots(VoteMsgs(rs[leader := p], down, leader, b, k)) == VotesFor(rs, down, leader, b, k)
    decreases k
  {
    if k > 0 {
      VotesSame(rs, down, leader, p, b, k - 1);
      hide ReplicaState.ValidProposal, VoteOf;
      var init := VoteMsgs(rs[leader := p], down, leader, b, k - 1);
      if k - 1 != leader && k - 1 !in down && rs[k - 1].ValidProposal(b) {
        var m := VoteMsg(k - 1, leader, VoteOf(rs[k - 1], b));
        assert (init + [m])[..|init|] == init;
      } else {
        assert init + [] == init;
      }
    }
  }

  lemma {:induction false} CountVotes(c: Counters, ms: seq<Message>, leader: nat)
    requires AllVotesTo(ms, leader)
    ensures CountAll(c, ms) == c.(total := c.total + |ms|, votes := c.votes + |ms|) && |Ballots(ms)| == |ms|
    decreases |ms|
  {
    if ms != [] { CountVotes(c, ms[..|ms| - 1], leader); }
  }

  lemma CountsAre(c: Counters, rs: seq<ReplicaState>, down: set<nat>, leader: nat, b: Block)
    requires leader < |rs|
    ensures var votes := Ballots(VoteMsgs(rs, down, leader, b, |rs|));
            RoundCounts(c, rs, down, leader, b) == Sent(c, |rs|, |votes|, Collect(rs[leader], votes).1.Some?)
  {
    hide VoteMsgs, Collect, ProposalsTo, CertificatesTo, AllVotesTo, Ballots, CountAll;
    var n, msgs := |rs|, VoteMsgs(rs, down, leader, b, |rs|);
    VotesOnly(rs, down, leader, b, n);
    CountProposals(c, leader, n, b);
    var c1 := CountAll(c, ProposalsTo(leader, n, b));
    CountVotes(c1, msgs, leader);
    var qc := Collect(rs[leader], Ballots(msgs)).1;
    if qc.Some? { CountCertificates(CountAll(c1, msgs), leader, n, qc.value, qc.value.blockHash); }
  }

  /** Everybody who is up has finished the round. */
  ghost function FinishedAll(rs: seq<ReplicaState>, down: set<nat>, persistence: bool): (r: seq<ReplicaState>)
    ensures |r| == |rs|
    ensures forall i :: 0 <= i < |rs| ==> r[i] == if i in down then rs[i] else Finish(rs[i], persistence)
  {
    seq(|rs|, i requires 0 <= i < |rs| => if i in down then rs[i] else Finish(rs[i], persistence))
  }

  /** What a round cannot change. */
  predicate SameSetting(s: SimState, u: SimState) {
    && u.maxSteps == s.maxSteps && u.persistence == s.persistence && u.keystores == s.keystores
    && u.crashed == s.crashed && u.unresponsive == s.unresponsive && u.time == s.time && u.roundTime == s.roundTime
  }

  /** Handling the messages and then finishing is what the round makes of every replica. */
  lemma ReplicasComposed(s: SimState, leader: nat, p: ReplicaState, b: Block, mid: seq<ReplicaState>)
    requires leader < s.N() && leader !in s.Down()
    requires MessagesHandled(s.replicas[leader := p], mid, s.Down(), leader, b)
    ensures FinishedAll(mid, s.Down(), s.persistence) == RoundReplicas(s, leader, p, b)
  {
    hide VoteMsgs, Collect, Finish, VotesFor, Ballots, Learn, ReplicaState.InsertProposal, SimState.Down;
    VotesSame(s.replicas, s.Down(), leader, p, b, s.N());
  }

  lemma MarksComposed(before: seq<nat>, last: seq<nat>, down: set<nat>, time: nat)
    requires |before| == |last| && forall i :: 0 <= i < |last| && i in down ==> last[i] == before[i]
    ensures Mark(last, down, time) == Mark(before, down, time)
  {
  }

  lemma CountsComposed(s: SimState, leader: nat, p: ReplicaState, b: Block)
    requires leader < s.N()
    ensures var votes := VotesFor(s.replicas, s.Down(), leader, b, s.N());
            RoundCounts(s.sent, s.replicas[leader := p], s.Down(), leader, b)
            == Sent(s.sent, s.N(), |votes|, Collect(p, votes).1.Some?)
  {
    hide Collect, VotesFor, Sent, SimState.Down;
    VotesSame(s.replicas, s.Down(), leader, p, b, s.N());
    hide VoteMsgs, Ballots, RoundCounts;
    CountsAre(s.sent, s.replicas[leader := p], s.Down(), leader, b);
  }

  /** The phases one after the other make the round. */
  lemma RoundComposed(s: SimState, leader: nat, p: ReplicaState, b: Block, mid: seq<ReplicaState>, last: seq<nat>,
                      u: SimState)
    requires s.Shaped() && leader < s.N() && leader !in s.Down()
    requires MessagesHandled(s.replicas[leader := p], mid, s.Down(), leader, b)
    requires s.N() == |last|
    requires forall i :: 0 <= i < s.N() && i in s.Down() ==> last[i] == s.lastResponse[i]
    requires u.replicas == FinishedAll(mid, s.Down(), s.persistence)
    requires u.sent == RoundCounts(s.sent, s.replicas[leader := p], s.Down(), leader, b)
    requires u.lastResponse == Mark(last, s.Down(), s.time)
    requires u.nextGlobalHash == s.nextGlobalHash + 1 && u.step == s.step + 1 && u.queue == s.queue
    requires SameSetting(s, u)
    ensures u == ProposedRound(s, leader, p, b)
  {
    assert |s.lastResponse| == s.N();
    hide MessagesHandled, Collect, FinishedAll, RoundReplicas, RoundCounts, VotesFor, Sent, Mark, SimState.Down,
      SimState.Shaped, Finish;
    ReplicasComposed(s, leader, p, b, mid);
    MarksComposed(s.lastResponse, last, s.Down(), s.time);
    CountsComposed(s, leader, p, b);
  }

  lemma VotesOnly(rs: seq<ReplicaState>, down: set<nat>, leader: nat, b: Block, k: nat)
    requires k <= |rs|
    ensures AllVotesTo(VoteMsgs(rs, down, leader, b, k), leader)
  {
    if k > 0 {
      VotesOnly(rs, down, leader, b, k - 1);
      hide ReplicaState.ValidProposal;
    }
  }

  lemma NoBallots(r: ReplicaState)
    ensures Collect(r, Ballots([])) == (r, None)
  {
  }

  lemma CollectSnoc(r: ReplicaState, ms: seq<Message>, m: Message)
    requires m.VoteMsg?
    ensures var (q, qc) := Collect(r, Ballots(ms));
            var (q', formed) := q.HandleVote(m.vote);
            Collect(r, Ballots(ms + [m])) == (q', if formed.Some? then formed else qc)
  {
    hide ReplicaState.HandleVote;
    assert (ms + [m])[..|ms|] == ms;
    var votes := Ballots(ms) + [m.vote];
    assert Ballots(ms + [m]) == votes && votes[..|votes| - 1] == Ballots(ms);
  }

  // ----- Crashes, recovery and small steps -----

  lemma CrashNone(s: SimState)
    requires s.Shaped()
    ensures CrashSet(s, ToSet([])) == s
  {
    var t := CrashSet(s, ToSet([]));
    assert t.replicas == s.replicas;
    assert t.crashed == s.crashed && t.unresponsive == s.unresponsive;
  }

  /** Crashing the timed-out replicas one after the other crashes all of them. */
  lemma CrashOneMore(s: SimState, ids: seq<nat>, i: nat)
    requires s.Shaped() && i < |ids| && StrictlyAscending(ids) && ToSet(ids) == TimedOut(s)
    ensures var t := CrashSet(s, ToSet(ids[..i]));
            s.persistence ==> SimModel.CrashReplica(t, ids[i]) == CrashSet(s, ToSet(ids[..i + 1]))
    ensures !s.persistence ==> SimModel.CrashReplica(s, ids[i]) == s
  {
    hide Blank;
    var x, a, b := ids[i], ToSet(ids[..i]), ToSet(ids[..i + 1]);
    assert x in ToSet(ids) && x in TimedOut(s);
    assert ids[..i + 1] == ids[..i] + [x] && b == a + {x};
    if s.persistence {
      assert x !in a;
      assert a <= ToSet(ids);
      assert forall y :: y in b ==> y < s.N();
      var t, u := SimModel.CrashReplica(CrashSet(s, a), x), CrashSet(s, b);
      assert t.replicas == u.replicas;
      assert t.crashed == u.crashed && t.unresponsive == u.unresponsive;
    }
  }

  lemma RejoinIs(s: SimState, id: nat)
    requires s.Shaped() && CanRejoin(s, id)
    ensures match Recover(s.replicas[id].config, s.keystores[id], s.replicas[id].store)
            case Err(_) => Rejoin(s, id) == s
            case Ok(found) =>
              var q := Synced(s, id, Attached(found)).TakeSnapshot();
              q.config.id == id && Rejoin(s, id) == Reinstated(s, id, q)
  {
    hide Synced, ReplicaState.TakeSnapshot, Attached, Recover, Reinstated;
    if Revived(s, id).Ok? { RevivedKeepsId(s, id); }
  }

  lemma DummiesShaped(s: SimState, enabled: bool, timeoutMs: nat)
    requires s.Shaped()
    ensures SetAllDummies(s, enabled, timeoutMs).Shaped()
  {
  }

  lemma ClockShaped(s: SimState)
    requires s.Shaped()
    ensures s.(time := s.time + s.roundTime).Shaped()
  {
  }

  lemma SkipNext(s: SimState, reason: Reason, mark: bool, next: Hash)
    requires s.Shaped()
    ensures s.(nextGlobalHash := next).Shaped()
    ensures Skip(s.(nextGlobalHash := next), reason, mark) == Skip(s, reason, mark).(nextGlobalHash := next)
  {
  }

  lemma SkipIs(s: SimState, reason: Reason, mark: bool, u: SimState)
    requires s.Shaped()
    requires u.replicas == AdvanceUp(s.replicas, s.Down(), reason) && u.step == s.step + 1
    requires u.lastResponse == if mark then Mark(s.lastResponse, s.Down(), s.time) else s.lastResponse
    requires SameSetting(s, u) && u.queue == s.queue && u.sent == s.sent && u.nextGlobalHash == s.nextGlobalHash
    ensures u == Skip(s, reason, mark)
  {
    hide AdvanceUp, Mark, SimState.Shaped, SimState.Down;
  }

  lemma SyncedIs(s: SimState, id: nat, r: ReplicaState)
    requires id < s.N()
    ensures var d := FirstDonor(s, id, 0);
            Synced(s, id, r) ==
            if d.Some? then AdvanceTo(Import(r, s.replicas[d.value]), MaxView(s.replicas, s.crashed + {id})) else r
  {
    hide Import, MaxView;
  }

  lemma DonorInRange(s: SimState, id: nat)
    ensures FirstDonor(s, id, 0).Some? ==> FirstDonor(s, id, 0).value < s.N() && FirstDonor(s, id, 0).value != id
  {
  }

  lemma CrashIs(s: SimState, id: nat)
    requires s.Shaped()
    ensures SimModel.CrashReplica(s, id) ==
            if !CanCrash(s, id) then s
            else s.(replicas := s.replicas[id := Blank(s.replicas[id].config, s.keystores[id], s.replicas[id].store)],
                    crashed := s.crashed + {id}, unresponsive := s.unresponsive - {id})
  {
    hide Blank;
    if CanCrash(s, id) {
      var t := CrashSet(s, {id});
      assert t.replicas == s.replicas[id := Blank(s.replicas[id].config, s.keystores[id], s.replicas[id].store)];
      assert t.crashed == s.crashed + {id};
    }
  }

  /** A command on the leader's queue leaves the shape of the system alone. */
  lemma EnqueueIs(s: SimState, command: Command)
    requires s.Shaped() && s.N() > 0
    ensures CurrentLeader(s) < s.N() && EnqueueOnLeader(s, command).Shaped()
  {
    hide CurrentLeader;
  }

  lemma ProposedShaped(s: SimState, leader: nat, p: ReplicaState, next: Hash)
    requires s.Shaped() && leader < s.N() && p.config.id == leader
    ensures s.(replicas := s.replicas[leader := p], nextGlobalHash := next).Shaped()
  {
  }

  lemma IdAt(s: SimState, i: nat)
    requires s.Shaped() && i < s.N()
    ensures s.replicas[i].config.id == i
  {
  }
}
