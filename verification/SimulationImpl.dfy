/** The multi-replica driver as the program keeps it: replica objects, one network, and loops over both. Every
    method is proved to take the system exactly where the state machine of the same name says. */
module SimulationImpl {
  import opened Types
  import opened Ordered
  import opened Crypto
  import opened Storage
  import opened ReplicaModel
  import opened Recovery
  import opened Durability
  import opened StateSync
  import opened SimModel
  import opened Agreement
  import opened ReplicaImpl
  import RecoverImpl
  import opened NetworkImpl
  import opened Phases
  import opened ReplicaSteps

  ghost predicate Distinct(rs: seq<Replica>) {
    forall i, j :: 0 <= i < j < |rs| ==> rs[i] != rs[j]
  }

  ghost function StatesOf(rs: seq<Replica>): (states: seq<ReplicaState>)
    reads rs
    ensures |states| == |rs|
    ensures forall i :: 0 <= i < |rs| ==> states[i] == rs[i].State()
  {
    seq(|rs|, i requires 0 <= i < |rs| reads rs => rs[i].State())
  }

  ghost predicate AllKeyed(rs: seq<Replica>)
    reads rs
  {
    forall i :: 0 <= i < |rs| ==> rs[i].Valid()
  }

  class Simulation {
    var replicas: seq<Replica>
    const network: Network
    var step: nat
    const maxSteps: nat
    const persistence: bool
    const keystores: seq<KeyStore>
    var crashed: set<nat>
    var unresponsive: set<nat>
    var lastResponse: seq<nat>
    var time: nat
    const roundTime: nat

    ghost function View(): SimState
      reads this, replicas, network
    {
      SimState(StatesOf(replicas), network.queue, network.sent, network.nextGlobalHash, step, maxSteps, persistence,
               keystores, crashed, unresponsive, lastResponse, time, roundTime)
    }

    ghost predicate Valid()
      reads this, replicas, network
    {
      && Distinct(replicas) && AllKeyed(replicas)
      && network.numReplicas == |replicas|
      && View().Shaped()
    }

    function Down(): set<nat>
      reads this
    {
      crashed + unresponsive
    }

    /** A new system: with persistence every replica is recovered from its own, still empty, directory. */
    constructor (f: nat, maxSteps: nat, persistence: bool, keystores: seq<KeyStore>)
      ensures Valid() && View() == NewSim(f, maxSteps, persistence, keystores)
      ensures fresh(network) && forall i :: 0 <= i < |replicas| ==> fresh(replicas[i])
    {
      hide NewReplica, Replica.State, Replica.Valid;
      var n := |keystores|;
      replicas := [];
      network := new Network(n);
      step, this.maxSteps, this.persistence, this.keystores := 0, maxSteps, persistence, keystores;
      crashed, unresponsive, lastResponse, time, roundTime := {}, {}, seq(n, _ => 0), 0, 1000;
      new;
      for i := 0 to n
        invariant |replicas| == i && Distinct(replicas) && AllKeyed(replicas)
        invariant forall j :: 0 <= j < i ==> fresh(replicas[j])
        invariant forall j :: 0 <= j < i ==>
          replicas[j].State() == NewReplica(Config(n, f, j, 5000), keystores[j], persistence)
        invariant network.queue == [] && network.sent == Counters(0, 0, 0, 0, 0) && network.nextGlobalHash == 1
        invariant step == 0 && crashed == {} && unresponsive == {} && lastResponse == seq(n, _ => 0) && time == 0
        modifies this
      {
        var replica := CreateReplica(Config(n, f, i, 5000), keystores[i], persistence);
        replicas := replicas + [replica];
      }
      assert StatesOf(replicas) == NewSim(f, maxSteps, persistence, keystores).replicas;
    }

    /** A system of these replicas, with persistence, before its first round. */
    constructor Of(replicas: seq<Replica>, maxSteps: nat, keystores: seq<KeyStore>)
      requires Distinct(replicas) && AllKeyed(replicas) && |keystores| == |replicas|
      requires forall i :: 0 <= i < |replicas| ==> replicas[i].State().config.id == i
      ensures Valid() && this.replicas == replicas && fresh(network)
      ensures View() == SimState(StatesOf(replicas), [], Counters(0, 0, 0, 0, 0), 1, 0, maxSteps, true, keystores, {},
                                 {}, seq(|replicas|, _ => 0), 0, 1000)
    {
      hide Replica.State, Replica.Valid;
      this.replicas := replicas;
      network := new Network(|replicas|);
      step, this.maxSteps, persistence, this.keystores := 0, maxSteps, true, keystores;
      crashed, unresponsive, lastResponse, time, roundTime := {}, {}, seq(|replicas|, _ => 0), 0, 1000;
    }

    // ----- Crashes and unresponsiveness -----

    /** Replica objects are only ever replaced by new ones. */
    twostate predicate OnlyFreshReplaced()
      reads this
    {
      |replicas| == |old(replicas)| &&
      forall i :: 0 <= i < |replicas| ==> replicas[i] == old(replicas)[i] || fresh(replicas[i])
    }

    /** Drops the memory of a replica; refused without persistence, or when there is nothing to crash. */
    method CrashReplica(id: nat) returns (ok: bool)
      requires Valid()
      modifies this
      ensures Valid() && OnlyFreshReplaced()
      ensures View() == SimModel.CrashReplica(old(View()), id) && ok == CanCrash(old(View()), id)
    {
      hide Blank, SimModel.CrashReplica, Replica.Valid;
      ghost var s := View();
      CrashIs(s, id);
      if !persistence || id >= |replicas| || id in crashed {
        return false;
      }
      var replica := FreshReplica(replicas[id].config, keystores[id], replicas[id].store);
      replicas := replicas[id := replica];
      crashed := crashed + {id};
      unresponsive := unresponsive - {id};
      assert StatesOf(replicas) == s.replicas[id := replica.State()];
      ok := true;
    }

    /** Crashes every unresponsive replica whose last response is at least its timeout ago. */
    method ProcessTimeoutCrashes()
      requires Valid()
      modifies this
      ensures Valid() && OnlyFreshReplaced() && View() == ProcessTimeouts(old(View()))
    {
      hide TimedOut, CrashSet, SimModel.CrashReplica;
      ghost var s := View();
      var toCrash := Overdue();
      CrashNone(s);
      assert toCrash[..0] == [];
      for i := 0 to |toCrash|
        invariant Valid() && OnlyFreshReplaced()
        invariant View() == if persistence then CrashSet(s, ToSet(toCrash[..i])) else s
      {
        CrashOneMore(s, toCrash, i);
        var ok := CrashReplica(toCrash[i]);
      }
      assert toCrash[..|toCrash|] == toCrash;
    }

    method Overdue() returns (ids: seq<nat>)
      requires Valid()
      ensures StrictlyAscending(ids) && ToSet(ids) == TimedOut(View())
    {
      ids := [];
      for id := 0 to |replicas|
        invariant StrictlyAscending(ids) && forall k :: 0 <= k < |ids| ==> ids[k] < id
        invariant forall i :: i in ids <==> i < id && i in TimedOut(View())
      {
        if id !in crashed && id in unresponsive {
          var elapsed := if time >= lastResponse[id] then time - lastResponse[id] else 0;
          if elapsed >= replicas[id].config.timeoutMs {
            ids := ids + [id];
          }
        }
      }
    }

    method SetReplicaUnresponsive(id: nat, value: bool) returns (ok: bool)
      requires Valid()
      modifies this`unresponsive, this`lastResponse
      ensures Valid() && View() == MarkUnresponsive(old(View()), id, value)
      ensures ok <==> id < |replicas| && id !in crashed
    {
      if id >= |replicas| || id in crashed {
        return false;
      }
      if value {
        unresponsive := unresponsive + {id};
      } else {
        unresponsive := unresponsive - {id};
        lastResponse := lastResponse[id := time];
      }
      ok := true;
    }

    // ----- The leader -----

    /** The highest view among the replicas that are not excluded. */
    method HighestView(excluded: set<nat>) returns (view: nat)
      ensures view == MaxView(StatesOf(replicas), excluded)
    {
      view := 0;
      ghost var states := StatesOf(replicas);
      for i := 0 to |replicas|
        invariant view == MaxView(states[..i], excluded)
      {
        assert states[..i + 1][..i] == states[..i];
        if i !in excluded && replicas[i].currentView > view {
          view := replicas[i].currentView;
        }
      }
      assert states[..|replicas|] == states;
    }

    /** The first uncrashed replica from the highest view on, modulo the number of replicas. */
    method CurrentLeader() returns (leader: nat)
      ensures leader == SimModel.CurrentLeader(View())
    {
      if |replicas| == 0 {
        return 0;
      }
      var base := HighestView(crashed);
      leader := NextUncrashed(|replicas|, crashed, base);
    }

    // ----- Loops over all live replicas -----

    /** Every live replica moves to the next view; those that do are noted as having responded when mark is set. */
    method AdvanceLive(reason: Reason, mark: bool)
      requires Distinct(replicas) && AllKeyed(replicas) && |lastResponse| == |replicas|
      modifies replicas, this`lastResponse
      ensures StatesOf(replicas) == AdvanceUp(old(StatesOf(replicas)), Down(), reason)
      ensures lastResponse == if mark then Mark(old(lastResponse), Down(), time) else old(lastResponse)
      ensures AllKeyed(replicas)
    {
      hide ReplicaState.AdvanceView, Replica.State, Replica.Valid;
      var down, now := Down(), time;
      for i := 0 to |replicas|
        invariant |lastResponse| == |replicas| && AllKeyed(replicas)
        invariant forall j :: 0 <= j < i ==>
          replicas[j].State() == if j in down then old(replicas[j].State())
                                 else old(replicas[j].State()).AdvanceView(reason)
        invariant forall j :: i <= j < |replicas| ==> replicas[j].State() == old(replicas[j].State())
        invariant forall j :: 0 <= j < i ==>
          lastResponse[j] == if mark && j !in down then now else old(lastResponse)[j]
        invariant forall j :: i <= j < |replicas| ==> lastResponse[j] == old(lastResponse)[j]
      {
        if i !in down {
          replicas[i].AdvanceView(reason);
          if mark {
            lastResponse := lastResponse[i := now];
          }
        }
      }
    }

    /** Every live replica commits what it can and snapshots when it is due. */
    method CommitLive()
      requires Distinct(replicas) && AllKeyed(replicas) && |lastResponse| == |replicas|
      modifies replicas, this`lastResponse
      ensures forall i :: 0 <= i < |replicas| ==>
                replicas[i].State() == if i in Down() then old(replicas[i].State())
                                       else Checkpoint(old(replicas[i].State()).CommitAll(), persistence)
      ensures lastResponse == Mark(old(lastResponse), Down(), time)
      ensures AllKeyed(replicas)
    {
      hide ReplicaState.CommitAll, Replica.State, Replica.Valid, Checkpoint;
      for i := 0 to |replicas|
        invariant |lastResponse| == |replicas| && AllKeyed(replicas)
        invariant forall j :: 0 <= j < i ==>
          replicas[j].State() == if j in Down() then old(replicas[j].State())
                                 else Checkpoint(old(replicas[j].State()).CommitAll(), persistence)
        invariant forall j :: i <= j < |replicas| ==> replicas[j].State() == old(replicas[j].State())
        invariant forall j :: 0 <= j < i ==> lastResponse[j] == if j in Down() then old(lastResponse)[j] else time
        invariant forall j :: i <= j < |replicas| ==> lastResponse[j] == old(lastResponse)[j]
      {
        if i !in Down() {
          CommitOne(replicas[i], persistence);
          lastResponse := lastResponse[i := time];
        }
      }
    }

    // ----- The message phases of a round -----

    /** Everybody else gets the proposal; whoever is up and accepts it votes. Afterwards exactly the votes are in
        the network, in order of the voters. */
    method ProposalPhase(leader: nat, b: Block)
      requires Distinct(replicas) && AllKeyed(replicas) && |lastResponse| == |replicas| == network.numReplicas
      requires leader < |replicas| && network.queue == []
      modifies replicas, network`queue, network`sent, this`lastResponse
      ensures AllKeyed(replicas) && |lastResponse| == |replicas|
      ensures StatesOf(replicas) == InsertedUpTo(old(StatesOf(replicas)), Down(), leader, b, |replicas|)
      ensures network.queue == VoteMsgs(old(StatesOf(replicas)), Down(), leader, b, |replicas|)
      ensures network.sent == CountAll(CountAll(old(network.sent), ProposalsTo(leader, |replicas|, b)), network.queue)
      ensures forall i :: 0 <= i < |replicas| && i in Down() ==> lastResponse[i] == old(lastResponse)[i]
    {
      hide ReplicaState.InsertProposal, Replica.State, Replica.Valid, VoteMsgs, CountAll, Ballot, ProposalsTo,
        InsertedUpTo, StatesOf;
      network.BroadcastProposal(leader, b);
      BroadcastKept(leader, |replicas|, b);
      assert network.queue == ProposalsTo(leader, |replicas|, b);
      var proposals := network.Drain();
      DeliverAll(leader, b, proposals);
    }

    /** The proposal messages one after the other, the votes left in the network. */
    method DeliverAll(leader: nat, b: Block, proposals: seq<Message>)
      requires Distinct(replicas) && AllKeyed(replicas) && |lastResponse| == |replicas|
      requires leader < |replicas| && network.queue == [] && proposals == ProposalsTo(leader, |replicas|, b)
      modifies replicas, network`queue, network`sent, this`lastResponse
      ensures AllKeyed(replicas) && |lastResponse| == |replicas|
      ensures StatesOf(replicas) == InsertedUpTo(old(StatesOf(replicas)), Down(), leader, b, |replicas|)
      ensures network.queue == VoteMsgs(old(StatesOf(replicas)), Down(), leader, b, |replicas|)
      ensures network.sent == CountAll(old(network.sent), network.queue)
      ensures forall i :: 0 <= i < |replicas| && i in Down() ==> lastResponse[i] == old(lastResponse)[i]
    {
      hide ReplicaState.InsertProposal, Replica.State, Replica.Valid, VoteMsgs, CountAll, Ballot, ProposalsTo,
        InsertedUpTo, StatesOf;
      var n := |replicas|;
      ghost var before, sent := StatesOf(replicas), network.sent;
      FirstReceiver(before, Down(), leader, b);
      InsertedNone(before, Down(), leader, b);
      NothingCounted(sent);
      for k := 0 to |proposals|
        invariant AllKeyed(replicas) && |lastResponse| == n && Receiver(leader, k) <= n
        invariant StatesOf(replicas) == InsertedUpTo(before, Down(), leader, b, Receiver(leader, k))
        invariant network.queue == VoteMsgs(before, Down(), leader, b, Receiver(leader, k))
        invariant network.sent == CountAll(sent, network.queue)
        invariant forall i :: 0 <= i < n && i in Down() ==> lastResponse[i] == old(lastResponse)[i]
      {
        ProposalsAt(leader, n, b, k);
        VoteMsgsStep(before, Down(), leader, b, k);
        InsertedStep(before, Down(), leader, b, k);
        CountAppend(sent, network.queue, Ballot(before[Receiver(leader, k)], Down(), Receiver(leader, k), leader, b));
        DeliverProposal(proposals[k]);
      }
    }

    /** One proposal message: dropped when its receiver is down, otherwise checked and perhaps voted for. */
    method DeliverProposal(m: Message)
      requires m.ProposalMsg? && m.to < |replicas| && m.to < |lastResponse| && Distinct(replicas) && AllKeyed(replicas)
      modifies replicas[m.to], network`queue, network`sent, this`lastResponse
      ensures AllKeyed(replicas)
      ensures var r := old(StatesOf(replicas))[m.to];
              && StatesOf(replicas) ==
                 old(StatesOf(replicas))[m.to := if m.to in Down() then r else r.InsertProposal(m.block)]
              && network.queue == old(network.queue) + Ballot(r, Down(), m.to, m.from, m.block)
              && network.sent == CountAll(old(network.sent), Ballot(r, Down(), m.to, m.from, m.block))
      ensures |lastResponse| == |old(lastResponse)|
      ensures forall i :: 0 <= i < |lastResponse| && i in Down() ==> lastResponse[i] == old(lastResponse)[i]
    {
      hide ReplicaState.InsertProposal, Replica.State, Replica.Valid, Count, ReplicaState.ValidProposal;
      NothingCounted(network.sent);
      if m.to !in Down() {
        var vote := ReceiveProposal(replicas[m.to], m.block);
        if vote.Some? {
          lastResponse := lastResponse[m.to := time];
          CountSnoc(network.sent, [], VoteMsg(m.to, m.from, vote.value));
          assert [] + [VoteMsg(m.to, m.from, vote.value)] == [VoteMsg(m.to, m.from, vote.value)];
          network.SendVote(m.to, m.from, vote.value);
        }
      }
    }

    /** The leader handles every pending vote in order; qc is the last certificate formed, if any. */
    method CollectPhase(leader: nat) returns (qc: Option<QuorumCert>)
      requires leader < |replicas| && leader < |lastResponse| && leader !in Down()
      requires Distinct(replicas) && AllKeyed(replicas) && AllVotesTo(network.queue, leader)
      modifies replicas[leader], network`queue, this`lastResponse
      ensures AllKeyed(replicas) && network.queue == []
      ensures var (l, formed) := Collect(old(StatesOf(replicas))[leader], Ballots(old(network.queue)));
              StatesOf(replicas) == old(StatesOf(replicas))[leader := l] && qc == formed
      ensures |lastResponse| == |old(lastResponse)|
      ensures forall i :: 0 <= i < |lastResponse| && i in Down() ==> lastResponse[i] == old(lastResponse)[i]
    {
      hide ReplicaState.HandleVote, Replica.State, Replica.Valid, Collect, Ballots;
      qc := None;
      ghost var done := [];
      NoBallots(replicas[leader].State());
      while network.HasMessages()
        invariant done + network.queue == old(network.queue)
        invariant replicas[leader].Valid() && |lastResponse| == |old(lastResponse)|
        invariant (replicas[leader].State(), qc) == Collect(old(replicas[leader].State()), Ballots(done))
        invariant forall i :: 0 <= i < |lastResponse| && i in Down() ==> lastResponse[i] == old(lastResponse)[i]
        decreases |network.queue|
      {
        assert old(network.queue)[|done|] == network.queue[0];
        var m := network.Receive();
        var formed, written := replicas[leader].HandleVote(m.value.vote);
        lastResponse := lastResponse[leader := time];
        CollectSnoc(old(replicas[leader].State()), done, m.value);
        done := done + [m.value];
        if formed.Some? {
          qc := formed;
        }
      }
      assert done == old(network.queue);
    }

    /** Everybody else gets the certificate; whoever is up applies it. */
    method CertificatePhase(leader: nat, qc: QuorumCert, markAlways: bool)
      requires Distinct(replicas) && AllKeyed(replicas) && |lastResponse| == |replicas| == network.numReplicas
      requires leader < |replicas| && network.queue == []
      modifies replicas, network`queue, network`sent, this`lastResponse
      ensures AllKeyed(replicas) && |lastResponse| == |replicas| && network.queue == []
      ensures StatesOf(replicas) == AppliedUpTo(old(StatesOf(replicas)), Down(), leader, qc, |replicas|)
      ensures network.sent == CountAll(old(network.sent), CertificatesTo(leader, |replicas|, qc, qc.blockHash))
      ensures forall i :: 0 <= i < |replicas| && i in Down() ==> lastResponse[i] == old(lastResponse)[i]
    {
      hide ReplicaState.ApplyHighQc, Replica.State, Replica.Valid, CountAll, CertificatesTo, AppliedUpTo, StatesOf,
        Receiver, Distinct, AllKeyed;
      network.BroadcastQc(leader, qc, qc.blockHash);
      var n := |replicas|;
      ghost var before, all, sent := StatesOf(replicas), network.queue, network.sent;
      ghost var k := 0;
      AppliedNone(before, Down(), leader, qc);
      while network.HasMessages()
        invariant k <= |all| && network.queue == all[k..] && network.sent == sent
        invariant AllKeyed(replicas) && |lastResponse| == n
        invariant StatesOf(replicas) == AppliedUpTo(before, Down(), leader, qc, Receiver(leader, k))
        invariant forall i :: 0 <= i < n && i in Down() ==> lastResponse[i] == old(lastResponse)[i]
        decreases |network.queue|
      {
        NextCertificate(leader, qc, markAlways, before, k);
        assert all[k..][1..] == all[k + 1..];
        k := k + 1;
      }
      AppliedAll(before, Down(), leader, qc);
    }

    /** The k-th message of a certificate broadcast. */
    method NextCertificate(leader: nat, qc: QuorumCert, markAlways: bool, ghost before: seq<ReplicaState>, ghost k: nat)
      requires Distinct(replicas) && AllKeyed(replicas) && |lastResponse| == |replicas| == |before|
      requires leader < |replicas|
      requires k + 1 < |replicas|
      requires network.queue == CertificatesTo(leader, |replicas|, qc, qc.blockHash)[k..]
      requires StatesOf(replicas) == AppliedUpTo(before, Down(), leader, qc, Receiver(leader, k))
      modifies replicas, network`queue, this`lastResponse
      ensures AllKeyed(replicas) && |lastResponse| == |replicas| && network.queue == old(network.queue)[1..]
      ensures StatesOf(replicas) == AppliedUpTo(before, Down(), leader, qc, Receiver(leader, k + 1))
      ensures forall i :: 0 <= i < |replicas| && i in Down() ==> lastResponse[i] == old(lastResponse)[i]
    {
      hide ReplicaState.ApplyHighQc, Replica.State, Replica.Valid, CertificatesTo, AppliedUpTo, StatesOf, Receiver,
        Distinct, AllKeyed;
      CertificatesAt(leader, |replicas|, qc, qc.blockHash, k);
      AppliedStep(before, Down(), leader, qc, k);
      var m := network.Receive();
      DeliverCertificate(m.value, markAlways);
    }

    method DeliverCertificate(m: Message, markAlways: bool)
      requires m.QcMsg? && m.to < |replicas| && m.to < |lastResponse| && Distinct(replicas) && AllKeyed(replicas)
      modifies replicas[m.to], this`lastResponse
      ensures AllKeyed(replicas)
      ensures var r := old(StatesOf(replicas))[m.to];
              StatesOf(replicas) == old(StatesOf(replicas))[m.to := if m.to in Down() then r else r.ApplyHighQc(m.qc)]
      ensures |lastResponse| == |old(lastResponse)|
      ensures forall i :: 0 <= i < |lastResponse| && i in Down() ==> lastResponse[i] == old(lastResponse)[i]
    {
      hide ReplicaState.ApplyHighQc, Replica.State, Replica.Valid, ReplicaState.Newer;
      if m.to !in Down() {
        var updated := replicas[m.to].ApplyHighQcFromNetwork(m.qc);
        if updated || markAlways {
          lastResponse := lastResponse[m.to := time];
        }
      }
    }

    // ----- Rounds -----

    /** Proposal, votes and certificate: every message the round sends is sent, received and handled. */
    method MessagePhases(leader: nat, b: Block, kind: RoundKind)
      requires Distinct(replicas) && AllKeyed(replicas) && |lastResponse| == |replicas| == network.numReplicas
      requires leader < |replicas| && leader !in Down() && network.queue == []
      modifies replicas, network`queue, network`sent, this`lastResponse
      ensures AllKeyed(replicas) && |lastResponse| == |replicas| && network.queue == []
      ensures MessagesHandled(old(StatesOf(replicas)), StatesOf(replicas), Down(), leader, b)
      ensures network.sent == RoundCounts(old(network.sent), old(StatesOf(replicas)), Down(), leader, b)
      ensures forall i :: 0 <= i < |replicas| && i in Down() ==> lastResponse[i] == old(lastResponse)[i]
    {
      hide Replica.State, Replica.Valid, Collect, VoteMsgs, CountAll, ProposalsTo, CertificatesTo, Ballots, StatesOf,
        AllVotesTo, MessagesHandled, InsertedUpTo, AppliedUpTo;
      ghost var states := StatesOf(replicas);
      ProposalPhase(leader, b);
      VotesOnly(states, Down(), leader, b, |replicas|);
      ghost var votes := Ballots(network.queue);
      var qc := CollectPhase(leader);
      if qc.Some? {
        CertificatePhase(leader, qc.value, kind.Pacemaker?);
      }
      MessagesComposed(states, Down(), leader, b);
    }

    /** Every live replica commits, snapshots when due, and moves to the next view. */
    method EndOfRound()
      requires Distinct(replicas) && AllKeyed(replicas) && |lastResponse| == |replicas|
      modifies replicas, this`lastResponse
      ensures AllKeyed(replicas)
      ensures StatesOf(replicas) == FinishedAll(old(StatesOf(replicas)), Down(), persistence)
      ensures lastResponse == Mark(old(lastResponse), Down(), time)
    {
      hide Replica.State, Replica.Valid, Checkpoint, ReplicaState.CommitAll, ReplicaState.AdvanceView;
      CommitLive();
      AdvanceLive(Commit, true);
    }

    lemma ViewParts(s: SimState)
      requires Valid() && View() == s
      ensures Distinct(replicas) && AllKeyed(replicas) && network.numReplicas == |replicas| == |lastResponse|
      ensures network.queue == [] && StatesOf(replicas) == s.replicas
    {
    }

    /** All phases of a round; mid are the states and last the marks between handling messages and committing. */
    method AllPhases(leader: nat, b: Block, kind: RoundKind)
      returns (ghost mid: seq<ReplicaState>, ghost last: seq<nat>)
      requires Distinct(replicas) && AllKeyed(replicas) && |lastResponse| == |replicas| == network.numReplicas
      requires leader < |replicas| && leader !in Down() && network.queue == []
      modifies replicas, network`queue, network`sent, this`lastResponse, this`step
      ensures AllKeyed(replicas) && network.queue == [] && step == old(step) + 1
      ensures MessagesHandled(old(StatesOf(replicas)), mid, Down(), leader, b)
      ensures StatesOf(replicas) == FinishedAll(mid, Down(), persistence)
      ensures network.sent == RoundCounts(old(network.sent), old(StatesOf(replicas)), Down(), leader, b)
      ensures |last| == |replicas| && lastResponse == Mark(last, Down(), time)
      ensures forall i :: 0 <= i < |replicas| && i in Down() ==> last[i] == old(lastResponse)[i]
    {
      hide Replica.State, Replica.Valid, MessagesHandled, RoundCounts, FinishedAll, StatesOf, Mark, Distinct, AllKeyed,
        Finish;
      lastResponse := lastResponse[leader := time];
      MessagePhases(leader, b, kind);
      mid, last := StatesOf(replicas), lastResponse;
      EndOfRound();
      step := step + 1;
    }

    /** Everything that follows a proposal. s is the system before the leader, now p, proposed b. */
    method AfterProposal(leader: nat, b: Block, kind: RoundKind, ghost s: SimState, ghost p: ReplicaState)
      requires Valid() && leader < |replicas| && leader !in Down()
      requires s.Shaped() && leader < s.N() && p.config.id == leader
      requires View() == s.(replicas := s.replicas[leader := p], nextGlobalHash := s.nextGlobalHash + 1)
      modifies replicas, network`queue, network`sent, this`lastResponse, this`step
      ensures Valid() && View() == ProposedRound(s, leader, p, b)
    {
      hide Replica.State, Replica.Valid, MessagesHandled, RoundCounts, Finish, FinishedAll, StatesOf, ProposedRound,
        SimState.Shaped, Mark;
      ViewParts(s.(replicas := s.replicas[leader := p], nextGlobalHash := s.nextGlobalHash + 1));
      ghost var mid, last := AllPhases(leader, b, kind);
      RoundComposed(s, leader, p, b, mid, last, View());
      ProposedRoundShaped(s, leader, p, b);
    }

    /** Nothing was proposed: everybody who is up moves to the next view. */
    method SkipRound(reason: Reason, mark: bool)
      requires Valid()
      modifies replicas, this`lastResponse, this`step
      ensures Valid() && View() == Skip(old(View()), reason, mark)
    {
      hide Replica.State, Replica.Valid, SimState.Shaped, StatesOf, AdvanceUp, Mark, Skip, Distinct, AllKeyed;
      ghost var s := View();
      SkipShaped(s, reason, mark);
      ViewParts(s);
      AdvanceLive(reason, mark);
      step := step + 1;
      SkipIs(s, reason, mark, View());
    }

    /** A fresh hash for the leader and, if it has one to make, its proposal. */
    method Propose(leader: nat, kind: RoundKind, now: nat) returns (b: Option<Block>, ghost p: ReplicaState)
      requires Valid() && leader < |replicas|
      modifies replicas[leader], network`nextGlobalHash
      ensures Valid() && p.config.id == leader
      ensures var s, r := old(View()), old(replicas[leader].State());
              && (p, b) == ProposeKind(r, kind, r.currentView, s.nextGlobalHash, now)
              && View() == s.(replicas := s.replicas[leader := p], nextGlobalHash := s.nextGlobalHash + 1)
              && (b.None? ==> p == r)
    {
      hide Replica.State, Replica.Valid, ProposeKind, SimState.Shaped;
      ghost var s := View();
      IdAt(s, leader);
      ProposalKeeps(replicas[leader].State(), kind, s.replicas[leader].currentView, s.nextGlobalHash, now);
      var hash := network.GenerateUniqueHash();
      b := ProposeOn(replicas[leader], kind, hash, now);
      p := replicas[leader].State();
      ProposedShaped(s, leader, p, s.nextGlobalHash + 1);
      assert StatesOf(replicas) == s.replicas[leader := p];
      assert View() == s.(replicas := s.replicas[leader := p], nextGlobalHash := s.nextGlobalHash + 1);
    }

    /** The part of a round after the clock: leader, proposal, and what follows from it. */
    method RunBody(kind: RoundKind, now: nat)
      requires Valid() && |replicas| > 0
      modifies replicas, network, this`lastResponse, this`step
      ensures Valid() && View() == RoundBody(old(View()), kind, now)
    {
      hide Replica.State, Replica.Valid, Skip, ProposedRound, SimModel.CurrentLeader, ProposeKind, SimState.Shaped;
      var leader := CurrentLeader();
      ghost var s := View();
      if leader in Down() {
        SkipRound(Timeout, kind.Plain?);
        return;
      }
      ghost var p;
      var b;
      b, p := Propose(leader, kind, now);
      if b.None? {
        assert s.replicas[leader := p] == s.replicas;
        SkipNext(s, if kind.Plain? then Timeout else Commit, kind.Plain?, s.nextGlobalHash + 1);
        SkipRound(if kind.Plain? then Timeout else Commit, kind.Plain?);
      } else {
        AfterProposal(leader, b.value, kind, s, p);
      }
    }

    /** One plain round. It is refused when the step budget is spent or everybody has crashed. */
    method RunOneRound(now: nat) returns (ran: bool)
      requires Valid()
      modifies this, replicas, network
      ensures Valid() && OnlyFreshReplaced()
      ensures View() == Round(old(View()), Plain, now) && ran == !Refused(Started(old(View())))
    {
      hide RoundBody, ProcessTimeouts, SimState.Shaped;
      ClockShaped(View());
      time := time + roundTime;
      ProcessTimeoutCrashes();
      if step >= maxSteps || |crashed| == |replicas| {
        return false;
      }
      RefusedEmpty(View());
      RunBody(Plain, now);
      ProcessTimeoutCrashes();
      ran := true;
    }

    /** One pacemaker round: client commands first, dummies when wanted, otherwise no proposal. */
    method RunOneRoundWithPacemaker(now: nat) returns (ran: bool)
      requires Valid()
      modifies this, replicas, network
      ensures Valid() && OnlyFreshReplaced()
      ensures View() == Round(old(View()), Pacemaker, now) && ran == !Refused(Started(old(View())))
    {
      hide RoundBody, ProcessTimeouts, SimState.Shaped;
      ClockShaped(View());
      time := time + roundTime;
      ProcessTimeoutCrashes();
      if step >= maxSteps || |crashed| == |replicas| {
        return false;
      }
      RefusedEmpty(View());
      RunBody(Pacemaker, now);
      ran := true;
    }

    // ----- Recovery and rejoin -----

    /** The first other replica that has not crashed. */
    method FindDonor(id: nat) returns (donor: Option<nat>)
      ensures donor == FirstDonor(View(), id, 0)
    {
      for k := 0 to |replicas|
        invariant FirstDonor(View(), id, 0) == FirstDonor(View(), id, k)
      {
        if k != id && k !in crashed {
          return Some(k);
        }
      }
      donor := None;
    }

    /** State sync of a recovered replica, and catching up with the views of the others. */
    method Sync(id: nat, r: Replica)
      requires Valid() && id < |replicas| && r !in replicas && r.Valid()
      modifies r
      ensures r.State() == Synced(View(), id, old(r.State())) && r.Valid()
    {
      hide Replica.State, Import, FirstDonor, MaxView, AdvanceTo, SimState.Shaped, Synced, StatesOf, Distinct;
      ghost var s, before := View(), r.State();
      var donor := FindDonor(id);
      SyncedIs(s, id, before);
      if donor.Some? {
        DonorInRange(s, id);
        ImportFrom(r, replicas[donor.value]);
        var target := HighestView(crashed + {id});
        CatchUp(r, target);
      }
      assert StatesOf(replicas) == s.replicas;
      assert View() == s;
    }

    /** Recovers replica id from its directory, syncs it, and takes a snapshot of the result. */
    method Revive(id: nat) returns (r: Result<Replica, RecoveryError>)
      requires Valid() && id < |replicas|
      ensures match Recover(View().replicas[id].config, keystores[id], View().replicas[id].store)
              case Err(e) => r == Err(e)
              case Ok(found) =>
                && r.Ok? && fresh(r.value) && r.value.Valid()
                && r.value.State() == Synced(View(), id, Attached(found)).TakeSnapshot()
    {
      hide Recover, Synced, ReplicaState.TakeSnapshot, Attached, Replica.Valid;
      r := RecoverImpl.RecoverReplica(replicas[id].config, keystores[id], replicas[id].store);
      if r.Ok? {
        r.value.AttachWal();
        Sync(id, r.value);
        var ok, writes := r.value.TakeSnapshot();
      }
    }

    /** Puts a revived replica in its place; it counts as having just responded. */
    method Install(id: nat, r: Replica)
      requires Valid() && id < |replicas| && r !in replicas && r.Valid() && r.State().config.id == id
      modifies this
      ensures Valid() && replicas == old(replicas)[id := r] && crashed == old(crashed) - {id}
      ensures View() == Reinstated(old(View()), id, r.State())
    {
      hide Replica.State, Replica.Valid;
      replicas := replicas[id := r];
      crashed := crashed - {id};
      unresponsive := unresponsive - {id};
      lastResponse := lastResponse[id := time];
      assert StatesOf(replicas) == old(StatesOf(replicas))[id := r.State()];
    }

    /** Brings a crashed replica back. */
    method RecoverReplica(id: nat) returns (ok: bool)
      requires Valid()
      modifies this
      ensures Valid() && OnlyFreshReplaced() && View() == Rejoin(old(View()), id)
      ensures ok <==> CanRejoin(old(View()), id) && id !in crashed
    {
      if !persistence || id >= |replicas| || id !in crashed {
        return false;
      }
      hide Replica.State, Recover, Synced, ReplicaState.TakeSnapshot, Attached, Replica.Valid, Rejoin, SimState.Shaped,
        Reinstated, StatesOf, Distinct, AllKeyed;
      ghost var s := View();
      RejoinIs(s, id);
      var r := Revive(id);
      assert StatesOf(replicas) == s.replicas;
      assert View() == s;
      if r.Err? {
        return false;
      }
      Install(id, r.value);
      ok := true;
    }

    // ----- Clients and the pacemaker -----

    /** Only a system with replicas has a queue to push on. */
    method EnqueueClientCommand(command: Command)
      requires Valid() && |replicas| > 0
      modifies replicas
      ensures Valid() && View() == EnqueueOnLeader(old(View()), command)
    {
      hide SimModel.CurrentLeader, Replica.State, Replica.Valid;
      ghost var s := View();
      EnqueueIs(s, command);
      var leader := CurrentLeader();
      EnqueueOn(replicas[leader], command);
      assert StatesOf(replicas) == EnqueueOnLeader(s, command).replicas;
    }

    /** Switches dummies on, with this idle threshold, or off, on every replica. */
    method SetDummyProposals(enabled: bool, timeoutMs: nat)
      requires Valid()
      modifies replicas
      ensures Valid() && View() == SetAllDummies(old(View()), enabled, timeoutMs)
    {
      hide Replica.State, Replica.Valid, Dummies;
      ghost var s := View();
      for i := 0 to |replicas|
        invariant AllKeyed(replicas)
        invariant forall j :: 0 <= j < i ==> replicas[j].State() == Dummies(s.replicas[j], enabled, timeoutMs)
        invariant forall j :: i <= j < |replicas| ==> replicas[j].State() == s.replicas[j]
      {
        SetDummiesOn(replicas[i], enabled, timeoutMs);
      }
      assert StatesOf(replicas) == SetAllDummies(s, enabled, timeoutMs).replicas;
      DummiesShaped(s, enabled, timeoutMs);
    }

    // ----- The safety check -----

    /** Whether all uncrashed logs agree with the first uncrashed one, as far as both go. Replica 0 is only ever
        the reference. */
    method VerifySafety() returns (safe: bool)
      requires Valid()
      ensures safe == Agreement.VerifySafety(View())
    {
      hide SimState.Shaped;
      var reference := FindReference();
      if reference.None? {
        return true;
      }
      var expected := replicas[reference.value].committedLog;
      for i := 1 to |replicas|
        invariant forall j :: 1 <= j < i && j != reference.value && j !in crashed ==>
                    SameHashes(expected, StatesOf(replicas)[j].committedLog)
      {
        if i != reference.value && i !in crashed {
          var same := CompareLogs(expected, replicas[i].committedLog);
          if !same {
            return false;
          }
        }
      }
      safe := true;
    }

    method FindReference() returns (reference: Option<nat>)
      ensures reference == FirstUncrashed(View(), 0)
    {
      for k := 0 to |replicas|
        invariant FirstUncrashed(View(), 0) == FirstUncrashed(View(), k)
      {
        if k !in crashed {
          return Some(k);
        }
      }
      reference := None;
    }

    // ----- Whole runs -----

    /** Performs one action of the driver. */
    method Perform(action: Action)
      requires Valid() && (action.EnqueueCommand? ==> |replicas| > 0)
      modifies this, replicas, network
      ensures Valid() && OnlyFreshReplaced() && View() == Step(old(View()), action)
    {
      hide Round, Rejoin, SimModel.CrashReplica, MarkUnresponsive, EnqueueOnLeader, SetAllDummies, Replica.State,
        Replica.Valid, SimState.Shaped;
      match action {
        case RunRound(kind, now) =>
          if kind.Plain? {
            var ran := RunOneRound(now);
          } else {
            var ran := RunOneRoundWithPacemaker(now);
          }
        case SetUnresponsive(id, value) => var ok := SetReplicaUnresponsive(id, value);
        case Crash(id) => var ok := CrashReplica(id);
        case RejoinReplica(id) => var ok := RecoverReplica(id);
        case EnqueueCommand(command) => EnqueueClientCommand(command);
        case SetDummies(enabled, timeoutMs) => SetDummyProposals(enabled, timeoutMs);
      }
    }

    /** Performs any schedule of actions; the objects end up where the state machine says. */
    method PerformAll(actions: seq<Action>)
      requires Valid()
      requires forall i :: 0 <= i < |actions| && actions[i].EnqueueCommand? ==> |replicas| > 0
      modifies this, replicas, network
      ensures Valid() && OnlyFreshReplaced() && View() == Drive(old(View()), actions)
    {
      hide Step, SimState.Shaped, Replica.State, Replica.Valid;
      ghost var s := View();
      ViewParts(s);
      assert actions[..0] == [];
      for i := 0 to |actions|
        invariant Valid() && OnlyFreshReplaced() && |replicas| == |old(replicas)|
        invariant s.Shaped() && View() == Drive(s, actions[..i])
      {
        assert actions[..i + 1][..i] == actions[..i];
        Perform(actions[i]);
      }
      assert actions[..|actions|] == actions;
    }
  }

  /** A system on directories an earlier one may have left; it starts only if all of them can be recovered. */
  method Resume(f: nat, maxSteps: nat, keystores: seq<KeyStore>, stores: seq<Store>)
    returns (r: Result<Simulation, RecoveryError>)
    requires |stores| == |keystores|
    ensures match ResumeSim(f, maxSteps, keystores, stores)
            case Err(e) => r == Err(e)
            case Ok(s) => r.Ok? && fresh(r.value) && r.value.Valid() && r.value.View() == s
  {
    hide Recover, Attached, Replica.State, Replica.Valid, ResumeSim;
    var n := |keystores|;
    var replicas: seq<Replica> := [];
    ResumeFails(f, maxSteps, keystores, stores);
    for i := 0 to n
      invariant |replicas| == i && Distinct(replicas) && AllKeyed(replicas)
      invariant forall j :: 0 <= j < i ==> fresh(replicas[j])
      invariant forall j :: 0 <= j < i ==>
        && Recover(Config(n, f, j, 5000), keystores[j], stores[j]).Ok?
        && replicas[j].State() == Attached(Recover(Config(n, f, j, 5000), keystores[j], stores[j]).value)
      invariant FailedStart(f, keystores, stores, 0) == FailedStart(f, keystores, stores, i)
    {
      var recovered := RecoverImpl.RecoverReplica(Config(n, f, i, 5000), keystores[i], stores[i]);
      if recovered.Err? {
        return Err(recovered.error);
      }
      recovered.value.AttachWal();
      replicas := replicas + [recovered.value];
    }
    ResumeParts(f, maxSteps, keystores, stores, StatesOf(replicas));
    var sim := new Simulation.Of(replicas, maxSteps, keystores);
    r := Ok(sim);
  }

  lemma ResumeFails(f: nat, maxSteps: nat, keystores: seq<KeyStore>, stores: seq<Store>)
    requires |stores| == |keystores|
    ensures var failed := FailedStart(f, keystores, stores, 0);
            failed.Some? ==> ResumeSim(f, maxSteps, keystores, stores) == Err(failed.value)
  {
    hide Recover, Attached;
  }

  lemma ResumeParts(f: nat, maxSteps: nat, keystores: seq<KeyStore>, stores: seq<Store>, states: seq<ReplicaState>)
    requires |stores| == |keystores| == |states|
    requires forall j :: 0 <= j < |states| ==>
               && Recover(Config(|states|, f, j, 5000), keystores[j], stores[j]).Ok?
               && states[j] == Attached(Recover(Config(|states|, f, j, 5000), keystores[j], stores[j]).value)
    ensures forall i :: 0 <= i < |states| ==> states[i].config.id == i
    ensures ResumeSim(f, maxSteps, keystores, stores) ==
            Ok(SimState(states, [], Counters(0, 0, 0, 0, 0), 1, 0, maxSteps, true, keystores, {}, {},
                        seq(|states|, _ => 0), 0, 1000))
  {
    hide Recover, Attached;
    assert ResumeSim(f, maxSteps, keystores, stores).value.replicas == states;
    ResumeShaped(f, maxSteps, keystores, stores);
  }

  /** Any schedule in which replicas only ever leave, on the objects themselves: at its end everybody who is up
      holds the same tree, certificate, view and log, every other log is a prefix of theirs, and the driver's own
      safety check passes. */
  method DepartureRun(f: nat, maxSteps: nat, persistence: bool, keystores: seq<KeyStore>, actions: seq<Action>)
    returns (sim: Simulation, safe: bool)
    requires KeysDistributed(keystores)
    requires forall i :: 0 <= i < |actions| ==> Departure(actions[i])
    requires forall i :: 0 <= i < |actions| && actions[i].EnqueueCommand? ==> |keystores| > 0
    ensures fresh(sim) && sim.Valid() && safe && |sim.replicas| == |keystores|
    ensures LiveAgree(sim.View())
  {
    hide NewSim, Drive, Replica.Valid, SimState.Shaped, LiveAgree, KeysDistributed, Departure, Replica.State,
      Distinct, AllKeyed;
    sim := new Simulation(f, maxSteps, persistence, keystores);
    sim.PerformAll(actions);
    AgreementWithDepartures(f, maxSteps, persistence, keystores, actions);
    SafetyCheckPasses(f, maxSteps, persistence, keystores, actions);
    safe := sim.VerifySafety();
  }
}
