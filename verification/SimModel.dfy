/** The multi-replica driver as a state machine over values: rounds, faults, recovery and rejoin. */
module SimModel {
  import opened Types
  import opened Ordered
  import opened Crypto
  import opened Storage
  import opened ReplicaModel
  import opened Recovery
  import opened StateSync
  import opened Durability

  datatype Message =
    | ProposalMsg(from: ReplicaId, to: ReplicaId, block: Block)
    | VoteMsg(from: ReplicaId, to: ReplicaId, vote: Vote)
    | QcMsg(from: ReplicaId, to: ReplicaId, qc: QuorumCert, blockHash: Hash)
    | NewViewMsg(from: ReplicaId, to: ReplicaId, view: nat, highQc: Option<QuorumCert>)

  /** Messages sent so far, in all and by kind. */
  datatype Counters = Counters(total: nat, proposals: nat, votes: nat, certificates: nat, newViews: nat)

  datatype SimState = SimState(
    replicas: seq<ReplicaState>,
    queue: seq<Message>,
    sent: Counters,
    nextGlobalHash: Hash,
    step: nat,
    maxSteps: nat,
    persistence: bool,
    keystores: seq<KeyStore>,
    crashed: set<nat>,
    unresponsive: set<nat>,
    lastResponse: seq<nat>,
    time: nat,
    roundTime: nat)
  {
    function N(): nat {
      |replicas|
    }

    function Down(): set<nat> {
      crashed + unresponsive
    }

    predicate Live(i: nat) {
      i < N() && i !in Down()
    }

    predicate Shaped() {
      && |keystores| == |lastResponse| == N()
      && queue == []
      && (forall i :: i in crashed ==> i < N())
      && (forall i :: i in unresponsive ==> i < N())
      && forall i :: 0 <= i < N() ==> replicas[i].config.id == i
    }
  }

  datatype RoundKind = Plain | Pacemaker

  // ----- Crashes -----

  /** A replica with no memory: genesis only, no log attached; its data directory is untouched. */
  function Blank(config: Config, keys: KeyStore, store: Store): ReplicaState {
    ReplicaState(config, 0, map[0 := GENESIS], None, map[], 1, [], None, Ids(config.n), 0, keys,
                 false, store, 0, [], false, 0, 0)
  }

  function CrashSet(s: SimState, ids: set<nat>): (t: SimState)
    requires s.Shaped()
    ensures t.Shaped() && t.N() == s.N()
  {
    s.(replicas := seq(s.N(), i requires 0 <= i < s.N() =>
         if i in ids then Blank(s.replicas[i].config, s.keystores[i], s.replicas[i].store) else s.replicas[i]),
       crashed := s.crashed + (set i | i in ids && i < s.N()),
       unresponsive := s.unresponsive - ids)
  }

  predicate CanCrash(s: SimState, id: nat) {
    s.persistence && id < s.N() && id !in s.crashed
  }

  function CrashReplica(s: SimState, id: nat): (t: SimState)
    requires s.Shaped()
    ensures t.Shaped() && t.N() == s.N()
  {
    if CanCrash(s, id) then CrashSet(s, {id}) else s
  }

  /** Unresponsive replicas whose last response is at least their timeout ago. */
  function TimedOut(s: SimState): set<nat>
    requires s.Shaped()
  {
    set i | i in s.unresponsive && i !in s.crashed
            && (if s.time >= s.lastResponse[i] then s.time - s.lastResponse[i] else 0)
               >= s.replicas[i].config.timeoutMs
  }

  function ProcessTimeouts(s: SimState): (t: SimState)
    requires s.Shaped()
    ensures t.Shaped() && t.N() == s.N()
  {
    if s.persistence then CrashSet(s, TimedOut(s)) else s
  }

  // ----- Leader -----

  function MaxView(rs: seq<ReplicaState>, crashed: set<nat>): (v: nat)
    ensures forall i :: 0 <= i < |rs| && i !in crashed ==> rs[i].currentView <= v
    ensures v == 0 || exists i :: 0 <= i < |rs| && i !in crashed && rs[i].currentView == v
    decreases |rs|
  {
    if rs == [] then 0
    else
      var n := |rs| - 1;
      var init := MaxView(rs[..n], crashed);
      if n in crashed then init else Max(init, rs[n].currentView)
  }

  function LeaderFrom(n: nat, crashed: set<nat>, base: nat, offset: nat): (l: nat)
    requires n > 0
    ensures l < n
    decreases n - offset
  {
    if offset >= n then 0
    else
      var candidate := (base + offset) % n;
      if candidate !in crashed then candidate else LeaderFrom(n, crashed, base, offset + 1)
  }

  function CurrentLeader(s: SimState): (l: nat)
    ensures s.N() > 0 ==> l < s.N()
  {
    if s.N() == 0 then 0 else LeaderFrom(s.N(), s.crashed, MaxView(s.replicas, s.crashed), 0)
  }

  // ----- A round -----

  function Mark(last: seq<nat>, down: set<nat>, time: nat): (r: seq<nat>)
    ensures |r| == |last|
  {
    seq(|last|, i requires 0 <= i < |last| => if i in down then last[i] else time)
  }

  function AdvanceUp(rs: seq<ReplicaState>, down: set<nat>, reason: Reason): (r: seq<ReplicaState>)
    ensures |r| == |rs|
    ensures forall i :: 0 <= i < |rs| ==> r[i] == if i in down then rs[i] else rs[i].AdvanceView(reason)
  {
    seq(|rs|, i requires 0 <= i < |rs| => if i in down then rs[i] else rs[i].AdvanceView(reason))
  }

  /** Nothing proposed: every live replica moves to the next view. */
  function Skip(s: SimState, reason: Reason, mark: bool): SimState
    requires s.Shaped()
  {
    s.(replicas := AdvanceUp(s.replicas, s.Down(), reason),
       lastResponse := if mark then Mark(s.lastResponse, s.Down(), s.time) else s.lastResponse,
       step := s.step + 1)
  }

  function VoteOf(r: ReplicaState, b: Block): Vote {
    Vote(b.hash, b.view, b.epoch, r.keystore.Sign(b.hash, b.view, b.epoch))
  }

  /** The votes the first k replicas send for b, in ascending order of replica. */
  function VotesFor(rs: seq<ReplicaState>, down: set<nat>, leader: nat, b: Block, k: nat): (votes: seq<Vote>)
    requires k <= |rs|
    ensures |votes| <= if leader < k then k - 1 else k
  {
    if k == 0 then []
    else
      var init := VotesFor(rs, down, leader, b, k - 1);
      if k - 1 != leader && k - 1 !in down && rs[k - 1].ValidProposal(b)
      then init + [VoteOf(rs[k - 1], b)] else init
  }

  /** The leader handles the votes in order; the last certificate formed is the one it broadcasts. */
  function Collect(r: ReplicaState, votes: seq<Vote>): (c: (ReplicaState, Option<QuorumCert>))
    ensures c.0.config == r.config && c.0.blockTree == r.blockTree && c.0.SamePacemaker(r)
    decreases |votes|
  {
    if votes == [] then (r, None)
    else
      var (q, qc) := Collect(r, votes[..|votes| - 1]);
      var (q', qc') := q.HandleVote(votes[|votes| - 1]);
      (q', if qc'.Some? then qc' else qc)
  }

  function Learn(r: ReplicaState, qc: Option<QuorumCert>): ReplicaState {
    if qc.Some? then r.ApplyHighQc(qc.value) else r
  }

  function Checkpoint(r: ReplicaState, persistence: bool): ReplicaState {
    if persistence && r.ShouldSnapshot() then r.TakeSnapshot() else r
  }

  /** The end of a round for a live replica: commit, perhaps snapshot, and move on. */
  ghost function Finish(r: ReplicaState, persistence: bool): ReplicaState {
    Checkpoint(r.CommitAll(), persistence).AdvanceView(Commit)
  }

  ghost function FollowerRound(r: ReplicaState, b: Block, qc: Option<QuorumCert>, persistence: bool): ReplicaState {
    Finish(Learn(r.InsertProposal(b), qc), persistence)
  }

  /** Every replica after a round in which leader, now proposer, proposed b. */
  ghost function RoundReplicas(s: SimState, leader: nat, proposer: ReplicaState, b: Block): (r: seq<ReplicaState>)
    requires leader < s.N()
    ensures |r| == s.N()
    ensures var (l, qc) := Collect(proposer, VotesFor(s.replicas, s.Down(), leader, b, s.N()));
            forall i :: 0 <= i < s.N() ==>
              r[i] == if i in s.Down() then s.replicas[i]
                      else if i == leader then Finish(l, s.persistence)
                      else FollowerRound(s.replicas[i], b, qc, s.persistence)
  {
    var (l, qc) := Collect(proposer, VotesFor(s.replicas, s.Down(), leader, b, s.N()));
    seq(s.N(), i requires 0 <= i < s.N() =>
      if i in s.Down() then s.replicas[i]
      else if i == leader then Finish(l, s.persistence)
      else FollowerRound(s.replicas[i], b, qc, s.persistence))
  }

  function Sent(c: Counters, n: nat, votes: nat, formed: bool): Counters
    requires n > 0
  {
    var q := if formed then n - 1 else 0;
    c.(total := c.total + (n - 1) + votes + q, proposals := c.proposals + (n - 1),
       votes := c.votes + votes, certificates := c.certificates + q)
  }

  ghost function ProposedRound(s: SimState, leader: nat, proposer: ReplicaState, b: Block): SimState
    requires s.Shaped() && leader < s.N()
  {
    var votes := VotesFor(s.replicas, s.Down(), leader, b, s.N());
    s.(replicas := RoundReplicas(s, leader, proposer, b),
       nextGlobalHash := s.nextGlobalHash + 1,
       sent := Sent(s.sent, s.N(), |votes|, Collect(proposer, votes).1.Some?),
       lastResponse := Mark(s.lastResponse, s.Down(), s.time),
       step := s.step + 1)
  }

  ghost function ProposeKind(r: ReplicaState, kind: RoundKind, view: nat, hash: Hash, now: nat)
    : (ReplicaState, Option<Block>)
  {
    if kind.Plain? then r.ProposeWithHash(view, hash, now) else r.ProposeNextWithHash(view, hash, now)
  }

  /** The round is refused when the step budget is spent or every replica has crashed. */
  predicate Refused(s: SimState) {
    s.step >= s.maxSteps || |s.crashed| == s.N()
  }

  /** The state a round works on: the clock has moved and overdue replicas have crashed. */
  function Started(s: SimState): (t: SimState)
    requires s.Shaped()
    ensures t.Shaped() && t.N() == s.N()
  {
    ProcessTimeouts(s.(time := s.time + s.roundTime))
  }

  /** What the leader of a started round proposes, and the leader afterwards. */
  ghost function Proposal(s: SimState, kind: RoundKind, now: nat): (ReplicaState, Option<Block>)
    requires s.N() > 0
  {
    var l := s.replicas[CurrentLeader(s)];
    ProposeKind(l, kind, l.currentView, s.nextGlobalHash, now)
  }

  ghost function RoundBody(s: SimState, kind: RoundKind, now: nat): SimState
    requires s.Shaped() && s.N() > 0
  {
    var leader := CurrentLeader(s);
    if leader in s.Down() then Skip(s, Timeout, kind.Plain?)
    else
      match Proposal(s, kind, now)
      case (_, None) =>
        Skip(s, if kind.Plain? then Timeout else Commit, kind.Plain?).(nextGlobalHash := s.nextGlobalHash + 1)
      case (proposer, Some(b)) => ProposedRound(s, leader, proposer, b)
  }

  ghost function Round(s: SimState, kind: RoundKind, now: nat): SimState
    requires s.Shaped()
  {
    var t := Started(s);
    if Refused(t) then t
    else
      RefusedEmpty(t);
      var u := RoundBody(t, kind, now);
      RoundBodyShaped(t, kind, now);
      if kind.Plain? then ProcessTimeouts(u) else u
  }

  lemma FinishKeepsId(r: ReplicaState, persistence: bool)
    ensures Finish(r, persistence).config.id == r.config.id
  {
  }

  lemma FollowerKeepsId(r: ReplicaState, b: Block, qc: Option<QuorumCert>, persistence: bool)
    ensures FollowerRound(r, b, qc, persistence).config.id == r.config.id
  {
    FinishKeepsId(Learn(r.InsertProposal(b), qc), persistence);
    hide Finish, ReplicaState.ValidProposal;
  }

  lemma ProposedRoundShaped(s: SimState, leader: nat, p: ReplicaState, b: Block)
    requires s.Shaped() && leader < s.N() && p.config.id == leader
    ensures ProposedRound(s, leader, p, b).Shaped() && ProposedRound(s, leader, p, b).N() == s.N()
  {
    var votes := VotesFor(s.replicas, s.Down(), leader, b, s.N());
    var (l, qc) := Collect(p, votes);
    var u := ProposedRound(s, leader, p, b);
    assert u.replicas == RoundReplicas(s, leader, p, b);
    hide Finish, FollowerRound, Collect, VotesFor, ProposedRound;
    forall i | 0 <= i < s.N() ensures u.replicas[i].config.id == i {
      FinishKeepsId(l, s.persistence);
      FollowerKeepsId(s.replicas[i], b, qc, s.persistence);
    }
  }

  lemma ProposalKeepsId(s: SimState, kind: RoundKind, now: nat)
    requires s.N() > 0
    ensures Proposal(s, kind, now).0.config.id == s.replicas[CurrentLeader(s)].config.id
  {
  }

  lemma SkipShaped(s: SimState, reason: Reason, mark: bool)
    requires s.Shaped()
    ensures Skip(s, reason, mark).Shaped() && Skip(s, reason, mark).N() == s.N()
  {
    hide ReplicaState.AdvanceView;
  }

  lemma RoundBodyShaped(s: SimState, kind: RoundKind, now: nat)
    requires s.Shaped() && s.N() > 0
    ensures RoundBody(s, kind, now).Shaped() && RoundBody(s, kind, now).N() == s.N()
  {
    hide Proposal, ProposedRound, Skip;
    ProposalKeepsId(s, kind, now);
    var (p, b) := Proposal(s, kind, now);
    SkipShaped(s, Timeout, kind.Plain?);
    SkipShaped(s, if kind.Plain? then Timeout else Commit, kind.Plain?);
    assert s.replicas[CurrentLeader(s)].config.id == CurrentLeader(s);
    if b.Some? {
      hide SimState.Shaped, CurrentLeader;
      ProposedRoundShaped(s, CurrentLeader(s), p, b.value);
    }
  }

  lemma RefusedEmpty(s: SimState)
    requires s.Shaped()
    ensures s.N() == 0 ==> Refused(s)
  {
    if s.N() == 0 { assert s.crashed == {}; }
  }

  // ----- Recovery and rejoin -----

  function FirstDonor(s: SimState, id: nat, k: nat): (d: Option<nat>)
    ensures d.Some? ==> k <= d.value < s.N() && d.value != id && d.value !in s.crashed
    decreases s.N() - k
  {
    if k >= s.N() then None
    else if k != id && k !in s.crashed then Some(k)
    else FirstDonor(s, id, k + 1)
  }

  /** The recovered replica after state sync and catching up with the views of the others. */
  function Synced(s: SimState, id: nat, r: ReplicaState): ReplicaState
    requires id < s.N()
  {
    var d := FirstDonor(s, id, 0);
    if d.Some? then SyncWith(r, Some(s.replicas[d.value]), MaxView(s.replicas, s.crashed + {id}))
    else SyncWith(r, None, r.currentView)
  }

  predicate CanRejoin(s: SimState, id: nat) {
    s.persistence && id < s.N() && id in s.crashed
  }

  /** The state a crashed replica comes back in: recovered, synced, and snapshotted. */
  function Revived(s: SimState, id: nat): (q: Result<ReplicaState, RecoveryError>)
    requires s.Shaped() && id < s.N()
  {
    match Recover(s.replicas[id].config, s.keystores[id], s.replicas[id].store)
    case Err(e) => Err(e)
    case Ok(r) => Ok(Synced(s, id, Attached(r)).TakeSnapshot())
  }

  lemma RevivedKeepsId(s: SimState, id: nat)
    requires s.Shaped() && id < s.N() && Revived(s, id).Ok?
    ensures Revived(s, id).value.config.id == id
  {
    hide Replayed, Rebuilt, Synced, Attached, ReplicaState.TakeSnapshot, SimState.Down;
    var r := Recover(s.replicas[id].config, s.keystores[id], s.replicas[id].store).value;
    RebuiltConfig(s.replicas[id].config, s.keystores[id], s.replicas[id].store, Replayed(s.replicas[id].store).value);
    AttachedConfig(r);
    SyncedConfig(s, id, Attached(r));
    SnapshotConfig(Synced(s, id, Attached(r)));
  }

  lemma RebuiltConfig(config: Config, keys: KeyStore, store: Store, r: Recovered)
    ensures Rebuilt(config, keys, store, r).config == config
  {
  }

  lemma AttachedConfig(r: ReplicaState)
    ensures Attached(r).config == r.config
  {
  }

  lemma SyncedConfig(s: SimState, id: nat, r: ReplicaState)
    requires id < s.N()
    ensures Synced(s, id, r).config == r.config
  {
    hide Ascending, ReplicaState.Newer, HashPrefix;
  }

  lemma SnapshotConfig(r: ReplicaState)
    ensures r.TakeSnapshot().config == r.config
  {
    hide ReplicaState.SnapshotWrites;
  }

  /** s with replica id up again in state q. */
  function Reinstated(s: SimState, id: nat, q: ReplicaState): (t: SimState)
    requires s.Shaped() && id < s.N() && q.config.id == id
    ensures t.Shaped() && t.N() == s.N()
  {
    s.(replicas := s.replicas[id := q], crashed := s.crashed - {id}, unresponsive := s.unresponsive - {id},
       lastResponse := s.lastResponse[id := s.time])
  }

  function Rejoin(s: SimState, id: nat): (t: SimState)
    requires s.Shaped()
    ensures t.Shaped() && t.N() == s.N()
  {
    if !CanRejoin(s, id) then s
    else if Revived(s, id).Err? then s
    else
      RevivedKeepsId(s, id);
      Reinstated(s, id, Revived(s, id).value)
  }

  // ----- Runs -----

  datatype Action =
    | RunRound(kind: RoundKind, now: nat)
    | SetUnresponsive(id: nat, unresponsive: bool)
    | Crash(id: nat)
    | RejoinReplica(id: nat)
    | EnqueueCommand(command: Command)
    | SetDummies(enabled: bool, timeoutMs: nat)

  function MarkUnresponsive(s: SimState, id: nat, unresponsive: bool): SimState
    requires s.Shaped()
  {
    if id >= s.N() || id in s.crashed then s
    else if unresponsive then s.(unresponsive := s.unresponsive + {id})
    else s.(unresponsive := s.unresponsive - {id}, lastResponse := s.lastResponse[id := s.time])
  }

  /** A client command goes to the current leader's queue. */
  function EnqueueOnLeader(s: SimState, command: Command): SimState {
    if s.N() == 0 then s
    else
      var l := CurrentLeader(s);
      var r := s.replicas[l];
      s.(replicas := s.replicas[l := r.(clientQueue := r.clientQueue + [command])])
  }

  function Dummies(r: ReplicaState, enabled: bool, timeoutMs: nat): ReplicaState {
    if enabled then r.(dummyEnabled := true, dummyTimeoutMs := timeoutMs) else r.(dummyEnabled := false)
  }

  function SetAllDummies(s: SimState, enabled: bool, timeoutMs: nat): SimState {
    s.(replicas := seq(s.N(), i requires 0 <= i < s.N() => Dummies(s.replicas[i], enabled, timeoutMs)))
  }

  ghost function Step(s: SimState, a: Action): (t: SimState)
    requires s.Shaped()
  {
    match a
    case RunRound(kind, now) => Round(s, kind, now)
    case SetUnresponsive(id, unresponsive) => MarkUnresponsive(s, id, unresponsive)
    case Crash(id) => CrashReplica(s, id)
    case RejoinReplica(id) => Rejoin(s, id)
    case EnqueueCommand(command) => EnqueueOnLeader(s, command)
    case SetDummies(enabled, timeoutMs) => SetAllDummies(s, enabled, timeoutMs)
  }

  lemma StepShaped(s: SimState, a: Action)
    requires s.Shaped()
    ensures Step(s, a).Shaped() && Step(s, a).N() == s.N()
  {
    hide RoundBody, ProcessTimeouts, Rejoin, CrashReplica, CurrentLeader;
    if a.RunRound? && !Refused(Started(s)) {
      RefusedEmpty(Started(s));
      RoundBodyShaped(Started(s), a.kind, a.now);
    }
  }

  ghost function Drive(s: SimState, actions: seq<Action>): (t: SimState)
    requires s.Shaped()
    ensures t.Shaped() && t.N() == s.N()
    decreases |actions|
  {
    if actions == [] then s
    else
      var before := Drive(s, actions[..|actions| - 1]);
      StepShaped(before, actions[|actions| - 1]);
      Step(before, actions[|actions| - 1])
  }

  // ----- Start -----

  /** Every store holds the same public keys, one for each replica id, and a different private one; which
      replica got which is left open. */
  ghost predicate KeysDistributed(keystores: seq<KeyStore>) {
    && (forall i, j :: 0 <= i < |keystores| && 0 <= j < |keystores| ==>
          keystores[i].publicKeys == keystores[j].publicKeys)
    && (forall i :: 0 <= i < |keystores| ==>
          && keystores[i].publicKeys.Keys == Ids(|keystores|)
          && keystores[i].myId in keystores[i].publicKeys
          && keystores[i].publicKeys[keystores[i].myId] == keystores[i].myKey)
    && forall i, j :: 0 <= i < j < |keystores| ==> keystores[i].myId != keystores[j].myId
  }

  /** With persistence each replica is recovered from its empty directory and has the genesis block logged. */
  function NewReplica(config: Config, keys: KeyStore, persistence: bool): ReplicaState {
    if persistence then FreshDurable(config, keys) else Blank(config, keys, Store(map[], None, false))
  }

  function NewSim(f: nat, maxSteps: nat, persistence: bool, keystores: seq<KeyStore>): (s: SimState)
    ensures s.Shaped() && s.N() == |keystores|
  {
    var n := |keystores|;
    SimState(
      seq(n, i requires 0 <= i < n => NewReplica(Config(n, f, i, 5000), keystores[i], persistence)),
      [], Counters(0, 0, 0, 0, 0), 1, 0, maxSteps, persistence, keystores, {}, {},
      seq(n, _ => 0), 0, 1000)
  }

  // ----- Start on directories an earlier system left -----

  /** What is wrong with the first directory from k on that cannot be recovered, if there is one. */
  function FailedStart(f: nat, keystores: seq<KeyStore>, stores: seq<Store>, k: nat): (e: Option<RecoveryError>)
    requires |stores| == |keystores|
    ensures e.None? <==> forall i :: k <= i < |stores| ==>
              Recover(Config(|stores|, f, i, 5000), keystores[i], stores[i]).Ok?
    decreases |stores| - k
  {
    if k >= |stores| then None
    else
      match Recover(Config(|stores|, f, k, 5000), keystores[k], stores[k])
      case Err(e) => Some(e)
      case Ok(_) => FailedStart(f, keystores, stores, k + 1)
  }

  /** With persistence the replicas are recovered from their directories and the logs attached, whatever they hold;
      the hash counter, the clock and the budget start anew. */
  function ResumeSim(f: nat, maxSteps: nat, keystores: seq<KeyStore>, stores: seq<Store>)
    : (r: Result<SimState, RecoveryError>)
    requires |stores| == |keystores|
  {
    var n := |keystores|;
    var failed := FailedStart(f, keystores, stores, 0);
    if failed.Some? then Err(failed.value)
    else
      Ok(SimState(
        seq(n, i requires 0 <= i < n => Attached(Recover(Config(n, f, i, 5000), keystores[i], stores[i]).value)),
        [], Counters(0, 0, 0, 0, 0), 1, 0, maxSteps, true, keystores, {}, {}, seq(n, _ => 0), 0, 1000))
  }

  /** An empty directory, or one in which an earlier start was stopped: before or after it created the log file, or
      after it logged the genesis block. */
  predicate NearlyEmpty(store: Store) {
    && store.snapshots == map[] && !store.leftover
    && (store.log == None || store.log == Some([]) || store.log == Some([InsertedEntry(GENESIS)]))
  }

  lemma NearlyFresh(config: Config, keys: KeyStore, store: Store)
    requires NearlyEmpty(store)
    ensures Recover(config, keys, store).Ok?
    ensures Attached(Recover(config, keys, store).value) == FreshDurable(config, keys)
  {
    if store.Entries() != [] {
      ReplaySnoc(Base(store), [], InsertedEntry(GENESIS));
      assert [] + [InsertedEntry(GENESIS)] == store.Entries();
    }
  }

  /** Started on such directories it is the new system. */
  lemma ResumeFresh(f: nat, maxSteps: nat, keystores: seq<KeyStore>, stores: seq<Store>)
    requires |stores| == |keystores| && forall i :: 0 <= i < |stores| ==> NearlyEmpty(stores[i])
    ensures ResumeSim(f, maxSteps, keystores, stores) == Ok(NewSim(f, maxSteps, true, keystores))
  {
    var n := |keystores|;
    hide Recover, FreshDurable, Attached, NearlyEmpty;
    forall i | 0 <= i < n
      ensures Recover(Config(n, f, i, 5000), keystores[i], stores[i]).Ok?
      ensures FreshDurable(Config(n, f, i, 5000), keystores[i])
              == Attached(Recover(Config(n, f, i, 5000), keystores[i], stores[i]).value)
    {
      NearlyFresh(Config(n, f, i, 5000), keystores[i], stores[i]);
    }
    assert ResumeSim(f, maxSteps, keystores, stores).value.replicas == NewSim(f, maxSteps, true, keystores).replicas;
  }

  lemma ResumeShaped(f: nat, maxSteps: nat, keystores: seq<KeyStore>, stores: seq<Store>)
    requires |stores| == |keystores| && ResumeSim(f, maxSteps, keystores, stores).Ok?
    ensures ResumeSim(f, maxSteps, keystores, stores).value.Shaped()
    ensures ResumeSim(f, maxSteps, keystores, stores).value.N() == |keystores|
  {
    var s := ResumeSim(f, maxSteps, keystores, stores).value;
    forall i | 0 <= i < s.N() ensures s.replicas[i].config.id == i {
      var config := Config(s.N(), f, i, 5000);
      AttachedConfig(Recover(config, keystores[i], stores[i]).value);
      RebuiltConfig(config, keystores[i], stores[i], Replayed(stores[i]).value);
      hide Rebuilt, Attached;
    }
  }
}
