/** How long a client command takes to commit in fault-free pacemaker rounds: three rounds with dummies, for
    ever without. */
module Latency {
  import opened Types
  import opened Ordered
  import opened Crypto
  import opened CommitRule
  import opened Storage
  import opened ReplicaModel
  import opened SimModel
  import opened Agreement
  import opened FaultFree

  // ----- With dummies -----

  lemma Enqueued(s: SimState, l: nat, command: Command)
    requires s.N() > 0 && l == CurrentLeader(s)
    ensures var q := s.replicas[l];
            EnqueueOnLeader(s, command) == s.(replicas := s.replicas[l := q.(clientQueue := q.clientQueue + [command])])
  {
  }

  lemma QueuedKeeps(r: ReplicaState, queue: seq<Command>)
    ensures CoreOf(r.(clientQueue := queue)) == CoreOf(r) && SameSigner(r.(clientQueue := queue), r)
  {
  }

  lemma SnocStatic(queue: seq<Command>, command: Command)
    requires StaticQueue(queue) && Static(command)
    ensures StaticQueue(queue + [command])
  {
  }

  lemma EnqueueChain(s: SimState, c: Core, r: nat, command: Command)
    requires Chain(s, c, r) && Static(command)
    ensures var t := EnqueueOnLeader(s, command);
            && Chain(t, c, r) && KeepsSigners(s, t) && t.step == s.step && t.maxSteps == s.maxSteps
            && t.N() == s.N()
            && forall i :: 0 <= i < s.N() ==>
                 t.replicas[i].clientQueue ==
                 if i == r % s.N() then s.replicas[i].clientQueue + [command] else s.replicas[i].clientQueue
  {
    hide Healthy, ChainCore, CurrentLeader, EnqueueOnLeader, AllHave, CoreOf, SameSigner, StaticQueue, Static;
    ChainLeader(s, c, r);
    Enqueued(s, r % s.N(), command);
    var t := EnqueueOnLeader(s, command);
    AllQueues(s.replicas, c);
    forall i | 0 <= i < s.N()
      ensures CoreOf(t.replicas[i]) == c && SameSigner(t.replicas[i], s.replicas[i])
      ensures StaticQueue(t.replicas[i].clientQueue) && t.replicas[i].config.id == i
    {
      MemberOf(s, c, i);
      QueuedKeeps(s.replicas[i], t.replicas[i].clientQueue);
      SnocStatic(s.replicas[i].clientQueue, command);
      assert t.replicas[i] == s.replicas[i].(clientQueue := t.replicas[i].clientQueue);
    }
    SignersKept(s.replicas, c, t.replicas, c);
  }

  ghost predicate AllDummiesOn(s: SimState) {
    forall i :: 0 <= i < s.N() ==> DummiesOn(s.replicas[i])
  }

  predicate PacemakerRounds(actions: seq<Action>) {
    forall i :: 0 <= i < |actions| ==> actions[i].RunRound? && actions[i].kind.Pacemaker?
  }

  /** k pacemaker rounds after command was enqueued at the end of round r. */
  ghost predicate LatencyAt(u: SimState, s: SimState, d: Core, r: nat, k: nat, command: Command)
    requires s.N() > 0
  {
    && Chain(u, d, r + k) && u.N() == s.N() && AllDummiesOn(u)
    && u.step == s.step + k && u.maxSteps == s.maxSteps
    && (k == 0 ==> var queue := u.replicas[r % s.N()].clientQueue; queue != [] && queue[|queue| - 1] == command)
    && (k > 0 ==> r + 1 in d.tree && d.tree[r + 1].command == command)
  }

  lemma DummiesStayOn(s: SimState, t: SimState)
    requires AllDummiesOn(s) && KeepsSigners(s, t)
    ensures AllDummiesOn(t) && t.N() == s.N()
  {
    forall i | 0 <= i < t.N() ensures DummiesOn(t.replicas[i]) {
      assert DummiesOn(s.replicas[i]) && SameSigner(t.replicas[i], s.replicas[i]);
    }
  }

  lemma LatencyStep(u: SimState, s: SimState, c: Core, r: nat, k: nat, command: Command, a: Action)
    returns (d: Core)
    requires s.N() > 0 && LatencyAt(u, s, c, r, k, command) && u.step < u.maxSteps
    requires a.RunRound? && a.kind.Pacemaker?
    ensures LatencyAt(Step(u, a), s, d, r, k + 1, command)
  {
    hide Round, Sent, Chain, SimState.Shaped, QueuesAfter, KeepsSigners, AllDummiesOn, Busy, AllHave, Healthy,
      ChainCore;
    ChainParts(u, c, r + k);
    assert Busy(u, a.kind, r + k) by { DummiesBusy(u, a.kind, r + k); }
    var b;
    d, b := FaultFreeRound(u, c, r + k, a.kind, a.now);
    DummiesStayOn(u, Round(u, a.kind, a.now));
  }

  lemma DummiesBusy(s: SimState, kind: RoundKind, r: nat)
    requires s.N() > 0 && AllDummiesOn(s)
    ensures Busy(s, kind, r)
  {
  }

  lemma {:induction false} LatencyRun(s: SimState, c: Core, r: nat, command: Command, actions: seq<Action>)
    returns (d: Core)
    requires s.Shaped() && s.N() > 0 && LatencyAt(s, s, c, r, 0, command)
    requires PacemakerRounds(actions) && s.step + |actions| <= s.maxSteps
    ensures LatencyAt(Drive(s, actions), s, d, r, |actions|, command)
    decreases |actions|
  {
    hide Step, LatencyAt, SimState.Shaped;
    d := c;
    if actions != [] {
      var k := |actions| - 1;
      var m := LatencyRun(s, c, r, command, actions[..k]);
      var u := Drive(s, actions[..k]);
      LatencySteps(u, s, m, r, k, command);
      d := LatencyStep(u, s, m, r, k, command, actions[k]);
    }
  }

  lemma LatencySteps(u: SimState, s: SimState, d: Core, r: nat, k: nat, command: Command)
    requires s.N() > 0 && LatencyAt(u, s, d, r, k, command)
    ensures u.step == s.step + k && u.maxSteps == s.maxSteps
  {
  }

  ghost predicate InLog(log: seq<Block>, hash: Hash) {
    exists j :: 0 <= j < |log| && log[j].hash == hash
  }

  lemma ChainCommits(s: SimState, c: Core, r: nat, i: nat, h: Hash)
    requires Chain(s, c, r) && i < s.N() && h > 0
    ensures InLog(s.replicas[i].committedLog, h) <==> h + 2 <= r
    ensures h + 2 <= r ==>
              |s.replicas[i].committedLog| >= h && s.replicas[i].committedLog[h - 1] == c.tree[h]
  {
    hide Chain, Healthy, AllHave, ChainTree, Heads, LogIsLowerPart, InLog, Range;
    ChainParts(s, c, r);
    MemberOf(s, c, i);
    ChainHeads(c.tree, r, s.N());
    LogOfHeads(c, r + 1);
    RangeLog(c.tree, c.log, if r >= 2 then r - 1 else 1, h);
  }

  lemma LogOfHeads(c: Core, next: Hash)
    requires LogIsLowerPart(c.tree, c.log, Heads(c.tree)) && Healthy(c, next)
    ensures Keyed(c.tree)
    ensures forall k :: 0 <= k < |Ascending(Heads(c.tree))| ==> Ascending(Heads(c.tree))[k] in c.tree
    ensures c.log == BlocksAt(c.tree, Ascending(Heads(c.tree)))
  {
  }

  /** A log that lists blocks 1 to m-1 holds exactly those. */
  lemma RangeLog(t: Tree, log: seq<Block>, m: nat, h: Hash)
    requires Keyed(t) && m >= 1 && h > 0
    requires forall k :: 0 <= k < |Range(1, m)| ==> Range(1, m)[k] in t
    requires log == BlocksAt(t, Range(1, m))
    ensures InLog(log, h) <==> h < m
    ensures h < m ==> |log| >= h && log[h - 1] == t[h]
  {
    if h < m { assert log[h - 1].hash == h; }
  }

  /** In fault-free pacemaker rounds with dummies enabled and no idle threshold, a command enqueued on the current
      leader, whatever else is queued anywhere, is in the very next block, and that block is committed by every
      replica at the end of the third round and by none before. */
  lemma CommitLatency(s: SimState, c: Core, r: nat, command: Command, rounds: seq<Action>)
    requires Chain(s, c, r) && AllDummiesOn(s) && Static(command)
    requires PacemakerRounds(rounds) && s.step + |rounds| <= s.maxSteps
    ensures EnqueueOnLeader(s, command).Shaped()
    ensures var u := Drive(EnqueueOnLeader(s, command), rounds);
            && u.N() == s.N()
            && forall i :: 0 <= i < s.N() ==>
                 var q := u.replicas[i];
                 && (|rounds| >= 1 ==> r + 1 in q.blockTree && q.blockTree[r + 1].command == command)
                 && (InLog(q.committedLog, r + 1) <==> |rounds| >= 3)
                 && (|rounds| >= 3 ==> |q.committedLog| > r && q.committedLog[r] == q.blockTree[r + 1])
  {
    hide Chain, SimState.Shaped, ChainTree, AllHave, Healthy, ChainCore, EnqueueOnLeader, KeepsSigners, AllDummiesOn;
    var s0 := EnqueueOnLeader(s, command);
    EnqueueChain(s, c, r, command);
    ChainParts(s, c, r);
    ChainParts(s0, c, r);
    DummiesStayOn(s, s0);
    var d := LatencyRun(s0, c, r, command, rounds);
    var u := Drive(s0, rounds);
    hide Drive;
    Latency(u, s0, d, r, |rounds|, command);
  }

  lemma Latency(u: SimState, s: SimState, d: Core, r: nat, k: nat, command: Command)
    requires s.N() > 0 && LatencyAt(u, s, d, r, k, command)
    ensures u.N() == s.N()
    ensures forall i :: 0 <= i < s.N() ==>
              var q := u.replicas[i];
              && (k >= 1 ==> r + 1 in q.blockTree && q.blockTree[r + 1].command == command)
              && (InLog(q.committedLog, r + 1) <==> k >= 3)
              && (k >= 3 ==> |q.committedLog| > r && q.committedLog[r] == q.blockTree[r + 1])
  {
    hide Chain, SimState.Shaped, ChainTree, AllHave, Healthy, ChainCore, InLog;
    ChainParts(u, d, r + k);
    forall i | 0 <= i < s.N()
      ensures u.replicas[i].blockTree == d.tree
      ensures InLog(u.replicas[i].committedLog, r + 1) <==> k >= 3
      ensures k >= 3 ==> |u.replicas[i].committedLog| > r && u.replicas[i].committedLog[r] == d.tree[r + 1]
    {
      MemberOf(u, d, i);
      ChainCommits(u, d, r + k, i, r + 1);
    }
  }

  // ----- Without dummies -----

  /** Nobody has anything to propose, and everybody has this tree and this log. */
  ghost predicate Idle(s: SimState, tree: Tree, log: seq<Block>) {
    && NoFaults(s)
    && forall i :: 0 <= i < s.N() ==> IdleReplica(s.replicas[i], tree, log)
  }

  predicate IdleReplica(r: ReplicaState, tree: Tree, log: seq<Block>) {
    && r.clientQueue == [] && !r.dummyEnabled
    && r.blockTree == tree && r.committedLog == log
  }

  lemma NothingToPropose(r: ReplicaState, view: nat, hash: Hash, now: nat)
    requires r.clientQueue == [] && !r.dummyEnabled
    ensures ProposeKind(r, Pacemaker, view, hash, now).1.None?
  {
    hide ReplicaState.IsLeader;
  }

  lemma IdleSkips(s: SimState, tree: Tree, log: seq<Block>, now: nat)
    requires Idle(s, tree, log)
    ensures RoundBody(s, Pacemaker, now) == Skip(s, Commit, false).(nextGlobalHash := s.nextGlobalHash + 1)
  {
    hide CurrentLeader, Skip, ProposedRound, ProposeKind;
    assert s.Down() == {};
    var l := s.replicas[CurrentLeader(s)];
    assert IdleReplica(l, tree, log);
    NothingToPropose(l, l.currentView, s.nextGlobalHash, now);
  }

  lemma IdleRound(s: SimState, tree: Tree, log: seq<Block>, now: nat)
    requires Idle(s, tree, log)
    ensures Idle(Round(s, Pacemaker, now), tree, log)
  {
    hide RoundBody, Skip, IdleReplica;
    var t := s.(time := s.time + s.roundTime);
    NobodyTimesOut(t);
    assert Started(s) == t;
    if !Refused(t) {
      IdleSkips(t, tree, log, now);
      IdleSkip(t, tree, log);
      NextHashIdle(Skip(t, Commit, false), tree, log, t.nextGlobalHash + 1);
    }
  }

  lemma NextHashIdle(s: SimState, tree: Tree, log: seq<Block>, next: Hash)
    requires Idle(s, tree, log)
    ensures Idle(s.(nextGlobalHash := next), tree, log)
  {
  }

  lemma IdleSkip(s: SimState, tree: Tree, log: seq<Block>)
    requires Idle(s, tree, log)
    ensures Idle(Skip(s, Commit, false), tree, log)
  {
    var t := Skip(s, Commit, false);
    SkipShaped(s, Commit, false);
    forall i | 0 <= i < s.N() ensures IdleReplica(t.replicas[i], tree, log) {
      assert IdleReplica(s.replicas[i], tree, log);
      assert t.replicas[i] == s.replicas[i].AdvanceView(Commit);
    }
  }

  /** The command waits in its leader's queue, all other queues are empty, and dummies are off. */
  ghost predicate Waiting(u: SimState, c: Core, r: nat, command: Command) {
    && Chain(u, c, r)
    && forall i :: 0 <= i < u.N() ==>
         && !u.replicas[i].dummyEnabled
         && u.replicas[i].clientQueue == if i == r % u.N() then [command] else []
  }

  /** The command's block is in every tree and in no log, and nobody has anything left to propose. */
  ghost predicate Stranded(u: SimState, r: nat, command: Command, tree: Tree, log: seq<Block>) {
    && Idle(u, tree, log)
    && r + 1 in tree && tree[r + 1].command == command
    && !InLog(log, r + 1)
  }

  /** The one round that has something to propose. */
  lemma WaitingRound(u: SimState, c: Core, r: nat, command: Command, now: nat) returns (d: Core)
    requires Waiting(u, c, r, command) && u.step < u.maxSteps
    ensures Stranded(Round(u, Pacemaker, now), r, command, d.tree, d.log)
  {
    hide Chain, Round, SimState.Shaped, Sent, ChainTree, AllHave, Healthy, ChainCore, InLog, SameSigner;
    ChainParts(u, c, r);
    var b;
    d, b := FaultFreeRound(u, c, r, Pacemaker, now);
    var v := Round(u, Pacemaker, now);
    ChainParts(v, d, r + 1);
    forall i | 0 <= i < v.N() ensures IdleReplica(v.replicas[i], d.tree, d.log) && !InLog(d.log, r + 1) {
      MemberOf(v, d, i);
      ChainCommits(v, d, r + 1, i, r + 1);
      SignerDummies(v.replicas[i], u.replicas[i]);
    }
    assert !InLog(d.log, r + 1) by { assert 0 < v.N(); }
  }

  lemma SignerDummies(a: ReplicaState, b: ReplicaState)
    requires SameSigner(a, b)
    ensures a.dummyEnabled == b.dummyEnabled
  {
  }

  lemma RefusedRound(u: SimState, c: Core, r: nat, command: Command, kind: RoundKind, now: nat)
    requires Waiting(u, c, r, command) && u.step >= u.maxSteps
    ensures Waiting(Round(u, kind, now), c, r, command)
    ensures Round(u, kind, now).step == u.step && Round(u, kind, now).maxSteps == u.maxSteps
  {
    hide RoundBody, AllHave, Healthy, ChainCore, ProcessTimeouts;
    ChainStarted(u, c, r);
  }

  lemma StrandedRound(u: SimState, r: nat, command: Command, tree: Tree, log: seq<Block>, now: nat)
    requires Stranded(u, r, command, tree, log)
    ensures Stranded(Round(u, Pacemaker, now), r, command, tree, log)
  {
    hide Idle, Round, InLog;
    IdleRound(u, tree, log, now);
  }

  lemma {:induction false} StrandedRun(s: SimState, c: Core, r: nat, command: Command, actions: seq<Action>)
    returns (tree: Tree, log: seq<Block>)
    requires s.Shaped() && Waiting(s, c, r, command) && PacemakerRounds(actions)
    ensures var u := Drive(s, actions);
            if actions == [] || s.step >= s.maxSteps
            then Waiting(u, c, r, command) && u.maxSteps == s.maxSteps && u.step == s.step
            else Stranded(u, r, command, tree, log)
    decreases |actions|
  {
    hide Waiting, Stranded, Round, SimState.Shaped;
    tree, log := map[], [];
    if actions != [] {
      var k := |actions| - 1;
      tree, log := StrandedRun(s, c, r, command, actions[..k]);
      var u := Drive(s, actions[..k]);
      var now := actions[k].now;
      if s.step >= s.maxSteps {
        RefusedRound(u, c, r, command, Pacemaker, now);
      } else if k == 0 {
        var d := WaitingRound(u, c, r, command, now);
        tree, log := d.tree, d.log;
      } else {
        StrandedRound(u, r, command, tree, log, now);
      }
    }
  }

  /** With dummies off and all other queues empty, the command's block is proposed in the next round there is
      budget for, and never committed by anybody, however many pacemaker rounds follow. */
  lemma NeverWithoutDummies(s: SimState, c: Core, r: nat, command: Command, rounds: seq<Action>)
    requires Chain(s, c, r) && Quiet(s) && Static(command) && PacemakerRounds(rounds)
    ensures EnqueueOnLeader(s, command).Shaped()
    ensures var u := Drive(EnqueueOnLeader(s, command), rounds);
            && u.N() == s.N()
            && forall i :: 0 <= i < s.N() ==>
                 var q := u.replicas[i];
                 && !InLog(q.committedLog, r + 1)
                 && (rounds != [] && s.step < s.maxSteps ==>
                       r + 1 in q.blockTree && q.blockTree[r + 1].command == command)
  {
    hide Chain, SimState.Shaped, AllHave, Healthy, ChainCore, EnqueueOnLeader, ChainTree, InLog, Waiting, Stranded,
      KeepsSigners, Quiet;
    var s0 := EnqueueOnLeader(s, command);
    EnqueueChain(s, c, r, command);
    ChainParts(s, c, r);
    ChainParts(s0, c, r);
    assert Waiting(s0, c, r, command) by { NowWaiting(s, s0, c, r, command); }
    var tree, log := StrandedRun(s0, c, r, command, rounds);
    var u := Drive(s0, rounds);
    hide Drive;
    if rounds == [] || s.step >= s.maxSteps {
      StillWaiting(u, c, r, command);
    } else {
      StrandedMeans(u, r, command, tree, log);
    }
  }

  lemma StillWaiting(u: SimState, c: Core, r: nat, command: Command)
    requires Waiting(u, c, r, command)
    ensures forall i :: 0 <= i < u.N() ==> !InLog(u.replicas[i].committedLog, r + 1)
  {
    hide Chain, InLog;
    forall i | 0 <= i < u.N() ensures !InLog(u.replicas[i].committedLog, r + 1) {
      ChainCommits(u, c, r, i, r + 1);
    }
  }

  lemma StrandedMeans(u: SimState, r: nat, command: Command, tree: Tree, log: seq<Block>)
    requires Stranded(u, r, command, tree, log)
    ensures forall i :: 0 <= i < u.N() ==>
              var q := u.replicas[i];
              !InLog(q.committedLog, r + 1) && r + 1 in q.blockTree && q.blockTree[r + 1].command == command
  {
    hide InLog, NoFaults;
    forall i | 0 <= i < u.N() ensures u.replicas[i].blockTree == tree && u.replicas[i].committedLog == log {
      assert IdleReplica(u.replicas[i], tree, log);
    }
  }

  lemma NowWaiting(s: SimState, t: SimState, c: Core, r: nat, command: Command)
    requires Quiet(s) && Chain(t, c, r) && KeepsSigners(s, t) && s.N() > 0
    requires forall i :: 0 <= i < s.N() ==>
               t.replicas[i].clientQueue ==
               if i == r % s.N() then s.replicas[i].clientQueue + [command] else s.replicas[i].clientQueue
    ensures Waiting(t, c, r, command)
  {
    hide Chain;
    forall i | 0 <= i < t.N()
      ensures !t.replicas[i].dummyEnabled && t.replicas[i].clientQueue == if i == r % t.N() then [command] else []
    {
      assert SameSigner(t.replicas[i], s.replicas[i]);
      assert [] + [command] == [command];
    }
  }

  // ----- From a fresh start -----

  lemma DummiesChain(s: SimState, c: Core, r: nat, enabled: bool)
    requires Chain(s, c, r) && Quiet(s)
    ensures var t := SetAllDummies(s, enabled, 0);
            && Chain(t, c, r) && t.step == s.step && t.maxSteps == s.maxSteps && t.N() == s.N()
            && (enabled ==> AllDummiesOn(t)) && (!enabled ==> Quiet(t))
  {
    hide Healthy, ChainCore, CoreOf, StaticQueue;
    var t := SetAllDummies(s, enabled, 0);
    forall i | 0 <= i < s.N()
      ensures CoreOf(t.replicas[i]) == c && StaticQueue(t.replicas[i].clientQueue)
      ensures t.replicas[i].keystore == s.replicas[i].keystore && t.replicas[i].config == s.replicas[i].config
      ensures t.replicas[i].activeValidators == s.replicas[i].activeValidators
    {
      MemberOf(s, c, i);
      DummiesCore(s.replicas[i], enabled);
    }
    assert KeysInPlace(t.replicas) by {
      forall i | 0 <= i < s.N() ensures SignerOk(t.replicas[i], s.N()) { assert SignerOk(s.replicas[i], s.N()); }
    }
  }

  lemma DummiesCore(r: ReplicaState, enabled: bool)
    ensures CoreOf(Dummies(r, enabled, 0)) == CoreOf(r)
  {
  }

  /** From a fresh start, after any number r of fault-free plain rounds: switch dummies on (without an idle
      threshold) or off, enqueue a command on the current leader and run pacemaker rounds. The command's block
      is r+1. Every replica has it committed if and only if dummies are on and three rounds have passed. */
  lemma OnceWarm(s: SimState, c: Core, r: nat, enabled: bool, command: Command, rounds: seq<Action>)
    requires Chain(s, c, r) && Quiet(s) && Static(command)
    requires PacemakerRounds(rounds) && s.step + |rounds| <= s.maxSteps
    ensures var t := EnqueueOnLeader(SetAllDummies(s, enabled, 0), command);
            && t.Shaped()
            && var u := Drive(t, rounds);
               && u.N() == s.N()
               && forall i :: 0 <= i < s.N() ==>
                    var q := u.replicas[i];
                    && (rounds != [] ==> r + 1 in q.blockTree && q.blockTree[r + 1].command == command)
                    && (InLog(q.committedLog, r + 1) <==> enabled && |rounds| >= 3)
  {
    hide Chain, SimState.Shaped, EnqueueOnLeader, SetAllDummies, InLog, Quiet, AllDummiesOn, Drive;
    DummiesChain(s, c, r, enabled);
    if enabled {
      CommitLatency(SetAllDummies(s, true, 0), c, r, command, rounds);
    } else {
      NeverWithoutDummies(SetAllDummies(s, false, 0), c, r, command, rounds);
    }
  }

  lemma ThreeRoundsOrNever(f: nat, maxSteps: nat, persistence: bool, keystores: seq<KeyStore>,
                           warmup: seq<Action>, enabled: bool, command: Command, rounds: seq<Action>)
    requires KeysDistributed(keystores) && |keystores| >= 2
    requires PlainRounds(warmup) && PacemakerRounds(rounds) && |warmup| + |rounds| <= maxSteps
    requires Static(command)
    ensures var s := Drive(NewSim(f, maxSteps, persistence, keystores), warmup);
            var t := EnqueueOnLeader(SetAllDummies(s, enabled, 0), command);
            && t.Shaped()
            && var u := Drive(t, rounds);
               && u.N() == |keystores|
               && forall i :: 0 <= i < |keystores| ==>
                    var q, h := u.replicas[i], |warmup| + 1;
                    && (rounds != [] ==> h in q.blockTree && q.blockTree[h].command == command)
                    && (InLog(q.committedLog, h) <==> enabled && |rounds| >= 3)
  {
    hide Chain, SimState.Shaped, Healthy, ChainCore, EnqueueOnLeader, SetAllDummies, InLog, NewSim, Quiet, Drive;
    var start := NewSim(f, maxSteps, persistence, keystores);
    StartChain(f, maxSteps, persistence, keystores);
    var d := PlainRun(start, |keystores|, StartCore(|keystores|, keystores[0].publicKeys), warmup);
    var s := Drive(start, warmup);
    OnceWarm(s, d, |warmup|, enabled, command, rounds);
  }
}
