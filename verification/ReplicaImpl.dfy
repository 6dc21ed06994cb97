/** One replica as the program keeps it: an object whose methods update its fields. Every method is proved to do
    exactly what the operation of the same name does to the state value. */
module ReplicaImpl {
  import opened Types
  import opened Ordered
  import opened Crypto
  import opened CommitRule
  import opened Storage
  import opened ReplicaModel
  import opened Durability
  import Quorum

  class Replica {
    var config: Config
    var currentView: nat
    var blockTree: Tree
    var highQc: Option<QuorumCert>
    var votePool: map<Hash, seq<Signature>>
    var nextHash: Hash
    var committedLog: seq<Block>
    var committedUpTo: Option<Hash>
    var activeValidators: set<ReplicaId>
    var configEpoch: nat
    var keystore: KeyStore
    var walAttached: bool
    var store: Store
    var snapshotCounter: nat
    var clientQueue: seq<Command>
    var dummyEnabled: bool
    var dummyTimeoutMs: nat
    var lastProposedTime: nat

    function State(): ReplicaState
      reads this
    {
      ReplicaState(config, currentView, blockTree, highQc, votePool, nextHash, committedLog, committedUpTo,
                   activeValidators, configEpoch, keystore, walAttached, store, snapshotCounter, clientQueue,
                   dummyEnabled, dummyTimeoutMs, lastProposedTime)
    }

    /** Blocks are filed under their own hash. */
    ghost predicate Valid()
      reads this
    {
      Keyed(blockTree)
    }

    constructor (s: ReplicaState)
      ensures State() == s
    {
      config, currentView, blockTree, highQc, votePool := s.config, s.currentView, s.blockTree, s.highQc, s.votePool;
      nextHash, committedLog, committedUpTo := s.nextHash, s.committedLog, s.committedUpTo;
      activeValidators, configEpoch, keystore := s.activeValidators, s.configEpoch, s.keystore;
      walAttached, store, snapshotCounter := s.walAttached, s.store, s.snapshotCounter;
      clientQueue, dummyEnabled := s.clientQueue, s.dummyEnabled;
      dummyTimeoutMs, lastProposedTime := s.dummyTimeoutMs, s.lastProposedTime;
    }

    /** written is the data directory after the write, if there is one. */
    method Log(e: LogEntry) returns (ghost written: seq<Store>)
      modifies this`store
      ensures State() == old(State()).Logged(e)
      ensures written == if walAttached then [store] else []
    {
      written := [];
      if walAttached {
        store := store.Append(e);
        written := [store];
      }
    }

    // ----- Votes and certificates -----

    /** writes lists the data directory before and after every durable write: the certificate is logged before the
        pointer to it. */
    method TryFormQc(hash: Hash, view: nat, epoch: nat) returns (qc: Option<QuorumCert>, ghost writes: seq<Store>)
      modifies this
      ensures (State(), qc) == old(State()).TryFormQc(hash, view, epoch)
      ensures writes == LogWrites(old(State()), old(State()).QcEntries(hash, view, epoch))
    {
      var sigs := if hash in votePool then votePool[hash] else [];
      qc, writes := None, [store];
      if |sigs| >= Quorum.Size(|activeValidators|) {
        qc := Some(QuorumCert(hash, view, epoch, sigs));
        highQc := qc;
        ghost var first := Log(QCFormed(hash, view, epoch, |sigs|));
        ghost var second := Log(HighQCUpdated(hash, view, epoch));
        writes := writes + first + second;
        TwoWrites(old(State()), QCFormed(hash, view, epoch, |sigs|), HighQCUpdated(hash, view, epoch));
      }
    }

    method HandleVote(vote: Vote) returns (qc: Option<QuorumCert>, ghost writes: seq<Store>)
      requires Valid()
      modifies this
      ensures (State(), qc) == old(State()).HandleVote(vote)
      ensures writes == LogWrites(old(State()), VoteEntries(old(State()), vote))
      ensures Valid()
    {
      hide ReplicaState.QcEntries;
      var sig := vote.signature;
      if vote.epoch != configEpoch || sig.signer !in activeValidators {
        return None, [store];
      }
      if !keystore.Verify(sig, vote.blockHash, vote.view, vote.epoch) || sig.signer >= config.n {
        return None, [store];
      }
      if vote.blockHash !in blockTree || blockTree[vote.blockHash].epoch != vote.epoch {
        return None, [store];
      }
      var entry := if vote.blockHash in votePool then votePool[vote.blockHash] else [];
      for i := 0 to |entry|
        invariant forall j :: 0 <= j < i ==> entry[j].signer != sig.signer
      {
        if entry[i].signer == sig.signer {
          assert entry[i] in State().Pool(vote.blockHash);
          return None, [store];
        }
      }
      assert State().Accepts(vote);
      votePool := votePool[vote.blockHash := entry + [sig]];
      assert State() == old(State()).Pooled(vote);
      qc, writes := TryFormQc(vote.blockHash, vote.view, vote.epoch);
    }

    method ApplyHighQcFromNetwork(qc: QuorumCert) returns (updated: bool)
      requires Valid()
      modifies this
      ensures State() == old(State()).ApplyHighQc(qc) && updated == old(State()).Newer(qc)
      ensures Valid()
    {
      updated := match highQc
        case None => true
        case Some(h) => qc.epoch > h.epoch || (qc.epoch == h.epoch && qc.view > h.view);
      if updated {
        highQc := Some(qc);
        ghost var written := Log(HighQCUpdated(qc.blockHash, qc.view, qc.epoch));
      }
    }

    // ----- Proposals -----

    method BuildBlock(view: nat, hash: Hash, command: Command) returns (b: Block)
      ensures b == State().NewBlock(view, hash, command)
    {
      var parent: Option<Hash>;
      if highQc.Some? {
        parent := Some(highQc.value.blockHash);
      } else {
        parent := LatestBlockHash(blockTree);
      }
      b := Block(hash, parent, view, configEpoch, config.id, highQc, command);
    }

    method ProposeWithHash(view: nat, hash: Hash, now: nat) returns (b: Option<Block>)
      requires Valid()
      modifies this
      ensures (State(), b) == old(State()).ProposeWithHash(view, hash, now) && Valid()
    {
      if !State().IsLeader(view) {
        return None;
      }
      var block := BuildBlock(view, hash, NoOp);
      blockTree := blockTree[hash := block];
      lastProposedTime := now;
      b := Some(block);
    }

    method ShouldProposeDummy(now: nat) returns (dummy: bool)
      requires Valid()
      ensures dummy == State().ShouldProposeDummy(now)
    {
      if !dummyEnabled || !State().IsLeader(currentView) || clientQueue != [] {
        return false;
      }
      var elapsed := if now >= lastProposedTime then now - lastProposedTime else 0;
      if elapsed < dummyTimeoutMs {
        return false;
      }
      var ready := FindCommittedBlock();
      dummy := ready.None?;
    }

    /** The newest client command first; without one, a dummy when the pacemaker wants one. */
    method ProposeNextWithHash(view: nat, hash: Hash, now: nat) returns (b: Option<Block>)
      requires Valid()
      modifies this
      ensures (State(), b) == old(State()).ProposeNextWithHash(view, hash, now) && Valid()
    {
      if !State().IsLeader(view) {
        return None;
      }
      if clientQueue != [] {
        var command := clientQueue[|clientQueue| - 1];
        clientQueue := clientQueue[..|clientQueue| - 1];
        var block := BuildBlock(view, hash, command);
        blockTree := blockTree[hash := block];
        lastProposedTime := now;
        return Some(block);
      }
      var dummy := ShouldProposeDummy(now);
      if dummy {
        b := ProposeWithHash(view, hash, now);
      } else {
        b := None;
      }
    }

    method ValidateAndInsertProposal(b: Block) returns (valid: bool)
      requires Valid()
      modifies this
      ensures State() == old(State()).InsertProposal(b) && valid == old(State()).ValidProposal(b) && Valid()
    {
      if b.proposer != State().LeaderFor(b.view) || b.epoch != configEpoch {
        return false;
      }
      if b.parent.Some? && b.parent.value !in blockTree {
        return false;
      }
      if b.qc.Some? {
        var qc := b.qc.value;
        if qc.epoch != configEpoch {
          return false;
        }
        var certified := VerifyQc(keystore, qc, Quorum.Size(|activeValidators|));
        if !certified || qc.blockHash !in blockTree {
          return false;
        }
      }
      ghost var written := Log(InsertedEntry(b));
      blockTree := blockTree[b.hash := b];
      valid := true;
    }

    // ----- Commit -----

    /** The least three-chain head that is not committed yet. */
    method FindCommittedBlock() returns (found: Option<Block>)
      requires Valid()
      ensures found.None? <==> Pending(blockTree, committedLog) == {}
      ensures found.Some? ==> found.value == blockTree[Least(Pending(blockTree, committedLog))]
    {
      found := FindHead(blockTree, committedLog);
    }

    method ApplyMembershipCommand(command: Command)
      modifies this
      ensures State() == old(State()).ApplyMembership(command)
    {
      hide ReplicaState.Joined, ReplicaState.Removed;
      match command
      case JoinValidator(id, bytes) => Join(id, bytes);
      case RemoveValidator(id) => Remove(id);
      case _ =>
    }

    method Join(id: ReplicaId, bytes: KeyBytes)
      modifies this
      ensures State() == old(State()).Joined(id, bytes)
    {
      hide KeyStore.AddPublicKey, ReplicaState.Rewired, Quorum.CanApplyCount;
      if id in activeValidators || !Quorum.CanApplyCount(|activeValidators| + 1) {
        return;
      }
      var added := keystore.AddPublicKey(id, bytes);
      if !added.1 {
        return;
      }
      assert State().Joined(id, bytes) == State().Rewired(activeValidators + {id}, added.0);
      Rewire(activeValidators + {id}, added.0);
    }

    /** The next epoch, with these validators and keys; votes of the last one are dropped. */
    method Rewire(validators: set<ReplicaId>, keys: KeyStore)
      modifies this
      ensures State() == old(State()).Rewired(validators, keys)
    {
      hide Quorum.F;
      config := config.(n := |validators|, f := Quorum.F(|validators|));
      activeValidators, keystore, configEpoch, votePool := validators, keys, configEpoch + 1, map[];
    }

    method Remove(id: ReplicaId)
      modifies this
      ensures State() == old(State()).Removed(id)
    {
      hide KeyStore.RemovePublicKey, ReplicaState.Rewired, Quorum.CanApplyCount;
      if id !in activeValidators || !Quorum.CanApplyCount(|activeValidators| - 1) {
        return;
      }
      Rewire(activeValidators - {id}, keystore.RemovePublicKey(id));
    }

    /** writes lists the data directory before and after the one durable write, which comes first. */
    method ExecuteAndCommit(b: Block) returns (ghost writes: seq<Store>)
      modifies this
      ensures State() == old(State()).ExecuteAndCommit(b)
      ensures writes == LogWrites(old(State()), [CommittedEntry(b, |old(committedLog)|)])
    {
      writes := [store];
      ghost var written := Log(CommittedEntry(b, |committedLog|));
      writes := writes + written;
      OneWrite(old(State()), CommittedEntry(b, |committedLog|));
      committedLog := committedLog + [b];
      committedUpTo := Some(b.hash);
      ApplyMembershipCommand(b.command);
    }

    method TryCommitOnce() returns (committed: bool, ghost writes: seq<Store>)
      requires Valid()
      modifies this
      ensures committed <==> old(Pending(blockTree, committedLog)) != {}
      ensures committed ==> var b := old(blockTree[Least(Pending(blockTree, committedLog))]);
                            && State() == old(State()).ExecuteAndCommit(b)
                            && writes == LogWrites(old(State()), [CommittedEntry(b, |old(committedLog)|)])
      ensures !committed ==> State() == old(State()) && writes == [store]
    {
      var block := FindCommittedBlock();
      committed, writes := block.Some?, [store];
      if committed {
        writes := ExecuteAndCommit(block.value);
      }
    }

    /** Commits and rescans until nothing is pending; every pass commits one more head of the tree. writes lists the
        data directory before and after every durable write. */
    method CommitAll() returns (ghost writes: seq<Store>)
      requires Valid()
      modifies this
      ensures State() == old(State()).CommitAll() && Valid()
      ensures Pending(blockTree, committedLog) == {}
      ensures writes == LogWrites(old(State()), CommitEntries(old(Commits(blockTree, committedLog)),
                                                              |old(committedLog)|))
    {
      hide PassWritten, LogWrites, Commits, Pending, ReplicaState.ExecuteAndCommit, ReplicaState.CommitAll,
        CommitEntries;
      var more := true;
      ghost var done: seq<Block> := [];
      writes := [store];
      PassStarts(State());
      while more
        invariant blockTree == old(blockTree)
        invariant State().CommitAll() == old(State()).CommitAll()
        invariant PassWritten(old(State()), done, State(), writes)
        invariant !more ==> Pending(blockTree, committedLog) == {}
        decreases |Pending(blockTree, committedLog)|, more
      {
        ghost var before, written := State(), writes;
        if Pending(blockTree, committedLog) != {} {
          CommitOneThenAll(State());
          LeastPending(blockTree, committedLog);
        }
        more, written := TryCommitOnce();
        if more {
          ghost var b := blockTree[Least(Pending(blockTree, before.committedLog))];
          OneMoreWritten(old(State()), done, before, writes, b);
          done, writes := done + [b], writes + written[1..];
        }
      }
      PassEnds(old(State()), done, State(), writes);
      NothingLeft(State());
    }

    // ----- Views and snapshots -----

    method AdvanceView(reason: Reason)
      requires Valid()
      modifies this
      ensures State() == old(State()).AdvanceView(reason)
      ensures Valid()
    {
      var before := currentView;
      currentView := currentView + 1;
      ghost var written := Log(ViewChanged(before, currentView, reason));
      votePool := map[];
    }

    /** Fails when the log cannot be truncated. writes lists the data directory before and after every durable
        write. */
    method TakeSnapshot() returns (ok: bool, ghost writes: seq<Store>)
      requires Valid()
      modifies this
      ensures State() == old(State()).TakeSnapshot() && ok == !old(State()).Blocked()
      ensures writes == old(State()).SnapshotWrites()
      ensures Valid()
    {
      hide ReplicaState.Capture, Store.Cleanup, Store.Latest, Store.Entries;
      writes := [store];
      store := store.Save(State().Capture());
      writes := writes + [store];
      if walAttached {
        store := store.Append(SnapshotTaken(snapshotCounter, committedUpTo));
        writes := writes + [store];
        if store.leftover {
          return false, writes;
        }
        store := store.(leftover := true);
        writes := writes + [store];
        store := store.Truncate();
        writes := writes + [store];
      }
      snapshotCounter := snapshotCounter + 1;
      store := CleanupOld(store, 3);
      writes := writes + [store];
      ok := true;
    }

    /** Future changes are logged; a log that is still empty starts with the genesis block. */
    method AttachWal()
      requires Valid()
      modifies this
      ensures State() == Attached(old(State())) && Valid()
    {
      walAttached := true;
      if store.Entries() == [] && blockTree.Keys == {0} {
        ghost var written := Log(InsertedEntry(blockTree[0]));
      }
    }

    method Enqueue(command: Command)
      modifies this
      ensures State() == old(State()).(clientQueue := old(clientQueue) + [command])
    {
      clientQueue := clientQueue + [command];
    }
  }

  // ----- Durable writes -----

  lemma OneWrite(s: ReplicaState, e: LogEntry)
    ensures LogWrites(s, [e]) == [s.store] + if s.walAttached then [s.Logged(e).store] else []
  {
    LogWritesSnoc(s, [], e);
    assert [] + [e] == [e];
  }

  lemma TwoWrites(s: ReplicaState, e1: LogEntry, e2: LogEntry)
    ensures LogWrites(s, [e1, e2]) ==
            [s.store] + if s.walAttached then [s.Logged(e1).store, s.Logged(e1).Logged(e2).store] else []
  {
    OneWrite(s, e1);
    LogWritesSnoc(s, [e1], e2);
    assert [e1] + [e2] == [e1, e2];
    ExtendedTwice(s.store, [e1], [e2]);
  }

  /** The entries handling a vote appends. */
  function VoteEntries(s: ReplicaState, vote: Vote): seq<LogEntry> {
    if s.Accepts(vote) then s.Pooled(vote).QcEntries(vote.blockHash, vote.view, vote.epoch) else []
  }

  /** A commit pass that started in s has committed these blocks and is now in t. */
  ghost predicate PassWritten(s: ReplicaState, done: seq<Block>, t: ReplicaState, writes: seq<Store>) {
    && t.walAttached == s.walAttached
    && t.committedLog == s.committedLog + done
    && Commits(s.blockTree, s.committedLog) == done + Commits(t.blockTree, t.committedLog)
    && writes == LogWrites(s, CommitEntries(done, |s.committedLog|))
    && t.store == writes[|writes| - 1]
  }

  /** One more append by a replica whose directory is the last of the list. */
  lemma WritesJoin(s: ReplicaState, es: seq<LogEntry>, t: ReplicaState, e: LogEntry)
    requires t.walAttached == s.walAttached && t.store == LogWrites(s, es)[|LogWrites(s, es)| - 1]
    ensures var all := LogWrites(s, es + [e]);
            all == LogWrites(s, es) + LogWrites(t, [e])[1..] && all[|all| - 1] == t.Logged(e).store
  {
    LogWritesSnoc(s, es, e);
    OneWrite(t, e);
    assert es[..|es|] == es;
    if s.walAttached {
      ExtendedTwice(s.store, es, [e]);
      assert t.Logged(e).store == Extended(t.store, [e]);
    }
  }

  lemma OneMoreWritten(s: ReplicaState, done: seq<Block>, t: ReplicaState, writes: seq<Store>, b: Block)
    requires PassWritten(s, done, t, writes) && Keyed(t.blockTree) && Pending(t.blockTree, t.committedLog) != {}
    requires b == t.blockTree[Least(Pending(t.blockTree, t.committedLog))]
    ensures PassWritten(s, done + [b], t.ExecuteAndCommit(b),
                        writes + LogWrites(t, [CommittedEntry(b, |t.committedLog|)])[1..])
  {
    hide ReplicaState.ExecuteAndCommit, LogWrites, Pending, Commits, Keyed, ReplicaState.Logged;
    var es, e := CommitEntries(done, |s.committedLog|), CommittedEntry(b, |t.committedLog|);
    CommitsStep(t.blockTree, t.committedLog);
    Durability.CommitAppends(t, b);
    CommitLeaves(t, b);
    WritesJoin(s, es, t, e);
    assert CommitEntries(done + [b], |s.committedLog|) == es + [e];
    assert s.committedLog + done + [b] == s.committedLog + (done + [b]);
  }

  lemma PassStarts(s: ReplicaState)
    ensures PassWritten(s, [], s, [s.store])
  {
    hide Pending, Commits;
  }

  lemma PassEnds(s: ReplicaState, done: seq<Block>, t: ReplicaState, writes: seq<Store>)
    requires PassWritten(s, done, t, writes) && Pending(t.blockTree, t.committedLog) == {}
    ensures writes == LogWrites(s, CommitEntries(Commits(s.blockTree, s.committedLog), |s.committedLog|))
  {
    hide Commits, Pending, LogWrites, CommitEntries;
    NothingPending(t.blockTree, t.committedLog);
    assert Commits(s.blockTree, s.committedLog) == done;
  }

  lemma NothingPending(t: Tree, log: seq<Block>)
    requires Pending(t, log) == {}
    ensures Commits(t, log) == []
  {
  }

  lemma NothingLeft(s: ReplicaState)
    requires Pending(s.blockTree, s.committedLog) == {}
    ensures s.CommitAll() == s
  {
  }

  // ----- Searches over the block tree -----

  /** The block with the highest view; among equals the last one in hash order. */
  method LatestBlockHash(t: Tree) returns (hash: Option<Hash>)
    ensures hash == LatestHash(t)
  {
    hide LatestAmong;
    var keys := SortedKeys(t);
    hash := None;
    for i := 0 to |keys|
      invariant i == 0 ==> hash == None
      invariant i > 0 ==> hash == Some(LatestAmong(t, keys[..i]))
    {
      if hash.None? || t[keys[i]].view >= t[hash.value].view {
        hash := Some(keys[i]);
      }
      LatestStep(t, keys, i);
    }
    assert keys[..|keys|] == keys;
  }

  lemma LatestStep(t: Tree, keys: seq<Hash>, i: nat)
    requires i < |keys| && forall j :: 0 <= j < |keys| ==> keys[j] in t
    ensures i == 0 ==> LatestAmong(t, keys[..1]) == keys[0]
    ensures i > 0 ==> var h := LatestAmong(t, keys[..i]);
                      LatestAmong(t, keys[..i + 1]) == if t[keys[i]].view >= t[h].view then keys[i] else h
  {
    assert keys[..i + 1][..i] == keys[..i];
  }

  /** The first block in hash order whose parent is hash. */
  method FirstChild(t: Tree, hash: Hash) returns (child: Option<Block>)
    requires Keyed(t)
    ensures child.None? <==> forall d :: d in t ==> t[d].parent != Some(hash)
    ensures child.Some? ==>
              var c := child.value.hash; IsFirstChild(t, hash, c) && t[c] == child.value
  {
    hide Keyed, IsFirstChild;
    var keys := SortedKeys(t);
    for i := 0 to |keys|
      invariant forall j :: 0 <= j < i ==> t[keys[j]].parent != Some(hash)
    {
      if t[keys[i]].parent == Some(hash) {
        FirstListed(t, hash, i);
        return Some(t[keys[i]]);
      }
    }
    child := None;
    NoneChild(t, hash);
  }

  lemma FirstListed(t: Tree, hash: Hash, i: nat)
    requires Keyed(t) && i < |t.Keys|
    requires var keys := Ascending(t.Keys);
             && t[keys[i]].parent == Some(hash)
             && forall j :: 0 <= j < i ==> t[keys[j]].parent != Some(hash)
    ensures var b := t[Ascending(t.Keys)[i]]; b.hash in t && IsFirstChild(t, hash, b.hash) && t[b.hash] == b
  {
    AscendingSorted(t.Keys);
    var keys := Ascending(t.Keys);
    forall d | d in t && t[d].parent == Some(hash) ensures keys[i] <= d {
      assert d in keys;
    }
  }

  lemma NoneChild(t: Tree, hash: Hash)
    requires forall j :: 0 <= j < |t.Keys| ==> t[Ascending(t.Keys)[j]].parent != Some(hash)
    ensures forall d :: d in t ==> t[d].parent != Some(hash)
  {
    AscendingSorted(t.Keys);
    forall d | d in t ensures t[d].parent != Some(hash) { assert d in Ascending(t.Keys); }
  }

  /** Whether a block with this hash is in the log. */
  method InLog(log: seq<Block>, hash: Hash) returns (found: bool)
    ensures found <==> hash in Committed(log)
  {
    for i := 0 to |log|
      invariant forall j :: 0 <= j < i ==> log[j].hash != hash
    {
      if log[i].hash == hash {
        assert log[i] in log;
        return true;
      }
    }
    found := false;
  }

  /** Whether h heads a three-chain. */
  method IsHead(t: Tree, h: Hash) returns (head: bool)
    requires Keyed(t) && h in t
    ensures head <==> Head(t, h)
  {
    var b1 := FirstChild(t, h);
    if b1.None? || b1.value.qc.None? {
      return false;
    }
    var b2 := FirstChild(t, b1.value.hash);
    if b2.None? || b2.value.qc.None? {
      return false;
    }
    assert ThreeChain(t, h, b1.value.hash, b2.value.hash);
    head := true;
  }

  /** The least three-chain head of t that is not in the log. */
  method FindHead(t: Tree, log: seq<Block>) returns (found: Option<Block>)
    requires Keyed(t)
    ensures found.None? <==> Pending(t, log) == {}
    ensures found.Some? ==> found.value == t[Least(Pending(t, log))]
  {
    var keys := SortedKeys(t);
    ghost var pending := Pending(t, log);
    for i := 0 to |keys|
      invariant forall j :: 0 <= j < i ==> keys[j] !in pending
    {
      var committed := InLog(log, keys[i]);
      if !committed {
        var head := IsHead(t, keys[i]);
        if head {
          LeastListed(t.Keys, pending, i);
          return Some(t[keys[i]]);
        }
      }
    }
    found := None;
    NoneListed(t.Keys, pending);
  }

  /** The first listed element that is in part is the least of part. */
  lemma LeastListed(all: set<Hash>, part: set<Hash>, i: nat)
    requires part <= all && i < |Ascending(all)| && Ascending(all)[i] in part
    requires forall j :: 0 <= j < i ==> Ascending(all)[j] !in part
    ensures Least(part) == Ascending(all)[i]
  {
    AscendingSorted(all);
    assert Least(part) in Ascending(all);
  }

  lemma NoneListed(all: set<Hash>, part: set<Hash>)
    requires part <= all
    requires forall j :: 0 <= j < |Ascending(all)| ==> Ascending(all)[j] !in part
    ensures part == {}
  {
    AscendingSorted(all);
    forall h | h in all ensures h !in part { assert h in Ascending(all); }
  }

  /** Committing the least pending head and then all others is committing all. */
  lemma CommitOneThenAll(s: ReplicaState)
    requires Keyed(s.blockTree) && Pending(s.blockTree, s.committedLog) != {}
    ensures var t := s.ExecuteAndCommit(s.blockTree[Least(Pending(s.blockTree, s.committedLog))]);
            && t.CommitAll() == s.CommitAll() && t.blockTree == s.blockTree
            && |Pending(t.blockTree, t.committedLog)| < |Pending(s.blockTree, s.committedLog)|
  {
    var p := Pending(s.blockTree, s.committedLog);
    var b := s.blockTree[Least(p)];
    CommitsStep(s.blockTree, s.committedLog);
    var t := s.ExecuteAndCommit(b);
    CommitLeaves(s, b);
    assert Commits(s.blockTree, s.committedLog)[1..] == Commits(t.blockTree, t.committedLog);
  }

  lemma LeastPending(t: Tree, log: seq<Block>)
    requires Pending(t, log) != {}
    ensures Least(Pending(t, log)) in t
  {
  }

  lemma CommitLeaves(s: ReplicaState, b: Block)
    ensures s.ExecuteAndCommit(b).blockTree == s.blockTree
    ensures s.ExecuteAndCommit(b).committedLog == s.committedLog + [b]
  {
  }

  lemma DropOne<V>(m: map<nat, V>, ids: seq<nat>, i: nat)
    requires i < |ids|
    ensures m - ToSet(ids[..i]) - {ids[i]} == m - ToSet(ids[..i + 1])
  {
    assert ids[..i + 1] == ids[..i] + [ids[i]];
  }

  /** Deletes snapshots, lowest number first, until keep are left. */
  method CleanupOld(store: Store, keep: nat) returns (r: Store)
    ensures r == store.Cleanup(keep)
  {
    var ids := SortedKeys(store.snapshots);
    r := store;
    if |ids| > keep {
      var surplus := ids[..|ids| - keep];
      var snapshots := RemoveAll(store.snapshots, surplus);
      r := store.(snapshots := snapshots);
    }
  }

  method RemoveAll(all: map<nat, Snapshot>, ids: seq<nat>) returns (rest: map<nat, Snapshot>)
    ensures rest == all - ToSet(ids)
  {
    rest := all;
    for i := 0 to |ids|
      invariant rest == all - ToSet(ids[..i])
    {
      DropOne(all, ids, i);
      rest := rest - {ids[i]};
    }
    assert ids[..|ids|] == ids;
  }
}
