/** What the driver does to one replica object at a time, and the loops it runs over values. */
module ReplicaSteps {
  import opened Types
  import opened Ordered
  import opened Crypto
  import opened CommitRule
  import opened Storage
  import opened ReplicaModel
  import opened Durability
  import opened StateSync
  import opened SimModel
  import opened ReplicaImpl
  import opened RecoverImpl

  method FreshReplica(config: Config, keys: KeyStore, store: Store) returns (replica: Replica)
    ensures fresh(replica) && replica.State() == Blank(config, keys, store) && replica.Valid()
  {
    replica := new Replica(Blank(config, keys, store));
  }

  method CreateReplica(config: Config, keys: KeyStore, persistence: bool) returns (replica: Replica)
    ensures fresh(replica) && replica.State() == NewReplica(config, keys, persistence) && replica.Valid()
  {
    replica := FreshReplica(config, keys, Store(map[], None, false));
    if persistence {
      FreshIsDurable(config, keys);
      var recovered := RecoverReplica(config, keys, Store(map[], None, false));
      replica := recovered.value;
      replica.AttachWal();
    }
  }

  method NextUncrashed(n: nat, crashed: set<nat>, base: nat) returns (leader: nat)
    requires n > 0
    ensures leader == LeaderFrom(n, crashed, base, 0)
  {
    for offset := 0 to n
      invariant LeaderFrom(n, crashed, base, 0) == LeaderFrom(n, crashed, base, offset)
    {
      leader := (base + offset) % n;
      if leader !in crashed {
        return;
      }
    }
    leader := 0;
  }

  /** A replica's proposal for its current view, if it leads that view and has something to propose. */
  method ProposeOn(r: Replica, kind: RoundKind, hash: Hash, now: nat) returns (b: Option<Block>)
    requires r.Valid()
    modifies r
    ensures (r.State(), b) == ProposeKind(old(r.State()), kind, old(r.State()).currentView, hash, now) && r.Valid()
  {
    hide ReplicaState.ProposeNextWithHash, ReplicaState.ProposeWithHash;
    if kind.Plain? {
      b := r.ProposeWithHash(r.currentView, hash, now);
    } else {
      b := r.ProposeNextWithHash(r.currentView, hash, now);
    }
  }

  /** Mine, and some of the blocks only they have. */
  ghost predicate Merging(t: Tree, mine: Tree, theirs: Tree) {
    && mine.Keys <= t.Keys && (forall h :: h in mine ==> t[h] == mine[h])
    && forall h :: h in t && h !in mine ==> h in theirs && t[h] == theirs[h]
  }

  lemma MergesOne(t: Tree, mine: Tree, theirs: Tree, h: Hash)
    requires Merging(t, mine, theirs) && h in theirs && h !in t
    ensures Merging(t[h := theirs[h]], mine, theirs)
  {
  }

  lemma Merged(t: Tree, mine: Tree, theirs: Tree)
    requires Merging(t, mine, theirs) && theirs.Keys <= t.Keys
    ensures t == theirs + mine
  {
  }

  /** The blocks of both trees; where both have one, mine. */
  method MergeTrees(mine: Tree, theirs: Tree) returns (t: Tree)
    ensures t == theirs + mine
  {
    var keys := SortedKeys(theirs);
    t := mine;
    assert Merging(t, mine, theirs);
    hide Merging;
    for i := 0 to |keys|
      invariant Merging(t, mine, theirs) && forall j :: 0 <= j < i ==> keys[j] in t.Keys
    {
      if keys[i] !in t {
        MergesOne(t, mine, theirs, keys[i]);
        t := t[keys[i] := theirs[keys[i]]];
      }
    }
    AllListed(theirs.Keys, t.Keys);
    Merged(t, mine, theirs);
  }

  lemma AllListed(all: set<Hash>, s: set<Hash>)
    requires forall j :: 0 <= j < |Ascending(all)| ==> Ascending(all)[j] in s
    ensures all <= s
  {
    AscendingSorted(all);
    forall h | h in all ensures h in s { assert h in Ascending(all); }
  }

  /** Whether a log is longer than mine and extends it. */
  method Extends(theirs: seq<Block>, mine: seq<Block>) returns (yes: bool)
    ensures yes == (|theirs| > |mine| && HashPrefix(mine, theirs))
  {
    yes := false;
    if |theirs| > |mine| {
      yes := CompareLogs(mine, theirs);
    }
  }

  /** next, or the number after the largest hash of t, whichever is larger. */
  method HashAfter(t: Tree, next: Hash) returns (hash: Hash)
    ensures var ids := Ascending(t.Keys);
            hash == if ids != [] && ids[|ids| - 1] >= next then ids[|ids| - 1] + 1 else next
  {
    var keys := SortedKeys(t);
    hash := if |keys| > 0 && keys[|keys| - 1] >= next then keys[|keys| - 1] + 1 else next;
  }

  method AdoptBlocks(r: Replica, donor: Replica)
    requires r != donor && r.Valid() && donor.Valid()
    modifies r`blockTree
    ensures r.State() == AdoptedBlocks(old(r.State()), donor.State())
    ensures r.Valid()
  {
    var tree := MergeTrees(r.blockTree, donor.blockTree);
    r.blockTree := tree;
  }

  method AdoptLog(r: Replica, donor: Replica)
    requires r != donor
    modifies r`committedLog, r`committedUpTo
    ensures r.State() == AdoptedLog(old(r.State()), donor.State())
  {
    hide HashPrefix;
    var longer := Extends(donor.committedLog, r.committedLog);
    if longer {
      r.committedLog := donor.committedLog;
      r.committedUpTo := donor.committedUpTo;
    }
  }

  method AdoptQc(r: Replica, donor: Replica)
    requires r != donor
    modifies r`highQc
    ensures r.State() == AdoptedQc(old(r.State()), donor.State())
  {
    if donor.highQc.Some? && r.State().Newer(donor.highQc.value) {
      r.highQc := donor.highQc;
    }
  }

  method StayAhead(r: Replica)
    modifies r`nextHash
    ensures r.State() == Ahead(old(r.State())) && old(r.Valid()) == r.Valid()
  {
    hide Ascending;
    var hash := HashAfter(r.blockTree, r.nextHash);
    r.nextHash := hash;
  }

  /** State sync: missing blocks, the log if it extends ours, the certificate if it is newer, and a hash counter
      beyond every known block. */
  method ImportFrom(r: Replica, donor: Replica)
    requires r != donor && r.Valid() && donor.Valid()
    modifies r
    ensures r.State() == Import(old(r.State()), donor.State()) && r.Valid()
  {
    hide Replica.State, AdoptedBlocks, AdoptedLog, AdoptedQc, Ahead;
    AdoptBlocks(r, donor);
    AdoptLog(r, donor);
    AdoptQc(r, donor);
    StayAhead(r);
  }

  method CatchUp(r: Replica, target: nat)
    requires r.Valid()
    modifies r
    ensures r.State() == AdvanceTo(old(r.State()), target) && r.Valid()
  {
    hide ReplicaState.AdvanceView;
    while r.currentView < target
      invariant r.Valid() && AdvanceTo(r.State(), target) == AdvanceTo(old(r.State()), target)
      decreases target - r.currentView
    {
      r.AdvanceView(Timeout);
    }
  }

  method EnqueueOn(r: Replica, command: Command)
    requires r.Valid()
    modifies r
    ensures r.State() == old(r.State()).(clientQueue := old(r.State()).clientQueue + [command]) && r.Valid()
  {
    r.Enqueue(command);
  }

  method SetDummiesOn(r: Replica, enabled: bool, timeoutMs: nat)
    requires r.Valid()
    modifies r
    ensures r.State() == Dummies(old(r.State()), enabled, timeoutMs) && r.Valid()
  {
    r.dummyEnabled := enabled;
    if enabled {
      r.dummyTimeoutMs := timeoutMs;
    }
  }

  predicate SameHashes(a: seq<Block>, b: seq<Block>) {
    forall k :: 0 <= k < |a| && k < |b| ==> a[k].hash == b[k].hash
  }

  /** Whether two logs name the same blocks as far as both go. */
  method CompareLogs(a: seq<Block>, b: seq<Block>) returns (same: bool)
    ensures same == SameHashes(a, b)
  {
    var n := if |a| <= |b| then |a| else |b|;
    for i := 0 to n
      invariant forall k :: 0 <= k < i ==> a[k].hash == b[k].hash
    {
      if a[i].hash != b[i].hash {
        return false;
      }
    }
    same := true;
  }

  /** A replica checks a proposal, inserts it and signs a vote for it, or rejects it. */
  method ReceiveProposal(r: Replica, b: Block) returns (vote: Option<Vote>)
    requires r.Valid()
    modifies r
    ensures r.State() == old(r.State()).InsertProposal(b) && r.Valid()
    ensures vote == if old(r.State()).ValidProposal(b) then Some(VoteOf(old(r.State()), b)) else None
  {
    hide ReplicaState.ValidProposal;
    var valid := r.ValidateAndInsertProposal(b);
    vote := if valid then Some(Vote(b.hash, b.view, b.epoch, r.keystore.Sign(b.hash, b.view, b.epoch))) else None;
  }

  method CommitOne(r: Replica, persistence: bool)
    requires r.Valid()
    modifies r
    ensures r.State() == Checkpoint(old(r.State()).CommitAll(), persistence) && r.Valid()
  {
    hide ReplicaState.CommitAll, ReplicaState.TakeSnapshot;
    ghost var writes := r.CommitAll();
    if persistence && r.State().ShouldSnapshot() {
      var ok, written := r.TakeSnapshot();
    }
  }
}
