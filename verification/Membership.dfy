/** Membership changes at commit time: how often one can be accepted, and what it keeps in step. */
module Membership {
  import opened Types
  import opened Quorum
  import opened Crypto
  import opened ReplicaModel

  /** The sizes from which some join or some remove would be accepted. */
  predicate CanChange(n: nat) {
    (n >= 3 && n % 3 == 0) || (n >= 5 && n % 3 == 2)
  }

  lemma SomeJoin(s: ReplicaState) returns (command: Command)
    requires |s.activeValidators| >= 3 && |s.activeValidators| % 3 == 0
    ensures s.ApplyMembership(command).configEpoch == s.configEpoch + 1
  {
    var id := FreshId(s.activeValidators);
    command := JoinValidator(id, KeyBytes(32, Some(0)));
    assert CanApplyCount(|s.activeValidators| + 1);
    hide CanApplyCount, F;
    assert s.ApplyMembership(command) == s.Joined(id, command.publicKey);
  }

  lemma SomeRemove(s: ReplicaState) returns (command: Command)
    requires |s.activeValidators| >= 5 && |s.activeValidators| % 3 == 2
    ensures s.ApplyMembership(command).configEpoch == s.configEpoch + 1
  {
    var id :| id in s.activeValidators;
    command := RemoveValidator(id);
    assert CanApplyCount(|s.activeValidators| - 1);
    hide CanApplyCount, F;
    assert s.ApplyMembership(command) == s.Removed(id);
  }

  /** A replica that some command can still reconfigure is exactly one whose size is not of the form 3f+1
      (and is not 0 or 2). */
  lemma ChangeableIff(s: ReplicaState)
    ensures CanChange(|s.activeValidators|) <==>
            exists command :: s.ApplyMembership(command).configEpoch != s.configEpoch
  {
    hide ReplicaState.ApplyMembership;
    var n := |s.activeValidators|;
    if n >= 3 && n % 3 == 0 {
      var command := SomeJoin(s);
    } else if n >= 5 && n % 3 == 2 {
      var command := SomeRemove(s);
    } else {
      forall command ensures s.ApplyMembership(command).configEpoch == s.configEpoch {
        Unchangeable(s, command);
      }
    }
  }

  lemma FreshId(ids: set<ReplicaId>) returns (id: ReplicaId)
    ensures id !in ids
  {
    id := 0;
    var seen := {};
    while id in ids
      invariant seen <= ids && forall k :: k in seen <==> 0 <= k < id
      decreases ids - seen
    {
      seen := seen + {id};
      id := id + 1;
    }
  }

  /** Outside those sizes every command is ignored. */
  lemma Unchangeable(s: ReplicaState, command: Command)
    requires !CanChange(|s.activeValidators|)
    ensures s.ApplyMembership(command) == s
  {
    hide ReplicaState.Rewired, KeyStore.AddPublicKey, KeyStore.RemovePublicKey;
  }

  /** An accepted command moves to the next epoch with n = 3f+1 >= 4; a rejected one changes nothing. */
  lemma AcceptedSize(s: ReplicaState, command: Command)
    ensures var t := s.ApplyMembership(command);
            t == s || (t.configEpoch == s.configEpoch + 1 && CanApplyCount(|t.activeValidators|))
  {
  }

  function ApplyEach(s: ReplicaState, commands: seq<Command>): ReplicaState
    decreases |commands|
  {
    if commands == [] then s else ApplyEach(s.ApplyMembership(commands[0]), commands[1..])
  }

  lemma {:induction false} FrozenForever(s: ReplicaState, commands: seq<Command>)
    requires !CanChange(|s.activeValidators|)
    ensures ApplyEach(s, commands) == s
    decreases |commands|
  {
    if commands != [] {
      Unchangeable(s, commands[0]);
      FrozenForever(s, commands[1..]);
    }
  }

  /** Over any sequence of committed commands at most one is accepted; after it n = 3f+1 >= 4 for good. */
  lemma {:induction false} AtMostOneChange(s: ReplicaState, commands: seq<Command>)
    ensures var t := ApplyEach(s, commands);
            t == s || (t.configEpoch == s.configEpoch + 1 && CanApplyCount(|t.activeValidators|))
    decreases |commands|
  {
    if commands != [] {
      AcceptedSize(s, commands[0]);
      var t := s.ApplyMembership(commands[0]);
      if t == s {
        AtMostOneChange(s, commands[1..]);
      } else {
        FrozenForever(t, commands[1..]);
      }
    }
  }

  /** Validators, registered keys and the configured n and f agree. */
  predicate InStep(s: ReplicaState) {
    && s.keystore.publicKeys.Keys == s.activeValidators
    && s.config.n == |s.activeValidators|
    && s.config.f == F(|s.activeValidators|)
  }

  lemma {:induction false} StaysInStep(s: ReplicaState, commands: seq<Command>)
    requires InStep(s)
    ensures InStep(ApplyEach(s, commands))
    decreases |commands|
  {
    if commands != [] {
      InStepOnce(s, commands[0]);
      StaysInStep(s.ApplyMembership(commands[0]), commands[1..]);
    }
  }

  lemma InStepOnce(s: ReplicaState, command: Command)
    requires InStep(s)
    ensures InStep(s.ApplyMembership(command))
  {
  }

  /** Across one accepted change, any old and any new quorum share at least the old fault threshold. */
  lemma QuorumsAcrossChange(s: ReplicaState, command: Command, a: set<ReplicaId>, b: set<ReplicaId>)
    requires s.ApplyMembership(command).configEpoch != s.configEpoch
    requires IsQuorum(a, s.activeValidators) && IsQuorum(b, s.ApplyMembership(command).activeValidators)
    ensures |a * b| >= F(|s.activeValidators|)
  {
    var t := s.ApplyMembership(command);
    if command.JoinValidator? {
      CrossEpochIntersection(s.activeValidators, t.activeValidators, command.joiner, a, b);
    } else {
      CrossEpochIntersection(s.activeValidators, t.activeValidators, command.leaver, a, b);
    }
  }
}
