/** How many messages rounds send, under every fault pattern. */
module MessageCost {
  import opened Types
  import opened ReplicaModel
  import opened SimModel

  predicate Balanced(c: Counters) {
    c.total == c.proposals + c.votes + c.certificates + c.newViews
  }

  /** Messages to everybody else. */
  function Others(n: nat): nat {
    if n == 0 then 0 else n - 1
  }

  /** A round sends either nothing, or one proposal to each other replica, at most as many votes, and one
      certificate to each of them or none. */
  ghost predicate RoundSends(s: SimState, t: SimState, votes: nat, formed: bool) {
    && votes <= Others(s.N())
    && t.sent == (if s.N() == 0 then s.sent else Sent(s.sent, s.N(), votes, formed))
  }

  lemma RoundCost(s: SimState, kind: RoundKind, now: nat)
    requires s.Shaped()
    ensures var t := Round(s, kind, now);
            && s.sent.total <= t.sent.total <= s.sent.total + 3 * Others(s.N())
            && (Balanced(s.sent) ==> Balanced(t.sent))
            && (t.sent == s.sent || exists votes, formed :: RoundSends(s, t, votes, formed))
            && t.queue == [] && t.N() == s.N()
  {
    hide Proposal, CurrentLeader, SimState.Shaped, RoundBody, Started, ProcessTimeouts;
    var t := Started(s);
    StartedSends(s);
    if !Refused(t) {
      RefusedEmpty(t);
      BodySends(t, kind, now);
      var u := RoundBody(t, kind, now);
      RoundBodyShaped(t, kind, now);
      TimeoutsSend(u);
      if u.sent != s.sent {
        var votes, formed :| RoundSends(t, u, votes, formed);
        assert RoundSends(s, Round(s, kind, now), votes, formed);
      }
    }
    assert Round(s, kind, now).queue == [] by { StepQueue(s, kind, now); }
  }

  lemma StepQueue(s: SimState, kind: RoundKind, now: nat)
    requires s.Shaped()
    ensures Round(s, kind, now).queue == []
  {
    StepShaped(s, RunRound(kind, now));
    hide Round;
  }

  lemma TimeoutsSend(s: SimState)
    requires s.Shaped()
    ensures ProcessTimeouts(s).sent == s.sent && ProcessTimeouts(s).N() == s.N()
  {
    hide TimedOut;
  }

  lemma StartedSends(s: SimState)
    requires s.Shaped()
    ensures Started(s).sent == s.sent
  {
    TimeoutsSend(s.(time := s.time + s.roundTime));
    hide ProcessTimeouts;
  }

  lemma BodySends(s: SimState, kind: RoundKind, now: nat)
    requires s.Shaped() && s.N() > 0
    ensures var t := RoundBody(s, kind, now);
            t.sent == s.sent || exists votes, formed :: RoundSends(s, t, votes, formed)
  {
    hide Proposal, CurrentLeader, SimState.Shaped, VotesFor, Collect, RoundReplicas, AdvanceUp, Mark, Sent,
      SimState.Down;
    var (p, b) := Proposal(s, kind, now);
    var leader := CurrentLeader(s);
    if leader !in s.Down() && b.Some? {
      ProposedSends(s, leader, p, b.value);
    }
  }

  lemma ProposedSends(s: SimState, leader: nat, p: ReplicaState, b: Block)
    requires s.Shaped() && leader < s.N()
    ensures exists votes, formed :: RoundSends(s, ProposedRound(s, leader, p, b), votes, formed)
  {
    hide VotesFor, Collect, RoundReplicas, Mark, Sent, SimState.Shaped;
    var votes := VotesFor(s.replicas, s.Down(), leader, b, s.N());
    assert RoundSends(s, ProposedRound(s, leader, p, b), |votes|, Collect(p, votes).1.Some?);
  }

  function RoundsIn(actions: seq<Action>): nat
    decreases |actions|
  {
    if actions == [] then 0
    else RoundsIn(actions[..|actions| - 1]) + if actions[|actions| - 1].RunRound? then 1 else 0
  }

  lemma OtherStepsSendNothing(s: SimState, a: Action)
    requires s.Shaped() && !a.RunRound?
    ensures Step(s, a).sent == s.sent
  {
    hide Synced, CurrentLeader;
  }

  /** Under every fault pattern, crashes, recoveries and rejoins included, k rounds send at most 3(n-1)k messages;
      the total is the sum over the kinds, and nothing is left in the queue. */
  lemma {:induction false} LinearCost(s: SimState, actions: seq<Action>)
    requires s.Shaped() && Balanced(s.sent)
    ensures var t := Drive(s, actions);
            && t.sent.total <= s.sent.total + 3 * (Others(s.N()) * RoundsIn(actions))
            && Balanced(t.sent) && t.queue == []
    decreases |actions|
  {
    hide Step, SimState.Shaped, Others, Balanced, RoundSends;
    if actions != [] {
      var init, a := actions[..|actions| - 1], actions[|actions| - 1];
      LinearCost(s, init);
      var mid := Drive(s, init);
      if a.RunRound? {
        RoundCost(mid, a.kind, a.now);
        assert Step(mid, a) == Round(mid, a.kind, a.now) by { StepRound(mid, a); }
        assert Others(s.N()) * (RoundsIn(init) + 1) == Others(s.N()) * RoundsIn(init) + Others(s.N());
      } else {
        OtherStepsSendNothing(mid, a);
      }
    }
    QueueEmpty(Drive(s, actions));
  }

  lemma StepRound(s: SimState, a: Action)
    requires s.Shaped() && a.RunRound?
    ensures Step(s, a) == Round(s, a.kind, a.now)
  {
  }

  lemma QueueEmpty(s: SimState)
    requires s.Shaped()
    ensures s.queue == []
  {
  }
}
