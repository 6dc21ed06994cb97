/** The simulated network: a first-in first-out queue with counters, and the source of fresh block hashes. */
module NetworkImpl {
  import opened Types
  import opened SimModel

  /** One more message of the kind of m. */
  function Count(c: Counters, m: Message): Counters {
    var d := c.(total := c.total + 1);
    match m
    case ProposalMsg(_, _, _) => d.(proposals := c.proposals + 1)
    case VoteMsg(_, _, _) => d.(votes := c.votes + 1)
    case QcMsg(_, _, _, _) => d.(certificates := c.certificates + 1)
    case NewViewMsg(_, _, _, _) => d.(newViews := c.newViews + 1)
  }

  function CountAll(c: Counters, ms: seq<Message>): Counters
    decreases |ms|
  {
    if ms == [] then c else Count(CountAll(c, ms[..|ms| - 1]), ms[|ms| - 1])
  }

  /** A proposal to each of the replicas 0..n-1 but the sender, in ascending order. */
  function ProposalsTo(from: ReplicaId, n: nat, b: Block): (ms: seq<Message>)
    ensures |ms| == if from < n then n - 1 else n
  {
    if n == 0 then []
    else if n - 1 == from then ProposalsTo(from, n - 1, b)
    else ProposalsTo(from, n - 1, b) + [ProposalMsg(from, n - 1, b)]
  }

  function CertificatesTo(from: ReplicaId, n: nat, qc: QuorumCert, hash: Hash): (ms: seq<Message>)
    ensures |ms| == if from < n then n - 1 else n
  {
    if n == 0 then []
    else if n - 1 == from then CertificatesTo(from, n - 1, qc, hash)
    else CertificatesTo(from, n - 1, qc, hash) + [QcMsg(from, n - 1, qc, hash)]
  }

  function NewViewsTo(from: ReplicaId, n: nat, view: nat, highQc: Option<QuorumCert>): (ms: seq<Message>)
    ensures |ms| == if from < n then n - 1 else n
  {
    if n == 0 then []
    else if n - 1 == from then NewViewsTo(from, n - 1, view, highQc)
    else NewViewsTo(from, n - 1, view, highQc) + [NewViewMsg(from, n - 1, view, highQc)]
  }

  /** The proposals among these messages, in their order. */
  function OnlyProposals(ms: seq<Message>): seq<Message>
    decreases |ms|
  {
    if ms == [] then []
    else OnlyProposals(ms[..|ms| - 1]) + if ms[|ms| - 1].ProposalMsg? then [ms[|ms| - 1]] else []
  }

  /** Nothing of a proposal broadcast is dropped. */
  lemma {:induction false} BroadcastKept(from: ReplicaId, n: nat, b: Block)
    ensures OnlyProposals(ProposalsTo(from, n, b)) == ProposalsTo(from, n, b)
    decreases n
  {
    if n > 0 {
      BroadcastKept(from, n - 1, b);
      var ms := ProposalsTo(from, n, b);
      assert n - 1 != from ==> ms[..|ms| - 1] == ProposalsTo(from, n - 1, b);
    }
  }

  /** The message at position k of a broadcast goes to replica k, or k+1 from the sender on. */
  function Receiver(from: ReplicaId, k: nat): nat {
    if k < from then k else k + 1
  }

  lemma {:induction false} ProposalsAt(from: ReplicaId, n: nat, b: Block, k: nat)
    requires k < |ProposalsTo(from, n, b)|
    ensures ProposalsTo(from, n, b)[k] == ProposalMsg(from, Receiver(from, k), b)
    decreases n
  {
    if k < |ProposalsTo(from, n - 1, b)| { ProposalsAt(from, n - 1, b, k); }
  }

  lemma {:induction false} CertificatesAt(from: ReplicaId, n: nat, qc: QuorumCert, hash: Hash, k: nat)
    requires k < |CertificatesTo(from, n, qc, hash)|
    ensures CertificatesTo(from, n, qc, hash)[k] == QcMsg(from, Receiver(from, k), qc, hash)
    decreases n
  {
    if k < |CertificatesTo(from, n - 1, qc, hash)| { CertificatesAt(from, n - 1, qc, hash, k); }
  }

  lemma {:induction false} CountProposals(c: Counters, from: ReplicaId, n: nat, b: Block)
    ensures var k := |ProposalsTo(from, n, b)|;
            CountAll(c, ProposalsTo(from, n, b)) == c.(total := c.total + k, proposals := c.proposals + k)
    decreases n
  {
    if n > 0 {
      CountProposals(c, from, n - 1, b);
      assert n - 1 != from ==> ProposalsTo(from, n, b)[..|ProposalsTo(from, n, b)| - 1] == ProposalsTo(from, n - 1, b);
    }
  }

  lemma {:induction false} CountCertificates(c: Counters, from: ReplicaId, n: nat, qc: QuorumCert, hash: Hash)
    ensures var k := |CertificatesTo(from, n, qc, hash)|;
            CountAll(c, CertificatesTo(from, n, qc, hash))
            == c.(total := c.total + k, certificates := c.certificates + k)
    decreases n
  {
    if n > 0 {
      CountCertificates(c, from, n - 1, qc, hash);
      var ms := CertificatesTo(from, n, qc, hash);
      assert n - 1 != from ==> ms[..|ms| - 1] == CertificatesTo(from, n - 1, qc, hash);
    }
  }

  lemma CountSnoc(c: Counters, ms: seq<Message>, m: Message)
    ensures CountAll(c, ms + [m]) == Count(CountAll(c, ms), m)
  {
    assert (ms + [m])[..|ms|] == ms;
  }

  lemma {:induction false} CountAppend(c: Counters, a: seq<Message>, b: seq<Message>)
    ensures CountAll(CountAll(c, a), b) == CountAll(c, a + b)
    decreases |b|
  {
    if b == [] {
      assert a + b == a;
    } else {
      CountAppend(c, a, b[..|b| - 1]);
      assert (a + b)[..|a + b| - 1] == a + b[..|b| - 1];
    }
  }

  class Network {
    var queue: seq<Message>
    const numReplicas: nat
    var sent: Counters
    var nextGlobalHash: Hash

    constructor (n: nat)
      ensures queue == [] && numReplicas == n && sent == Counters(0, 0, 0, 0, 0) && nextGlobalHash == 1
    {
      queue, numReplicas, sent, nextGlobalHash := [], n, Counters(0, 0, 0, 0, 0), 1;
    }

    method Send(m: Message)
      modifies this`queue, this`sent
      ensures queue == old(queue) + [m] && sent == Count(old(sent), m)
    {
      sent := sent.(total := sent.total + 1);
      match m {
        case ProposalMsg(_, _, _) => sent := sent.(proposals := sent.proposals + 1);
        case VoteMsg(_, _, _) => sent := sent.(votes := sent.votes + 1);
        case QcMsg(_, _, _, _) => sent := sent.(certificates := sent.certificates + 1);
        case NewViewMsg(_, _, _, _) => sent := sent.(newViews := sent.newViews + 1);
      }
      queue := queue + [m];
    }

    method BroadcastProposal(from: ReplicaId, b: Block)
      modifies this`queue, this`sent
      ensures queue == old(queue) + ProposalsTo(from, numReplicas, b)
      ensures sent == CountAll(old(sent), ProposalsTo(from, numReplicas, b))
    {
      for to := 0 to numReplicas
        invariant queue == old(queue) + ProposalsTo(from, to, b)
        invariant sent == CountAll(old(sent), ProposalsTo(from, to, b))
      {
        if to != from {
          CountSnoc(old(sent), ProposalsTo(from, to, b), ProposalMsg(from, to, b));
          Send(ProposalMsg(from, to, b));
        }
      }
    }

    method BroadcastQc(from: ReplicaId, qc: QuorumCert, hash: Hash)
      modifies this`queue, this`sent
      ensures queue == old(queue) + CertificatesTo(from, numReplicas, qc, hash)
      ensures sent == CountAll(old(sent), CertificatesTo(from, numReplicas, qc, hash))
    {
      for to := 0 to numReplicas
        invariant queue == old(queue) + CertificatesTo(from, to, qc, hash)
        invariant sent == CountAll(old(sent), CertificatesTo(from, to, qc, hash))
      {
        if to != from {
          CountSnoc(old(sent), CertificatesTo(from, to, qc, hash), QcMsg(from, to, qc, hash));
          Send(QcMsg(from, to, qc, hash));
        }
      }
    }

    method BroadcastNewView(from: ReplicaId, view: nat, highQc: Option<QuorumCert>)
      modifies this`queue, this`sent
      ensures queue == old(queue) + NewViewsTo(from, numReplicas, view, highQc)
      ensures sent == CountAll(old(sent), NewViewsTo(from, numReplicas, view, highQc))
    {
      for to := 0 to numReplicas
        invariant queue == old(queue) + NewViewsTo(from, to, view, highQc)
        invariant sent == CountAll(old(sent), NewViewsTo(from, to, view, highQc))
      {
        if to != from {
          CountSnoc(old(sent), NewViewsTo(from, to, view, highQc), NewViewMsg(from, to, view, highQc));
          Send(NewViewMsg(from, to, view, highQc));
        }
      }
    }

    method SendVote(from: ReplicaId, to: ReplicaId, vote: Vote)
      modifies this`queue, this`sent
      ensures queue == old(queue) + [VoteMsg(from, to, vote)] && sent == Count(old(sent), VoteMsg(from, to, vote))
    {
      Send(VoteMsg(from, to, vote));
    }

    /** The oldest message, or nothing when none is pending. */
    method Receive() returns (m: Option<Message>)
      modifies this`queue
      ensures if old(queue) == [] then m == None && queue == []
              else m == Some(old(queue)[0]) && queue == old(queue)[1..]
    {
      if queue == [] {
        return None;
      }
      m := Some(queue[0]);
      queue := queue[1..];
    }

    predicate HasMessages()
      reads this
    {
      queue != []
    }

    /** Drops everything pending; what was sent stays counted. */
    method Clear()
      modifies this`queue
      ensures queue == []
    {
      queue := [];
    }

    method GenerateUniqueHash() returns (hash: Hash)
      modifies this`nextGlobalHash
      ensures hash == old(nextGlobalHash) && nextGlobalHash == hash + 1
    {
      hash := nextGlobalHash;
      nextGlobalHash := nextGlobalHash + 1;
    }

    /** Takes everything pending, keeping the proposals in order and dropping everything else. */
    method Drain() returns (ms: seq<Message>)
      modifies this`queue
      ensures queue == [] && ms == OnlyProposals(old(queue))
    {
      ms := [];
      ghost var done := [];
      while HasMessages()
        invariant done + queue == old(queue) && ms == OnlyProposals(done)
        decreases |queue|
      {
        assert old(queue)[|done|] == queue[0];
        var m := Receive();
        if m.value.ProposalMsg? {
          ms := ms + [m.value];
        }
        assert (done + [m.value])[..|done|] == done;
        done := done + [m.value];
      }
      assert done == old(queue);
    }
  }
}
