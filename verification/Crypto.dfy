/** Key stores over ideal signatures, certificate verification, and uniqueness of certificates in a view. */
module Crypto {
  import opened Types
  import opened Quorum

  datatype KeyStore = KeyStore(myId: ReplicaId, myKey: Key, publicKeys: map<ReplicaId, Key>) {

    function Sign(hash: Hash, view: nat, epoch: nat): Signature {
      Signature(myId, Made(myKey, hash, view, epoch))
    }

    /** An unknown signer is rejected; a known one must have signed exactly this vote with its own key. */
    predicate Verify(sig: Signature, hash: Hash, view: nat, epoch: nat) {
      sig.signer in publicKeys && sig.bytes == Made(publicKeys[sig.signer], hash, view, epoch)
    }

    /** Registers or replaces a key, unless the bytes are not one. */
    function AddPublicKey(id: ReplicaId, bytes: KeyBytes): (r: (KeyStore, bool))
      ensures r.1 <==> bytes.length == 32 && bytes.point.Some?
      ensures !r.1 ==> r.0 == this
      ensures r.0.myId == myId && r.0.myKey == myKey
      ensures r.1 ==> r.0.publicKeys.Keys == publicKeys.Keys + {id} && Some(r.0.publicKeys[id]) == bytes.point
      ensures r.1 ==> forall k :: k in publicKeys && k != id ==> r.0.publicKeys[k] == publicKeys[k]
    {
      if bytes.length != 32 then (this, false)
      else match bytes.point
        case None => (this, false)
        case Some(key) => (this.(publicKeys := publicKeys[id := key]), true)
    }

    function RemovePublicKey(id: ReplicaId): (r: KeyStore)
      ensures r.publicKeys.Keys == publicKeys.Keys - {id} && r.myId == myId && r.myKey == myKey
      ensures forall k :: k in r.publicKeys ==> r.publicKeys[k] == publicKeys[k]
    {
      this.(publicKeys := publicKeys - {id})
    }
  }

  /** The distinct signers whose signatures in qc verify. */
  function ValidSigners(keys: KeyStore, qc: QuorumCert): set<ReplicaId> {
    set sig | sig in qc.signatures && keys.Verify(sig, qc.blockHash, qc.view, qc.epoch) :: sig.signer
  }

  predicate Certified(keys: KeyStore, qc: QuorumCert, quorum: nat) {
    |ValidSigners(keys, qc)| >= quorum
  }

  method VerifyQc(keys: KeyStore, qc: QuorumCert, quorum: nat) returns (ok: bool)
    ensures ok <==> Certified(keys, qc, quorum)
  {
    var signers: set<ReplicaId> := {};
    for i := 0 to |qc.signatures|
      invariant signers == ValidSigners(keys, qc.(signatures := qc.signatures[..i]))
    {
      var sig := qc.signatures[i];
      assert qc.signatures[..i + 1] == qc.signatures[..i] + [sig];
      if keys.Verify(sig, qc.blockHash, qc.view, qc.epoch) {
        signers := signers + {sig.signer};
      }
    }
    assert qc.signatures[..|qc.signatures|] == qc.signatures;
    ok := |signers| >= quorum;
  }

  predicate DistinctSigners(sigs: seq<Signature>) {
    forall i, j :: 0 <= i < j < |sigs| ==> sigs[i].signer != sigs[j].signer
  }

  /** A certificate made of valid signatures by different signers counts every one of them. */
  lemma {:induction false} DistinctValidCount(keys: KeyStore, qc: QuorumCert)
    requires DistinctSigners(qc.signatures)
    requires forall s :: s in qc.signatures ==> keys.Verify(s, qc.blockHash, qc.view, qc.epoch)
    ensures |ValidSigners(keys, qc)| == |qc.signatures|
    decreases |qc.signatures|
  {
    if qc.signatures != [] {
      var n := |qc.signatures| - 1;
      var last := qc.signatures[n];
      var rest := qc.(signatures := qc.signatures[..n]);
      assert qc.signatures == rest.signatures + [last];
      DistinctValidCount(keys, rest);
      assert ValidSigners(keys, qc) == ValidSigners(keys, rest) + {last.signer};
      assert last.signer !in ValidSigners(keys, rest);
    } else {
      assert ValidSigners(keys, qc) == {};
    }
  }

  // ----- One certified block per view -----

  /** Signatures cannot be forged: every genuine one in qc is among those its key holder made. */
  ghost predicate Unforged(qc: QuorumCert, made: set<SigBytes>) {
    forall s :: s in qc.signatures && s.bytes.Made? ==> s.bytes in made
  }

  /** The holder of key signed two different blocks of one view and epoch. */
  ghost predicate SignedTwice(key: Key, made: set<SigBytes>, view: nat, epoch: nat) {
    exists g, h :: g != h && Made(key, g, view, epoch) in made && Made(key, h, view, epoch) in made
  }

  ghost function Equivocators(keys: KeyStore, made: set<SigBytes>, view: nat, epoch: nat): set<ReplicaId> {
    set id | id in keys.publicKeys && SignedTwice(keys.publicKeys[id], made, view, epoch)
  }

  lemma OneCertifiedBlock(mine: KeyStore, yours: KeyStore, validators: set<ReplicaId>,
                          made: set<SigBytes>, a: QuorumCert, b: QuorumCert)
    requires mine.publicKeys == yours.publicKeys && mine.publicKeys.Keys == validators
    requires |validators| % 3 == 1
    requires a.view == b.view && a.epoch == b.epoch
    requires Certified(mine, a, Size(|validators|)) && Certified(yours, b, Size(|validators|))
    requires Unforged(a, made) && Unforged(b, made)
    requires |Equivocators(mine, made, a.view, a.epoch)| <= F(|validators|)
    ensures a.blockHash == b.blockHash
  {
    if a.blockHash != b.blockHash {
      var both := ValidSigners(mine, a) * ValidSigners(yours, b);
      Overlap(ValidSigners(mine, a), ValidSigners(yours, b), validators);
      var bad := Equivocators(mine, made, a.view, a.epoch);
      forall id | id in both ensures id in bad {
        var key := mine.publicKeys[id];
        assert Made(key, a.blockHash, a.view, a.epoch) in made;
        assert Made(key, b.blockHash, a.view, a.epoch) in made;
      }
      Subset(both, bad);
      assert false;
    }
  }
}
