/** The data every layer shares: commands, blocks, certificates and votes. */
module Types {
  type Hash = nat
  type ReplicaId = nat

  /** A public key, and with it the private key it belongs to. */
  type Key = nat

  datatype Option<+T> = None | Some(value: T)

  datatype Result<+T, +E> = Ok(value: T) | Err(error: E)

  /** The key bytes a join command carries: their number, and the curve point they decode to, if any. */
  datatype KeyBytes = KeyBytes(length: nat, point: Option<Key>)

  datatype Command =
    | NoOp
    | ClientTx(payload: string)
    | JoinValidator(joiner: ReplicaId, publicKey: KeyBytes)
    | RemoveValidator(leaver: ReplicaId)

  /** Membership commands change the validator set when their block commits; the others do not. */
  predicate Static(command: Command) {
    command.NoOp? || command.ClientTx?
  }

  /** Ideal signature bytes: either made with a key over one (hash, view, epoch), or anything else. */
  datatype SigBytes =
    | Made(key: Key, hash: Hash, view: nat, epoch: nat)
    | Arbitrary(tag: nat)

  datatype Signature = Signature(signer: ReplicaId, bytes: SigBytes)

  datatype QuorumCert = QuorumCert(blockHash: Hash, view: nat, epoch: nat, signatures: seq<Signature>)

  datatype Block = Block(
    hash: Hash, parent: Option<Hash>, view: nat, epoch: nat, proposer: ReplicaId,
    qc: Option<QuorumCert>, command: Command)

  datatype Vote = Vote(blockHash: Hash, view: nat, epoch: nat, signature: Signature)

  datatype Config = Config(n: nat, f: nat, id: ReplicaId, timeoutMs: nat)

  const GENESIS := Block(0, None, 0, 0, 0, None, NoOp)

  /** What the disk keeps of a certificate: what it certifies, without the signatures. */
  function Pointer(qc: QuorumCert): QuorumCert {
    qc.(signatures := [])
  }
}
