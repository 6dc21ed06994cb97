# A verified model of the replica, its disk, and the simulation driver

This project models a chained BFT replica (`src/replica.rs`, `src/crypto.rs`), what it keeps on disk
(`src/wal.rs`, `src/snapshot.rs`, `src/recovery.rs`) and the round-based driver that runs several replicas
together (`src/simulation.rs`, `src/network.rs`), and proves properties of whole runs.

The model has two layers that share one set of datatypes.

* **State values.** `ReplicaModel.ReplicaState` and `SimModel.SimState` are values, and every operation is a
  function from state to state. The theorems are about these functions and about arbitrary sequences of them.
* **Objects.** `ReplicaImpl.Replica`, `RecoverImpl.Rebuild`, `NetworkImpl.Network`,
  `SimulationImpl.Simulation` and `Wal.WAL` are classes that update their fields in place, with the loops the
  program has. The contract of each method says that the state after it is the one the operation makes of the
  state before it. `Simulation.PerformAll` carries this to any schedule of driver actions, so the theorems hold of
  the objects.

The parts:

| files | contents |
|---|---|
| `Types`, `Ordered`, `Quorum`, `Crypto` | data; sets in ascending order; quorum arithmetic; keys and certificates |
| `CommitRule`, `Gaps` | the three-chain rule, the commit loop, independence of the commit schedule; which blocks can still commit |
| `Storage`, `ReplicaModel`, `StateSync` | disk, replica, what a rejoining replica takes over |
| `Recovery`, `Durability`, `Runs` | replay, crash points, whole runs of one replica |
| `Membership`, `QcFormation` | membership changes; votes and certificates of one replica |
| `SimModel`, `Driver`, `Agreement`, `Progress`, `FaultFree`, `Latency`, `MessageCost` | the driver and its whole-run theorems |
| `RoundOps`, `OneProposal`, `Stops` | the driver's steps write by write; one proposal per view; stopping inside a step and starting again |
| `ReplicaImpl`, `RecoverImpl`, `NetworkImpl`, `Phases`, `ReplicaSteps`, `SimulationImpl` | the objects |
| `Wal`, `ByteDisk` | the log file byte by byte, and recovery from its bytes |

Signatures are ideal: a signature is genuine exactly when it was made with the signer's key over the same (hash,
view, epoch). The serializer of the log is a parameter with a left inverse, its checksum an arbitrary function.
Clock readings are parameters. Hashes, views and epochs are unbounded naturals. Which of the generated keys goes to
which replica is left open, because the program iterates a hash map when it hands them out.

## What the proofs say

* **Agreement with departures.** In every schedule in which replicas only ever leave (turn unresponsive, crash, are
  timed out), live replicas always agree on tree, certificate, view and log, all other logs are prefixes of theirs,
  and the driver's own safety check passes.
* **Progress with departures.** In the same schedules a proposed block is certified exactly when the replicas that
  are up, less the leader, are a quorum. Exactly which proposals are committed is stated for every such schedule:
  all of those made while there was such a quorum but the last two, or but the last one as soon as any other block
  was proposed after them.
* **One proposal per view.** With persistence on and a fixed membership, across every mix of rounds, faults,
  recoveries and rejoins no view is proposed in twice; within a run no two votes of one view name different blocks,
  although replicas keep neither a lock nor a last-voted view: it rests on every view being durable before it is
  used. Recovery never fails in any reachable state. Stop the whole system anywhere inside a step, each replica
  between any two of its durable writes, and start another one on its directories: exactly when that start is
  refused is stated; if it is not, the rounds that had ended keep the property, over any number of restarts, and so
  does the round that was stopped, if and only if its leader had logged the change to the next view.
* **Replay refines the run.** After any run of operations on one replica, with snapshots, restarts, rejoins and
  crashes between any two durable writes of any of these, the disk gives back the view, the certificate pointer, the
  committed blocks, and the tree but for the replica's own unlogged proposals; or recovery is refused, and exactly
  when is stated. A crash loses no earlier commit and keeps the first few commits of the operation it interrupts,
  exactly as many as were written. Recovery after a crash is refused exactly between the save of a snapshot and the
  truncation of the log, and only if the log holds a commit. The truncated log and its snapshot say what the whole
  log would.
* **Commit rule.** The rescanning commit loop is the one-pass ascending filter of three-chain heads; interleaving
  arrivals and commits differently gives prefix-related logs.
* **Liveness without faults.** The state after r rounds in closed form, with the number of messages, and the exact
  latency of a client command: committed everywhere after three pacemaker rounds with dummy proposals, never without.
* **Frames.** Any byte prefix of a log reads as exactly its whole entries, or fails. A crash at any single byte of a
  commit's write recovers the exact log or one block ahead, or is refused, and exactly when is stated.

Findings on the way:

* A committed log need not be a chain. The rule looks only at the *first* child, so a block whose first child
  failed is never committed, while its descendants are (`Gaps.CommittedParentMissing`). Which blocks can still
  commit is decided by the tree alone (`Gaps.CommitsEventuallyIff`).
* Block 1 carries no certificate, so the genesis block never commits (`FaultFree.ChainHead`).
* At most one membership change is ever accepted: a command adds or removes one validator and is accepted only if
  the new size is of the form 3f+1, so from such a size none is. The growth from 4 to 7 that the repository's own
  README (line 459) lists as accepted is not reachable. Across the one change there can be, an old and a new quorum
  share at least the *old* f members, and that bound is attained.
* A certificate formed from votes that carry different views may not verify; only the driver's habit of sending
  the block's view prevents it. It verifies exactly when a quorum, less the voter, has voted in the view of the last
  vote (`QcFormation.FormedVerifiesIff`, `QcFormation.MixedViewsBreakCertificate`).
* A crash in the middle of an append makes the whole log unreadable, and recovery impossible, as soon as the length
  field is complete (`ByteDisk.TornAppend`). A log torn within the length field opens without complaint, but the
  next append of a payload of 1 to 255 bytes makes it unreadable, whatever came before (`Wal.ShortPayloadLost`);
  for other payloads and further appends the exact condition is stated (`Wal.TornTailFrame`,
  `Wal.TornTailSpoilsAppends`).
* A crash inside a truncation can leave its temporary file behind. Nothing ever removes it, and every later
  truncation then fails: snapshots are saved over a log that is kept. As soon as one is saved over a log that holds a
  commit, the replica runs on but can never be recovered again, and over any run that is the only way to get there
  (`Runs.LeftoverIff`, `Runs.LeftoverStays`, `Runs.LeftoverSnapshot`, `Runs.ReplayRefinesRun`).
* A leader's proposal is not logged, and its view change only at the end of the round. If the system is stopped in
  between and started again on the same directories, the same view can be proposed in a second time
  (`Stops.ProposedAgainIff`).
* Started again on existing directories, the driver gives out block hashes from 1 again
  (`Stops.ResumeReusesHashes`).
* The header comment of `src/wal.rs` gives the creation time 8 bytes; the code writes 16. The model follows the code.

## Model

| member | source | states |
|---|---|---|
| Quorum.IntersectionIffThreeFPlusOne | src/replica.rs:127-142 | any two quorums of an active set share at least f+1 members if and only if its size is of the form 3f+1 |
| Quorum.CrossEpochIntersection | src/replica.rs:580-621 | a quorum before and a quorum after an accepted join or remove share at least the old f members |
| Quorum.CrossEpochTight | src/replica.rs:580-621 | that bound is attained: some old and some new quorum share exactly the old f members |
| Crypto.VerifyQc | src/crypto.rs:196-204 | a certificate is accepted exactly when its distinct signers with a valid signature reach the quorum; the loop computes that set |
| Crypto.DistinctValidCount | src/crypto.rs:196-204 | valid signatures by different signers all count |
| Crypto.OneCertifiedBlock | src/crypto.rs:196-204 | with n = 3f+1 registered validators of which at most f sign twice in a view and epoch, two accepted certificates of that view and epoch name the same block, whoever verifies them |
| Crypto.KeyStore.AddPublicKey | src/crypto.rs:207-220 | a key is registered exactly when the bytes are 32 and a curve point; it is that point's key, and no other key changes |
| Crypto.KeyStore.RemovePublicKey | src/crypto.rs:223-225 | exactly that validator's key goes; the others stay what they were |
| CommitRule.CommitsStep | src/replica.rs:650-663 | committing the least pending head and rescanning commits the same list as one ascending pass |
| CommitRule.CommitsFixpoint | src/replica.rs:658-663 | after committing all, nothing is pending, committing again adds nothing, and no hash was committed twice |
| CommitRule.ScheduleIndependence | src/replica.rs:501-537 | for blocks arriving in increasing hash order with non-decreasing parents, any interleaving of arrivals and commits gives a strictly ascending log that is a prefix of all three-chain heads, and all of them if it ends with a commit |
| CommitRule.PrefixRelated | src/replica.rs:650-663 | two replicas at different points of one such block sequence, whatever their commit attempts, hold logs of which one is a prefix of the other |
| CommitRule.StuckForever | src/replica.rs:509-513 | a stuck block stays stuck and uncommitted under every in-order continuation |
| Gaps.CommittedParentMissing | src/replica.rs:501-537 | from an empty disk a replica of four receives six properly signed proposals, commits a block but not its parent, and no in-order continuation ever commits the parent |
| Gaps.CommitsEventuallyIff | src/replica.rs:432-537 | exactly which blocks can still commit, on any replica that holds a quorum of keys: from any view on there are proposals it accepts, by the leaders of their views and with genuine certificates, after which it commits the block, if and only if the block is not stuck, which the tree alone decides |
| Storage.BlockRoundTrip | src/snapshot.rs:175-214 | saving and loading a block reduces its certificate to a pointer; the block is unchanged if and only if the certificate had no signatures and the block's own epoch; a second round trip loses nothing more |
| Storage.LatestIs | src/snapshot.rs:328-388 | loading finds the snapshot with the highest number |
| Storage.CleanupExact | src/snapshot.rs:393-428 | cleaning up leaves exactly as many snapshots as wanted, if there are that many, unchanged, and drops only lower numbers than it keeps |
| Storage.CleanupKeepsLatest | src/snapshot.rs:393-428 | cleaning up keeps the highest-numbered snapshot and changes none that it keeps |
| Recovery.TreeRoundTrip | src/snapshot.rs:247-282 | a saved tree loads with the same hashes and, at each, the saved block with its certificate as a pointer |
| Recovery.CaptureMirrors | src/snapshot.rs:247-282 | what a captured snapshot restores has the replica's view, certificate pointer, committed blocks and tree |
| Recovery.SnapshotIsLatest | src/replica.rs:1031-1077 | from its save on, at every later point of taking a snapshot, the new snapshot is the one recovery would load, and all numbers on disk are below the next |
| Recovery.DurableVote | src/replica.rs:185-266 | handling a vote keeps the disk in agreement with the memory |
| Recovery.DurableInsert | src/replica.rs:432-473 | a received block is on disk before it is in memory, so it leaves the set of unlogged own proposals |
| Recovery.DurablePropose | src/replica.rs:399-418 | an own proposal is the only thing in memory that the disk does not know |
| Recovery.DurableCommit | src/replica.rs:546-578 | a commit, with whatever membership change it brings, keeps the disk in agreement with the memory |
| Recovery.DurableAdvance | src/replica.rs:708-723 | a view change keeps the disk in agreement with the memory |
| Recovery.DurableSnapshot | src/replica.rs:1031-1077 | a snapshot makes the whole state durable, whatever the log held before |
| Durability.DiskRestart | src/recovery.rs:89-247 | recovery from a good directory succeeds and, once the log is attached, memory and disk agree and hold exactly what replay found |
| Durability.DurableRestart | src/recovery.rs:89-247 | restarting a durable replica gives back its view, certificate pointer and committed blocks |
| Runs.WritesEnd | src/replica.rs:239-266 | the list of durable writes of every operation starts with the directory before it and ends with the directory after it |
| Runs.ReplayRefinesRun | src/recovery.rs:257-375 | after any run of operations, snapshots, restarts, rejoins and crashes between any two durable writes of any of these, recovery is refused if and only if some snapshot was saved over a log with a commit that the left-over file of a truncation kept from being truncated; otherwise it finds the live view and committed blocks, the live tree minus own proposals, and the live certificate pointer unless a rejoin met such a file |
| Runs.BlockedPointer | src/recovery.rs:307-335 | the certificate pointer recovery finds after a snapshot that could not truncate the log: that of the snapshot, moved on once more by the certificate entries of that log |
| Runs.SnapshotPlusTail | src/recovery.rs:96-194 | over any such run without a rejoin that recovery does not refuse in the end, the last snapshot and the log after it say the same as every entry ever appended, replayed from nothing: view, certificate pointer, committed blocks, and the tree but for own proposals |
| Runs.LatestIsLastSaved | src/snapshot.rs:328-428 | over any such run snapshot numbers never decrease, grow after every snapshot that ended or was interrupted by a crash, and the latest is the one saved last |
| Runs.CrashRefusedIff | src/replica.rs:1031-1077 | recovery after a crash at any write of any operation is refused if and only if it falls between the save of a snapshot and the truncation of a log that holds a commit, or after such a save if that truncation cannot come |
| Runs.CrashKeepsCommits | src/replica.rs:546-578 | a crash at any write of any operation loses no commit made before it and adds none but the first few of that operation |
| Runs.CommitPassCrash | src/replica.rs:650-663 | a crash after k writes of a commit pass recovers exactly k of its commits |
| Runs.CertificateCrash | src/replica.rs:246-259 | a crash between the two writes of a certificate recovers the new pointer if its view is the larger one, the old one otherwise; before them the old one, after them the new one |
| Runs.LeftoverIff | src/wal.rs:464-499 | exactly one crash point leaves the temporary file of a truncation behind: after it was written, before it replaced the log |
| Runs.LeftoverStays | src/wal.rs:464-499 | no run of operations, snapshots, rejoins, crashes and recoveries removes it |
| Runs.LeftoverSnapshot | src/replica.rs:1031-1077 | while it is there a snapshot of a durable replica fails after its save: the log stays and the number is not used up; if the log holds a commit recovery is refused at once and after every further run, otherwise it still succeeds |
| Runs.DurableCrash | src/recovery.rs:89-247 | after a crash that recovery does not refuse, memory and disk agree again, with no votes, the right latest snapshot and the next number |
| Durability.SnapshotCrash | src/replica.rs:1031-1077 | from the save of a snapshot on, also of one taken after state sync, a crash recovers log and view exactly or is refused as out of order; refused if and only if it falls before the truncation and the log holds a commit |
| Membership.ChangeableIff | src/replica.rs:580-621 | some command can still change the membership if and only if the size is not 0, 2 or of the form 3f+1 |
| Membership.AtMostOneChange | src/replica.rs:580-621 | over any sequence of committed commands at most one is accepted, and then n = 3f+1 >= 4 for good |
| Membership.StaysInStep | src/replica.rs:580-621 | validators, registered keys, n and f stay in step over any sequence of committed commands |
| Membership.QuorumsAcrossChange | src/replica.rs:580-621 | across an accepted command an old and a new quorum share at least the old f members |
| QcFormation.QcExactlyAtQuorum | src/replica.rs:185-266 | a vote yields a certificate if and only if it is accepted and leaves its pool at quorum; the certificate names the voted block, counts every pooled signer, verifies, and becomes the high certificate |
| QcFormation.PoolsStaySound | src/replica.rs:185-266 | over any run of votes that carry their block's view, view changes, membership commits, restarts, rejoins and crashes, every pool holds valid signatures of distinct active signers for its block; only runs that recover from disk need one, which may also be one that refuses recovery |
| QcFormation.FormedVerifiesIff | src/replica.rs:217-246 | whatever the pools hold, a certificate that forms verifies if and only if a quorum, less the voter, has pooled a signature that verifies for the view of the completing vote |
| QcFormation.MixedViewsBreakCertificate | src/replica.rs:217-226 | so three genuine votes for the first block a leader of four proposes, in view 0, make a certificate that does not verify if the last of them names view 1, whatever the keys |
| Agreement.AgreementWithDepartures | src/simulation.rs:300-582 | for every schedule of rounds, unresponsiveness, crashes, static client commands and dummy settings from a fresh start: live replicas agree on tree, certificate, view and log, and any other log is a prefix of theirs |
| Agreement.SafetyCheckPasses | src/simulation.rs:826-872 | the driver's safety check never fails in such a schedule |
| Agreement.RunAgreed | src/simulation.rs:300-582 | the invariant behind it is kept by every step of both kinds of rounds |
| OneProposal.OneProposalPerView | src/simulation.rs:300-726 | with persistence and a fixed membership no two blocks proposed in a run share a view, whatever crashes, recovers and rejoins |
| OneProposal.NoSecondVotePerView | src/simulation.rs:414-422 | no two votes sent in a run with the same view name different blocks |
| RoundOps.RoundRuns | src/simulation.rs:371-571 | what a round makes of a replica that is up is a list of its operations, one durable write after the other, the last of which moves it to the next view |
| RoundOps.RejoinRuns | src/simulation.rs:606-726 | what a rejoin makes of a crashed replica is one operation of the replica its directory gives back |
| Stops.OneProposalAcrossRestarts | src/simulation.rs:86-163 | a new system is stopped anywhere inside any step, each replica at any operation and durable write, and another one is started, with new keys, on its directories: the start is refused if and only if a replica was between the save of a snapshot and the truncation of a log with a commit; otherwise no view is proposed in twice by rounds that ended, and the view of the stopped round is never proposed in again if and only if its leader had logged the change to the next view |
| Stops.ProposedAgainIff | src/replica.rs:399-418 | the last part for any system in order, whatever was proposed before: if that view change is not on disk, some continuation proposes in the view a second time |
| Stops.OneProposalOverLives | src/simulation.rs:86-163 | over any number of such stops and starts no view is proposed in twice by rounds that ended or whose leader had logged the change to the next view |
| Stops.WholeStep | src/simulation.rs:300-726 | a stop behind the last operation of every replica leaves exactly the directories the step ends with |
| Stops.ResumeSound | src/simulation.rs:86-163 | for any system in order, stopped anywhere inside a step: the start is refused if and only if some replica was in that window or its log did not fit its snapshot before; otherwise every replica is in order, in the view its directory was at, and no earlier than it was |
| Stops.ResumeReusesHashes | src/simulation.rs:147-162 | on whatever directories a system is started, hashes are given out from 1 again: its first proposal replaces the block of that hash in the leader's tree |
| OneProposal.RecoveryNeverFails | src/simulation.rs:606-726 | in every reachable state recovery of every replica succeeds and every crashed one can rejoin |
| OneProposal.RejoinRestoresDisk | src/simulation.rs:606-726 | a rejoin fails if and only if log and snapshot on disk do not fit; after it the log extends what the disk held, the tree contains the donor's blocks, the view is at least every live one, and recovering again gives the same view and committed blocks, unless the left-over file of a truncation kept a log with a commit |
| OneProposal.RunSound | src/replica.rs:708-723 | in every reachable state, from any system in order, every replica's disk gives back what it holds or refuses recovery for good, and the proposer of every block, earlier ones included, is beyond its view |
| Driver.LeaderIsFirstUncrashed | src/simulation.rs:275-297 | while anybody is uncrashed the driver's leader is the first uncrashed replica from the highest uncrashed view on, going round |
| Driver.LeadersRotate | src/replica.rs:145-155 | within as many views as there are validators every active validator leads, and only active ones do |
| Driver.RejoinSyncs | src/simulation.rs:640-710 | a rejoined replica holds exactly what its disk gave back plus what its donor adds: blocks, an extending log, a later certificate; its view is the larger of its own and the highest live one, and its hash counter is beyond every known block |
| FaultFree.QcIffQuorumVotes | src/simulation.rs:452-487 | with keys as distributed, a round forms a certificate if and only if the votes, one from each other replica that is up and accepts the block, reach the quorum |
| Progress.CertifiedExactly | src/simulation.rs:452-523 | in every departure schedule, a step that proposes a block leaves everybody who is up with a certificate for it if and only if the replicas that are up, less the leader, are a quorum |
| Progress.CommittedExactly | src/simulation.rs:300-582 | in every departure schedule, with m of the proposals made while a quorum besides the leader was up, everybody who is up has committed exactly the first m-2 proposals, in order, or the first m-1 if another block was proposed after those, and holds a certificate for the m-th |
| Progress.CommittedWhileQuorum | src/simulation.rs:300-582 | if there is such a quorum to the end, that is everything but the last two proposals, and the tree is a single chain of them all |
| Progress.NothingNewWithoutQuorum | src/simulation.rs:300-582 | once there is no such quorum, the high certificate never changes again and exactly one more block is committed, the one before the last certified one, as soon as any block is proposed on top of that |
| FaultFree.ChainHead | src/replica.rs:501-537 | in the chain of a fault-free run block h is committable if and only if h >= 1 and two more blocks follow it |
| FaultFree.FaultFreeRound | src/simulation.rs:300-582 | a fault-free round of either kind with something to propose adds exactly the next block of the chain on every replica, in 3(n-1) messages |
| FaultFree.FaultFreeClosedForm | src/simulation.rs:300-582 | for every n >= 2 and every r within the step budget, after r plain rounds every replica is in view r with chain 0..r and committed exactly 1..r-2, and 3(n-1)r messages were sent, (n-1)r of each of three kinds |
| Latency.CommitLatency | src/simulation.rs:960-1141 | with dummies and no idle threshold a command enqueued on the current leader is in the next block, and that block is committed everywhere after the third round and nowhere before, whatever else is queued |
| Latency.NeverWithoutDummies | src/simulation.rs:960-1141 | with dummies off and other queues empty the command's block is proposed and never committed by any replica, however many pacemaker rounds follow |
| Latency.ThreeRoundsOrNever | src/replica.rs:805-882 | from a fresh start and any number of plain rounds: the command is committed if and only if dummies are on and three pacemaker rounds have passed |
| MessageCost.RoundCost | src/network.rs:105-175 | under every fault pattern a round sends at most 3(n-1) messages, keeps total equal to the sum of the kinds, and leaves the queue empty |
| MessageCost.LinearCost | src/network.rs:105-175 | over every run, faults and rejoins included, k rounds send at most 3(n-1)k messages |
| ReplicaImpl.Replica.HandleVote | src/replica.rs:185-227 | the object ends in the state, and returns the certificate, of the vote operation that QcExactlyAtQuorum and PoolsStaySound are about, with exactly the durable writes of that operation; the scan for a duplicate signer is a loop |
| ReplicaImpl.Replica.TryFormQc | src/replica.rs:239-266 | the certificate step of that operation: high certificate at quorum, nothing below it, and the directory after each of the two log entries, as CertificateCrash lists them |
| ReplicaImpl.Replica.ApplyHighQcFromNetwork | src/replica.rs:295-317 | the certificate is taken and logged exactly when it is newer by (epoch, view), and the result says so |
| ReplicaImpl.LatestBlockHash | src/replica.rs:479-481 | the block with the highest view, the last in hash order among equals |
| ReplicaImpl.Replica.ProposeWithHash | src/replica.rs:399-418 | the object proposes as the operation that DurablePropose and the chain theorems are about: a leader on its high certificate or latest block, anybody else not at all |
| ReplicaImpl.Replica.ProposeNextWithHash | src/replica.rs:851-882 | the newest client command first, else a dummy if wanted, else nothing |
| ReplicaImpl.Replica.ShouldProposeDummy | src/replica.rs:805-821 | true exactly when dummies are on, this replica leads, its queue is empty, the threshold has passed and no block is committable |
| ReplicaImpl.Replica.ValidateAndInsertProposal | src/replica.rs:432-473 | accepts exactly the valid proposals, certificate checked by the counting loop, and then logs before it inserts, as DurableInsert needs |
| ReplicaImpl.FirstChild | src/replica.rs:509-514 | the first block in hash order with this parent, or none exactly when there is none |
| ReplicaImpl.IsHead | src/replica.rs:503-535 | decides whether a block heads a three-chain of first children |
| ReplicaImpl.FindHead | src/replica.rs:501-537 | the least uncommitted three-chain head, or none exactly when there is none |
| ReplicaImpl.Replica.FindCommittedBlock | src/replica.rs:501-537 | the same for the replica's own tree and log |
| ReplicaImpl.Replica.ApplyMembershipCommand | src/replica.rs:580-621 | the object changes as the operation that AtMostOneChange and StaysInStep are about: validators, keys, epoch, n, f and vote pool together or not at all |
| ReplicaImpl.Replica.ExecuteAndCommit | src/replica.rs:546-578 | log entry first, then memory; the directory before and after is exactly the pair the crash theorems speak of |
| ReplicaImpl.Replica.TryCommitOnce | src/replica.rs:650-656 | commits the least pending head if there is one |
| ReplicaImpl.Replica.CommitAll | src/replica.rs:661-663 | the loop terminates, ends in the state of the one-pass commit, leaves nothing pending, and makes exactly the durable writes CommitPassCrash speaks of |
| ReplicaImpl.Replica.AdvanceView | src/replica.rs:708-723 | next view, logged as DurableAdvance needs, votes dropped |
| ReplicaImpl.Replica.TakeSnapshot | src/replica.rs:1031-1077 | the state after a snapshot, and the directory after each durable write, exactly as the crash theorems list them |
| ReplicaImpl.CleanupOld | src/snapshot.rs:393-428 | removes the lowest-numbered snapshots one by one until the wanted number is left |
| ReplicaImpl.Replica.AttachWal | src/simulation.rs:628-638 | attaching logs genesis exactly when the log is empty and the tree is genesis only |
| RecoverImpl.LoadLatest | src/snapshot.rs:328-388 | the highest-numbered snapshot, if any |
| RecoverImpl.Rebuild.ReplayOne | src/recovery.rs:257-375 | one entry updates tree, log, certificate, view, hash counter and epoch, or fails leaving all of them |
| RecoverImpl.ReplayAll | src/recovery.rs:169-187 | the loop replays entries in order and stops with the first error |
| RecoverImpl.RecoverReplica | src/recovery.rs:89-247 | builds a replica object in the state recovery specifies, or fails with the error it specifies |
| NetworkImpl.Network.Send | src/network.rs:106-119 | appends to the queue and counts one message of its kind |
| NetworkImpl.Network.BroadcastProposal | src/network.rs:122-132 | one message to every replica but the sender, in ascending order |
| NetworkImpl.Network.BroadcastQc | src/network.rs:135-146 | one certificate message to every replica but the sender, in ascending order |
| NetworkImpl.Network.BroadcastNewView | src/network.rs:154-165 | one message to every replica but the sender, in ascending order |
| NetworkImpl.Network.SendVote | src/network.rs:149-151 | one vote message, counted as such |
| NetworkImpl.Network.Receive | src/network.rs:168-170 | the oldest message, or nothing exactly when none is pending |
| NetworkImpl.Network.Drain | src/simulation.rs:390-397 | everything pending is received, and exactly the proposals are kept, in sending order |
| NetworkImpl.BroadcastKept | src/simulation.rs:390-397 | of a proposal broadcast nothing is dropped that way |
| NetworkImpl.Network.Clear | src/network.rs:183-185 | drops what is pending; what was sent stays counted |
| NetworkImpl.Network.GenerateUniqueHash | src/network.rs:191-195 | every call returns a hash larger than all before |
| NetworkImpl.ProposalsAt | src/network.rs:122-132 | the k-th message of a broadcast goes to the k-th other replica |
| NetworkImpl.CountProposals | src/network.rs:106-132 | a broadcast raises the total and its kind by the number of messages |
| SimulationImpl.Simulation.constructor | src/simulation.rs:86-163 | a new system on empty directories is the start state; with persistence every replica comes out of recovery with genesis logged |
| SimulationImpl.Resume | src/simulation.rs:86-163 | on directories that already hold logs or snapshots every replica is recovered from its own and the log attached; the first failing recovery is the error |
| SimModel.ResumeFresh | src/simulation.rs:86-163 | on empty directories, or on those an earlier start was stopped in, that is the new system |
| SimulationImpl.Simulation.ProcessTimeoutCrashes | src/simulation.rs:227-253 | crashes exactly the unresponsive replicas whose last response is a timeout ago |
| SimulationImpl.Simulation.SetReplicaUnresponsive | src/simulation.rs:256-272 | marks or unmarks a live replica; refused for unknown and crashed ones |
| SimulationImpl.Simulation.CurrentLeader | src/simulation.rs:275-297 | the first uncrashed replica from the highest live view on |
| SimulationImpl.Simulation.ProposalPhase | src/simulation.rs:382-444 | after broadcast, validation and voting, exactly the accepting live replicas have the block and exactly their votes are in the network |
| SimulationImpl.Simulation.CollectPhase | src/simulation.rs:451-487 | the leader has handled every vote in order; the result is the last certificate formed |
| SimulationImpl.Simulation.CertificatePhase | src/simulation.rs:490-523 | every other live replica has applied the certificate |
| SimulationImpl.Simulation.CommitLive | src/simulation.rs:530-554 | every live replica has committed everything and snapshotted if due |
| SimulationImpl.Simulation.AdvanceLive | src/simulation.rs:561-569 | every live replica is one view further |
| SimulationImpl.Simulation.AfterProposal | src/simulation.rs:371-571 | the message and commit phases one after the other make exactly the round of the state machine |
| SimulationImpl.Simulation.RunOneRound | src/simulation.rs:300-582 | a plain round, fault handling included, takes the objects where the state machine goes; refused exactly when the budget is spent or all have crashed |
| SimulationImpl.Simulation.RunOneRoundWithPacemaker | src/simulation.rs:960-1141 | the same for a pacemaker round |
| SimulationImpl.Simulation.CrashReplica | src/simulation.rs:585-603 | a crashed replica is replaced by a blank one on the same directory |
| SimulationImpl.Simulation.RecoverReplica | src/simulation.rs:606-726 | recovery, state sync, catching up and the final snapshot; succeeds exactly when the replica is no longer crashed |
| SimulationImpl.Simulation.EnqueueClientCommand | src/simulation.rs:948-951 | the command is queued on the current leader only |
| SimulationImpl.Simulation.SetDummyProposals | src/simulation.rs:931-942 | dummies are switched on every replica |
| SimulationImpl.Simulation.VerifySafety | src/simulation.rs:826-872 | true exactly when all compared logs agree as far as both go |
| SimulationImpl.Simulation.PerformAll | src/simulation.rs:300-951 | any schedule of driver actions on the objects ends in the state the state machine reaches; only queueing a command needs a replica |
| SimulationImpl.DepartureRun | src/simulation.rs:826-872 | on the objects: after any departure schedule live replicas agree and the safety check returns true |
| ReplicaSteps.ImportFrom | src/simulation.rs:648-696 | state sync of a recovered replica: missing blocks, an extending log, a newer certificate, a hash counter beyond every known block |
| ReplicaSteps.MergeTrees | src/simulation.rs:656-660 | the union of both trees, with one's own block where both have one |
| ReplicaSteps.CompareLogs | src/simulation.rs:856-865 | whether two logs name the same blocks as far as both go |
| Wal.U32RoundTrip | src/wal.rs:343-347 | a length comes back modulo 2^32 |
| Wal.ReadBack | src/wal.rs:399-455 | reading a log back gives exactly the entries written |
| Wal.ReadPrefix | src/wal.rs:409-455 | reading any byte prefix gives exactly the entries whole in it if fewer than four bytes are left over, and an error otherwise |
| Wal.OpenPrefix | src/wal.rs:272-317 | opening any byte prefix of a log file succeeds exactly when the header is whole and fewer than four bytes are left over, with exactly the whole entries |
| Wal.BatchIsRepeatedAppend | src/wal.rs:371-388 | a batch writes the same bytes as one append after the other |
| Wal.FramesConcat | src/wal.rs:330-388 | appending extends the sequence of entries |
| Wal.FrameReadIffFits | src/wal.rs:343-344 | a frame is read as its entry if and only if the payload is shorter than 2^32 bytes |
| Wal.CorruptionDetected | src/wal.rs:436-447 | a payload replaced by one of the same length and another checksum is reported at its offset |
| Wal.TornTailFrame | src/wal.rs:412-434 | a frame behind one to three leftover bytes of a torn one is an unexpected end of file if and only if the length made of those bytes and its own first bytes is more than what follows |
| Wal.MisreadValue | src/wal.rs:412-424 | that length as a number |
| Wal.TornTailSpoilsAppends | src/wal.rs:413-447 | a log with any entries, torn within a length field, opens as those entries; after any further appends it cannot be opened while that length reaches beyond them, nor later unless the misplaced checksum happens to match |
| Wal.ShortPayloadLost | src/wal.rs:330-361 | so one more entry with a payload of 1 to 255 bytes always makes it unreadable |
| ByteDisk.FileRefinesEntries | src/recovery.rs:165-189 | recovery from the bytes of a log file is recovery from its entries |
| ByteDisk.TornAppend | src/wal.rs:330-361 | after a crash at byte n of an append, recovery is that of the log with the entry if all bytes are there, that of the log without it if fewer than four are, and refused otherwise |
| ByteDisk.CommitCrashAtByte | src/replica.rs:546-556 | a crash at any byte of a commit's write recovers the exact log or one block ahead, with the live view; refused if and only if the length field is complete and the frame is not |
| Wal.Create | src/wal.rs:230-264 | a new log is a header and no entries; a file that is already there is refused |
| Wal.Open | src/wal.rs:272-317 | opening validates magic and version, counts the entries and stands at the end, or fails with the first thing wrong |
| Wal.Reopen | src/wal.rs:272-317 | a reopened log is valid with its entries, ready for appending |
| Wal.WAL.Append | src/wal.rs:330-361 | one frame written at the cursor and one entry counted, whatever the file holds; a file of whole frames stays one, with one entry more, if the payload is shorter than 2^32 bytes |
| Wal.WAL.AppendBatch | src/wal.rs:371-388 | the frames of all entries written at the cursor, in order, all counted; the same otherwise |
| Wal.WAL.ReadEntries | src/wal.rs:409-455 | the loop reads what the format says from the cursor on, and ends at the end of the file or with the first error |
| Wal.WAL.ReadFrame | src/wal.rs:412-452 | one step of it, read in three pieces |
| Wal.WAL.ReadAll | src/wal.rs:399-404 | everything after the header is read, whatever it is; a log that was only appended to gives back its entries, and appending can go on |
| Wal.WAL.TruncateAfterSnapshot | src/wal.rs:464-499 | a fresh header, no entries, counter at zero; it fails and changes nothing if the temporary file of an earlier truncation is still there |

## Left out

- Byzantine leaders and agreement against equivocation: replicas keep no lock and no last-voted view, so only the conditional uniqueness of certificates holds.
- Agreement and progress across replicas after one rejoins or becomes responsive again: their trees may differ; the per-replica theorem about rejoining is proved instead.
- Progress after an epoch change: proposals then carry the old epoch's certificate, which validation rejects. The round theorems are for commands that leave the membership alone.
- Validators, commands and application state after recovery from the log tail: replay does not rebuild them.
- `import_catchup_state` and `export_catchup_state`: a second, weaker replay.
- Wall-clock time, view timers, file system errors, fsync and rename, the SHA-256 sidecars, the internals of Ed25519, CRC32 and the serializer.
- 64-bit wrap-around and saturation of hashes, views and counters.
- Key stores and data directories are values inside the replica object: sharing one directory between two objects, or a log handle that outlives its replica, is not modelled. `Wal.WAL` is the log file as an object of its own; the replica's directory holds the entries it would read.
- Timestamps of entries and snapshots, and the VoteReceived entry's writer: nothing ever writes that entry.
- Printing, statistics, `src/grpc.rs`, `src/visualiser.rs`, `src/main.rs`, examples and tests.
- `propose`, `propose_command`, `propose_next` and `receive_vote_from_replica`: variants with a local hash counter that the driver does not use.
- Wal.WAL.Append: promises a valid log only for payloads shorter than 2^32 bytes; `Wal.FrameReadIffFits` says what happens otherwise.
- Wal.WAL.AppendBatch: the same for every entry.
- ReplicaImpl.Replica.ExecuteAndCommit: does not call an attached application; its execution does not feed back into the protocol.
- ReplicaImpl.Replica.TakeSnapshot: captures no application blob, and its save does not fail.
- RecoverImpl.LoadLatest: does not model a checksum mismatch or an unreadable snapshot file.
- RecoverImpl.RecoverReplica: does not model file errors or the pending application state.
- Runs.SnapshotPlusTail: excludes rejoins, because what state sync imports is never appended to the log.
- SimulationImpl.Simulation.EnqueueClientCommand: requires at least one replica, as the program would index an empty list otherwise.
- Agreement.AgreementWithDepartures: speaks of schedules in which nobody returns and client commands leave the membership alone.
- OneProposal.OneProposalPerView: speaks of runs whose client commands leave the membership alone.
- Stops.OneProposalAcrossRestarts: the same.
